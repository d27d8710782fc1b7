/** The builder for a temporary file: it creates one TemporaryFile when it is
    constructed and every fluent call configures that same instance. */
module FileBuilder {
  import opened Common
  import opened TemporaryFiles

  /** A class loader (or a class's own resource lookup), reduced to the
      resources it finds by name; a name it does not know gives null. */
  datatype ClassLoader = ClassLoader(resources: map<string, Url>)

  function GetResource(loader: ClassLoader, name: string): Option<Url>
  {
    if name in loader.resources then Some(loader.resources[name]) else None
  }

  /** The URL fromClasspathResource configures: the context class loader
      decides when there is one, the builder's own class otherwise. */
  function ClasspathResource(contextLoader: Option<ClassLoader>, ownClass: ClassLoader, path: string): (u: Option<Url>)
    ensures contextLoader.Some? ==> u == GetResource(contextLoader.value, path)
    ensures contextLoader.None? ==> u == GetResource(ownClass, path)
    // a context class loader that lacks the resource gives null: the
    // builder's own class is not asked as a fallback
    ensures contextLoader.Some? && path !in contextLoader.value.resources ==> u.None?
    ensures u.Some? ==> path in (if contextLoader.Some? then contextLoader.value else ownClass).resources
  {
    if contextLoader.Some? then GetResource(contextLoader.value, path) else GetResource(ownClass, path)
  }

  class TemporaryFileBuilder {
    const temporaryFile: TemporaryFile

    constructor (folder: TemporaryFolder, fileName: string)
      ensures fresh(temporaryFile)
      ensures temporaryFile.folder == folder && temporaryFile.filename == fileName
      ensures temporaryFile.contentUrl.None? && !temporaryFile.forceContent && temporaryFile.Valid()
    {
      temporaryFile := new TemporaryFile(folder, fileName);
    }

    /** The one file created by the constructor, on every call. */
    function Build(): (f: TemporaryFile)
      ensures f == temporaryFile
    {
      temporaryFile
    }

    /** `contextLoader` is the current thread's context class loader, if
        any; `ownClass` is what the builder's own class finds. */
    method FromClasspathResource(pathToResource: string, contextLoader: Option<ClassLoader>, ownClass: ClassLoader)
      returns (b: TemporaryFileBuilder)
      modifies temporaryFile`contentUrl
      ensures b == this
      ensures temporaryFile.contentUrl == ClasspathResource(contextLoader, ownClass, pathToResource)
    {
      var contentUrl: Option<Url>;
      if contextLoader.Some? {
        contentUrl := GetResource(contextLoader.value, pathToResource);
      } else {
        contentUrl := GetResource(ownClass, pathToResource);
      }
      temporaryFile.SetContentUrl(contentUrl);
      b := this;
    }

    method FromResource(resource: Option<Url>) returns (b: TemporaryFileBuilder)
      modifies temporaryFile`contentUrl
      ensures b == this && temporaryFile.contentUrl == resource
    {
      temporaryFile.SetContentUrl(resource);
      b := this;
    }

    method WithContent() returns (b: TemporaryFileBuilder)
      modifies temporaryFile`forceContent
      ensures b == this && temporaryFile.forceContent
    {
      temporaryFile.SetForceContent(true);
      b := this;
    }
  }

  /** A file returned by build() sees configuration made afterwards, since
      the builder holds and mutates that one instance; and a chain with
      forced content but no resource makes createTempFile fail after
      creating the empty file. */
  method ConfigureAfterBuildScenario(folder: TemporaryFolder, u: Url, resources: Resources)
    returns (forced: bool, o: Outcome, created: seq<int>, contentUrl: Option<Url>)
    requires folder.created && "example.txt" !in folder.files
    modifies folder`files
    ensures forced && o == Fail(AssertionError(CONTENT_URL_NOT_SET)) && created == [] && contentUrl == Some(u)
  {
    var builder := new TemporaryFileBuilder(folder, "example.txt");
    var file := builder.Build();
    var same := builder.WithContent();
    assert same.Build() == file && file.forceContent;
    forced := file.forceContent;
    o := file.Before(resources);
    created := folder.files["example.txt"];
    same := builder.FromResource(Some(u));
    contentUrl := file.contentUrl;
  }
}
