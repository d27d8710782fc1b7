/** The TemporaryFile rule: a file with a fixed name, created in a temporary
    folder before the test and filled from a content URL when one is set. */
module TemporaryFiles {
  import opened Common

  /** A handle to a file in a folder. */
  datatype FileRef = FileRef(folder: string, name: string)

  /** What URL.openStream yields for each URL that can be opened. */
  type Resources = map<Url, seq<int>>

  const FOLDER_NOT_CREATED := "the temporary folder has not yet been created"
  const CONTENT_URL_NOT_SET := "ContentUrl is not set"

  function FileExists(name: string): string
  {
    "a file with the name '" + name + "' already exists in the test folder"
  }

  /** JUnit's TemporaryFolder, reduced to what the fixtures use of it: its
      root once it has been created, and the content of the files in it. */
  class TemporaryFolder {
    var created: bool
    var root: string
    var files: map<string, seq<int>>

    constructor ()
      ensures !created && files == map[]
    {
      created := false;
      root := "";
      files := map[];
    }

    /** The folder's own set-up: a new, empty directory at `dir`. */
    method Create(dir: string)
      modifies this
      ensures created && root == dir && files == map[]
    {
      created := true;
      root := dir;
      files := map[];
    }

    function GetRoot(): (r: Result<string>)
      reads this
      ensures r.Ok? <==> created
      ensures r.Ok? ==> r.value == root
      ensures r.Err? ==> r.error == IllegalStateException(FOLDER_NOT_CREATED)
    {
      if created then Ok(root) else Err(IllegalStateException(FOLDER_NOT_CREATED))
    }

    /** Creates an empty file; refuses a name already taken. */
    method NewFile(name: string) returns (r: Result<FileRef>)
      modifies this`files
      ensures r == NewFileResult(old(created), root, old(files), name)
      ensures files == if r.Ok? then old(files)[name := []] else old(files)
    {
      if !created {
        return Err(IllegalStateException(FOLDER_NOT_CREATED));
      }
      if name in files {
        return Err(IOException(FileExists(name)));
      }
      files := files[name := []];
      r := Ok(FileRef(root, name));
    }

    /** Appends one byte to an existing file. */
    method Append(name: string, b: int)
      requires name in files
      modifies this`files
      ensures files == old(files)[name := old(files)[name] + [b]]
    {
      files := files[name := files[name] + [b]];
    }
  }

  function NewFileResult(created: bool, root: string, files: map<string, seq<int>>, name: string): Result<FileRef>
  {
    if !created then Err(IllegalStateException(FOLDER_NOT_CREATED))
    else if name in files then Err(IOException(FileExists(name)))
    else Ok(FileRef(root, name))
  }

  /** The content a successfully created file ends up with. */
  function ContentOf(contentUrl: Option<Url>, resources: Resources): seq<int>
    requires contentUrl.Some? ==> contentUrl.value in resources
  {
    if contentUrl.Some? then resources[contentUrl.value] else []
  }

  /** What createTempFile returns and the folder's files afterwards. */
  datatype Creation = Creation(result: Result<FileRef>, files: map<string, seq<int>>)

  /** The meaning of createTempFile: the file is first created empty, then
      the content check runs, then the content is copied from the URL. */
  function CreateTempFileSpec(created: bool, root: string, files: map<string, seq<int>>, filename: string,
                              contentUrl: Option<Url>, forceContent: bool, resources: Resources): (c: Creation)
    // success exactly when the folder exists, the name is free, the content
    // check passes and the content URL, if any, can be opened
    ensures c.result.Ok? <==>
            created && filename !in files && !(forceContent && contentUrl.None?)
            && (contentUrl.Some? ==> contentUrl.value in resources)
    ensures c.result.Ok? ==>
            c.result.value == FileRef(root, filename) && filename in c.files
            && c.files[filename] == ContentOf(contentUrl, resources)
    // forcing content without a URL fails, after the empty file was created
    ensures created && filename !in files && forceContent && contentUrl.None? ==>
            c.result == Err(AssertionError(CONTENT_URL_NOT_SET)) && filename in c.files && c.files[filename] == []
    // no content URL and no forced content: the file is left empty
    ensures created && filename !in files && !forceContent && contentUrl.None? ==>
            c.result.Ok? && c.files[filename] == []
    // the file exists as soon as it could be created, whatever happens next
    ensures created && filename !in files ==> filename in c.files
    // nothing else in the folder changes
    ensures c.files.Keys <= files.Keys + {filename}
    ensures forall n :: n in files ==> n in c.files && c.files[n] == files[n]
  {
    var f := NewFileResult(created, root, files, filename);
    if f.Err? then Creation(f, files)
    else
      var empty := files[filename := []];
      if forceContent && contentUrl.None? then Creation(Err(AssertionError(CONTENT_URL_NOT_SET)), empty)
      else if contentUrl.Some? then
        if contentUrl.value !in resources then Creation(Err(ResourceNotFound(contentUrl.value.spec)), empty)
        else Creation(f, files[filename := resources[contentUrl.value]])
      else Creation(f, empty)
  }

  class TemporaryFile {
    var contentUrl: Option<Url>
    /** The folder the file is created in; it is also the rule's outer rule. */
    const folder: TemporaryFolder
    const filename: string
    var file: Option<FileRef>
    var forceContent: bool

    /** No member assigns `file`: it keeps its initial null. */
    ghost predicate Valid()
      reads this
    {
      file.None?
    }

    constructor (folder: TemporaryFolder, filename: string)
      ensures this.folder == folder && this.filename == filename
      ensures contentUrl.None? && !forceContent && Valid()
    {
      this.folder := folder;
      this.filename := filename;
      contentUrl := None;
      file := None;
      forceContent := false;
    }

    /** Creates the file, then copies the content of the URL into it. */
    method CreateTempFile(resources: Resources) returns (r: Result<FileRef>)
      modifies folder`files
      ensures Creation(r, folder.files)
           == CreateTempFileSpec(folder.created, folder.root, old(folder.files), filename,
                                 contentUrl, forceContent, resources)
    {
      r := folder.NewFile(filename);
      if r.Err? {
        return;
      }
      if forceContent && contentUrl.None? {
        return Err(AssertionError(CONTENT_URL_NOT_SET));
      } else if contentUrl.Some? {
        if contentUrl.value !in resources {
          return Err(ResourceNotFound(contentUrl.value.spec));
        }
        var content := resources[contentUrl.value];
        var i := 0;
        while i < |content|
          invariant 0 <= i <= |content|
          invariant folder.files == old(folder.files)[filename := content[..i]]
        {
          folder.Append(filename, content[i]);
          assert content[..i + 1] == content[..i] + [content[i]];
          i := i + 1;
        }
        assert content[..|content|] == content;
      }
    }

    /** Creates the file and discards the handle createTempFile returns. */
    method Before(resources: Resources) returns (o: Outcome)
      modifies folder`files
      ensures var c := CreateTempFileSpec(folder.created, folder.root, old(folder.files), filename,
                                          contentUrl, forceContent, resources);
              o == OutcomeOf(c.result) && folder.files == c.files
    {
      var created := CreateTempFile(resources);
      o := OutcomeOf(created);
    }

    /** Deletes the file through the `file` field, which is null. */
    method After() returns (o: Outcome)
      requires Valid()
      ensures o == Fail(NullPointerException)
    {
      o := Fail(NullPointerException);
    }

    method BeforeClass(resources: Resources) returns (o: Outcome)
      modifies folder`files
      ensures var c := CreateTempFileSpec(folder.created, folder.root, old(folder.files), filename,
                                          contentUrl, forceContent, resources);
              o == OutcomeOf(c.result) && folder.files == c.files
    {
      o := Before(resources);
    }

    method AfterClass() returns (o: Outcome)
      requires Valid()
      ensures o == Fail(NullPointerException)
    {
      o := After();
    }

    /** The file handle; null, since nothing assigns it. */
    function GetFile(): (f: Option<FileRef>)
      reads this
      requires Valid()
      ensures f.None?
    {
      file
    }

    method SetContentUrl(contentUrl: Option<Url>)
      modifies this`contentUrl
      ensures this.contentUrl == contentUrl
    {
      this.contentUrl := contentUrl;
    }

    method SetForceContent(forceContent: bool)
      modifies this`forceContent
      ensures this.forceContent == forceContent
    {
      this.forceContent := forceContent;
    }
  }

  /** Setters store their argument, the last write wins, and neither the
      file handle nor the folder is touched. */
  method SettersScenario(folder: TemporaryFolder, u1: Url, u2: Url)
    returns (contentUrl: Option<Url>, forceContent: bool, file: Option<FileRef>)
    ensures contentUrl == Some(u2) && !forceContent && file.None?
  {
    var f := new TemporaryFile(folder, "example.txt");
    f.SetContentUrl(Some(u1));
    f.SetContentUrl(Some(u2));
    f.SetForceContent(true);
    f.SetForceContent(false);
    contentUrl, forceContent, file := f.contentUrl, f.forceContent, f.GetFile();
  }
}
