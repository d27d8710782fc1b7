/** The temporary folder builder of the all-in-one module: it creates one
    folder and wraps every fixture it is asked for around that same folder,
    a directory included. */
module ScribbleFolderBuilder {
  import opened TemporaryFiles
  import FileBuilder
  import RepositoryBuilders
  import Ldap

  class TemporaryFolderBuilder {
    const temporaryFolder: TemporaryFolder

    constructor ()
      ensures fresh(temporaryFolder) && !temporaryFolder.created && temporaryFolder.files == map[]
    {
      temporaryFolder := new TemporaryFolder();
    }

    method AroundStandaloneContentRepository() returns (b: RepositoryBuilders.StandaloneContentRepositoryBuilder)
      ensures fresh(b) && b.workingDirectory == Build() && b.configUrl.None?
    {
      b := new RepositoryBuilders.StandaloneContentRepositoryBuilder(Build());
    }

    /** The folder created by the constructor, on every call. */
    function Build(): (f: TemporaryFolder)
      ensures f == temporaryFolder
    {
      temporaryFolder
    }

    method AroundInMemoryContentRepository() returns (b: RepositoryBuilders.InMemoryContentRepositoryBuilder)
      ensures fresh(b) && b.outer == Build()
    {
      b := new RepositoryBuilders.InMemoryContentRepositoryBuilder(Build());
    }

    /** Passes the folder field itself rather than build(); the two are the
        same folder. */
    method AroundDirectory() returns (b: Ldap.DirectoryBuilder)
      ensures fresh(b) && b.folder == temporaryFolder && b.folder == Build()
    {
      b := new Ldap.DirectoryBuilder(temporaryFolder);
    }

    method AroundTempFile(filename: string) returns (b: FileBuilder.TemporaryFileBuilder)
      ensures fresh(b) && fresh(b.temporaryFile)
      ensures b.temporaryFile.folder == Build() && b.temporaryFile.filename == filename
      ensures b.temporaryFile.contentUrl.None? && !b.temporaryFile.forceContent
    {
      b := new FileBuilder.TemporaryFileBuilder(Build(), filename);
    }
  }

  /** Every child builder is new, and all of them share the one folder that
      build() returns. */
  method ChildrenShareOneFolder(builder: TemporaryFolderBuilder, filename: string)
    returns (standalone: RepositoryBuilders.StandaloneContentRepositoryBuilder,
             inMemory: RepositoryBuilders.InMemoryContentRepositoryBuilder,
             directory: Ldap.DirectoryBuilder,
             tempFile: FileBuilder.TemporaryFileBuilder)
    ensures standalone.workingDirectory == inMemory.outer == directory.folder
         == tempFile.temporaryFile.folder == builder.Build()
    ensures tempFile.temporaryFile.filename == filename
  {
    standalone := builder.AroundStandaloneContentRepository();
    inMemory := builder.AroundInMemoryContentRepository();
    directory := builder.AroundDirectory();
    tempFile := builder.AroundTempFile(filename);
    var again := builder.AroundDirectory();
    assert again != directory && again.folder == directory.folder;
  }
}
