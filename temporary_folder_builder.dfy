/** The temporary folder builder of the rules package: it creates one folder
    and wraps every fixture it is asked for around that same folder. */
module RulesFolderBuilder {
  import opened TemporaryFiles
  import FileBuilder
  import RepositoryBuilders

  class TemporaryFolderBuilder {
    const temporaryFolder: TemporaryFolder

    constructor ()
      ensures fresh(temporaryFolder) && !temporaryFolder.created && temporaryFolder.files == map[]
    {
      temporaryFolder := new TemporaryFolder();
    }

    /** The folder created by the constructor, on every call. */
    function Build(): (f: TemporaryFolder)
      ensures f == temporaryFolder
    {
      temporaryFolder
    }

    method AroundStandaloneContentRepository() returns (b: RepositoryBuilders.StandaloneContentRepositoryBuilder)
      ensures fresh(b) && b.workingDirectory == Build() && b.configUrl.None?
    {
      b := new RepositoryBuilders.StandaloneContentRepositoryBuilder(Build());
    }

    method AroundInMemoryContentRepository() returns (b: RepositoryBuilders.InMemoryContentRepositoryBuilder)
      ensures fresh(b) && b.outer == Build()
    {
      b := new RepositoryBuilders.InMemoryContentRepositoryBuilder(Build());
    }

    method AroundTempFile(filename: string) returns (b: FileBuilder.TemporaryFileBuilder)
      ensures fresh(b) && fresh(b.temporaryFile)
      ensures b.temporaryFile.folder == Build() && b.temporaryFile.filename == filename
      ensures b.temporaryFile.contentUrl.None? && !b.temporaryFile.forceContent
    {
      b := new FileBuilder.TemporaryFileBuilder(Build(), filename);
    }
  }

  /** Every child builder is new, and all of them share the one folder that
      build() returns; asking for them leaves that folder as it was. */
  method ChildrenShareOneFolder(builder: TemporaryFolderBuilder, filename: string)
    returns (standalone: RepositoryBuilders.StandaloneContentRepositoryBuilder,
             inMemory: RepositoryBuilders.InMemoryContentRepositoryBuilder,
             tempFile: FileBuilder.TemporaryFileBuilder)
    ensures standalone.workingDirectory == inMemory.outer == tempFile.temporaryFile.folder == builder.Build()
    ensures tempFile.temporaryFile.filename == filename
  {
    standalone := builder.AroundStandaloneContentRepository();
    inMemory := builder.AroundInMemoryContentRepository();
    tempFile := builder.AroundTempFile(filename);
    var again := builder.AroundStandaloneContentRepository();
    assert again != standalone && again.workingDirectory == standalone.workingDirectory;
  }
}
