/** The static entry points: each starts a new builder chain, around a new
    temporary folder where the fixture needs one. */
module Scribble {
  import opened Common
  import Inject
  import RepositoryBuilders
  import Ldap
  import ScribbleFolderBuilder

  /** inject(value): an injection holding the value. */
  function InjectValue(value: Option<Inject.Value>): (i: Inject.Injection)
    ensures i.GetValue() == value
  {
    Inject.Injection(value)
  }

  method NewMockContentRepository() returns (b: RepositoryBuilders.MockContentRepositoryBuilder)
    ensures fresh(b) && b.outer == null
  {
    b := new RepositoryBuilders.MockContentRepositoryBuilder();
  }

  method NewJndiContentRepository() returns (b: RepositoryBuilders.JNDIContentRepositoryBuilder)
    ensures fresh(b) && b.outer == null
  {
    b := new RepositoryBuilders.JNDIContentRepositoryBuilder();
  }

  method NewTempFolder() returns (b: ScribbleFolderBuilder.TemporaryFolderBuilder)
    ensures fresh(b) && fresh(b.Build()) && !b.Build().created
  {
    b := new ScribbleFolderBuilder.TemporaryFolderBuilder();
  }

  method NewInMemoryContentRepository() returns (b: RepositoryBuilders.InMemoryContentRepositoryBuilder)
    ensures fresh(b) && fresh(b.outer) && !b.outer.created
  {
    var folder := NewTempFolder();
    b := folder.AroundInMemoryContentRepository();
  }

  method NewStandaloneContentRepository() returns (b: RepositoryBuilders.StandaloneContentRepositoryBuilder)
    ensures fresh(b) && fresh(b.workingDirectory) && !b.workingDirectory.created && b.configUrl.None?
  {
    var folder := NewTempFolder();
    b := folder.AroundStandaloneContentRepository();
  }

  method NewDirectory() returns (b: Ldap.DirectoryBuilder)
    ensures fresh(b) && fresh(b.folder) && !b.folder.created
  {
    var folder := NewTempFolder();
    b := folder.AroundDirectory();
  }

  method NewDirectoryServer() returns (b: Ldap.DirectoryServerBuilder)
    ensures fresh(b) && fresh(b.directory) && fresh(b.directory.folder) && !b.directory.folder.created
  {
    var folder := NewTempFolder();
    var directory := folder.AroundDirectory();
    b := directory.AroundDirectoryServer();
  }

  /** Two chains never share a folder: each factory call creates its own. */
  method ChainsAreIndependent()
    returns (first: ScribbleFolderBuilder.TemporaryFolderBuilder,
             second: ScribbleFolderBuilder.TemporaryFolderBuilder,
             repository: RepositoryBuilders.StandaloneContentRepositoryBuilder,
             directory: Ldap.DirectoryBuilder)
    ensures first != second && first.Build() != second.Build()
    ensures repository.workingDirectory != directory.folder
    ensures repository.workingDirectory != first.Build() && repository.workingDirectory != second.Build()
  {
    first := NewTempFolder();
    second := NewTempFolder();
    repository := NewStandaloneContentRepository();
    directory := NewDirectory();
  }
}
