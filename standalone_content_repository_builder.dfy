/** The builders for content repository rules. The standalone builder is
    modelled from its source; the repositories it builds and the other
    repository builders are stand-ins that keep only what the builders
    pass to them. */
module RepositoryBuilders {
  import opened Common
  import opened TemporaryFiles

  /** The configuration a standalone repository starts with, or the one a
      configuration URL names. */
  datatype Configuration = DefaultConfiguration | ConfigurationAt(url: Url)

  /** Stand-in for the standalone repository rule: its working directory is
      its outer rule. */
  class StandaloneContentRepository {
    const workingDirectory: TemporaryFolder
    var configuration: Configuration
    var cndUrl: Option<Url>

    constructor (workingDirectory: TemporaryFolder)
      ensures this.workingDirectory == workingDirectory
      ensures configuration == DefaultConfiguration && cndUrl.None?
    {
      this.workingDirectory := workingDirectory;
      configuration := DefaultConfiguration;
      cndUrl := None;
    }

    method SetConfigUrl(configUrl: Url)
      modifies this`configuration
      ensures configuration == ConfigurationAt(configUrl)
    {
      configuration := ConfigurationAt(configUrl);
    }

    method SetCndUrl(cndUrl: Option<Url>)
      modifies this`cndUrl
      ensures this.cndUrl == cndUrl
    {
      this.cndUrl := cndUrl;
    }
  }

  /** The configuration a repository built with `configUrl` ends up with. */
  function ConfigurationFor(configUrl: Option<Url>): (c: Configuration)
    ensures c == DefaultConfiguration <==> configUrl.None?
    ensures c.ConfigurationAt? ==> c.url == configUrl.value
  {
    if configUrl.Some? then ConfigurationAt(configUrl.value) else DefaultConfiguration
  }

  class StandaloneContentRepositoryBuilder {
    const workingDirectory: TemporaryFolder
    var configUrl: Option<Url>
    /** What the base builder's getCndModelResource returns. */
    const cndModelResource: Option<Url>

    constructor (workingDirectory: TemporaryFolder)
      ensures this.workingDirectory == workingDirectory
      ensures configUrl.None? && cndModelResource.None?
    {
      this.workingDirectory := workingDirectory;
      configUrl := None;
      cndModelResource := None;
    }

    method WithConfiguration(configUrl: Option<Url>) returns (b: StandaloneContentRepositoryBuilder)
      modifies this`configUrl
      ensures b == this && this.configUrl == configUrl
    {
      this.configUrl := configUrl;
      b := this;
    }

    /** The last configured URL, or null when none was configured. */
    function GetConfigUrl(): (u: Option<Url>)
      reads this
      ensures u == configUrl
    {
      configUrl
    }

    /** A new repository on every call, around the working directory,
        configured from the URL when there is one and with the CND model
        resource always passed on. */
    method Build() returns (r: StandaloneContentRepository)
      ensures fresh(r) && r.workingDirectory == workingDirectory
      ensures r.configuration == ConfigurationFor(configUrl) && r.cndUrl == cndModelResource
    {
      r := new StandaloneContentRepository(workingDirectory);
      if configUrl.Some? {
        r.SetConfigUrl(configUrl.value);
      }
      r.SetCndUrl(cndModelResource);
    }
  }

  /** Two builds give two distinct repositories that share one working
      directory, each configured as the builder is at the time. */
  method BuildTwice(builder: StandaloneContentRepositoryBuilder)
    returns (first: StandaloneContentRepository, second: StandaloneContentRepository)
    ensures first != second && first.workingDirectory == second.workingDirectory == builder.workingDirectory
    ensures first.configuration == second.configuration == ConfigurationFor(builder.configUrl)
  {
    first := builder.Build();
    second := builder.Build();
  }

  /** withConfiguration stores its argument, the last call wins, and a null
      URL leaves the default configuration in place. */
  method LastConfigurationWins(folder: TemporaryFolder, u1: Url, u2: Url)
    returns (defaulted: Configuration, configured: Configuration)
    ensures defaulted == DefaultConfiguration && configured == ConfigurationAt(u2)
  {
    var builder := new StandaloneContentRepositoryBuilder(folder);
    var same := builder.WithConfiguration(Some(u1));
    same := same.WithConfiguration(None);
    var r := builder.Build();
    defaulted := r.configuration;
    same := builder.WithConfiguration(Some(u1));
    same := same.WithConfiguration(Some(u2));
    assert builder.GetConfigUrl() == Some(u2);
    r := builder.Build();
    configured := r.configuration;
  }

  /** Stand-in for the in-memory repository builder: it keeps the folder
      it is built around. */
  class InMemoryContentRepositoryBuilder {
    const outer: TemporaryFolder

    constructor (outer: TemporaryFolder)
      ensures this.outer == outer
    {
      this.outer := outer;
    }
  }

  /** Stand-in for the mock repository builder: no outer rule. */
  class MockContentRepositoryBuilder {
    const outer: TemporaryFolder?

    constructor ()
      ensures outer == null
    {
      outer := null;
    }
  }

  /** Stand-in for the JNDI repository builder: no outer rule. */
  class JNDIContentRepositoryBuilder {
    const outer: TemporaryFolder?

    constructor ()
      ensures outer == null
    {
      outer := null;
    }
  }
}
