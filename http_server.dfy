/** The HttpServer rule: before the test it registers its zip resources as
    prefix paths of a path handler, builds a server for its host and port
    around that handler and starts it; after the test it stops the server.
    The server and the handler are recorders of what they are told. */
module Http {
  import opened Common

  /** A value in the rule's resource map: a temporary zip file (known by the
      URI of its file), a URL, or any other object. */
  datatype Resource = TemporaryZipFile(uri: string) | UrlResource(url: Url) | OtherResource

  function EndsWith(s: string, suffix: string): bool
  {
    |suffix| <= |s| && s[|s| - |suffix|..] == suffix
  }

  /** addResource: the URI of the zip archive to serve under the entry's
      path, nothing when the entry is skipped, or the NullPointerException a
      URL without a path causes. */
  function AddResource(resource: Resource): (r: Result<Option<string>>)
    ensures r.Err? <==> resource.UrlResource? && resource.url.path.None?
    ensures r.Err? ==> r.error == NullPointerException
    ensures r.Ok? && r.value.Some? <==>
            resource.TemporaryZipFile?
            || (resource.UrlResource? && resource.url.path.Some? && EndsWith(resource.url.path.value, ".zip"))
    ensures r.Ok? && r.value.Some? ==>
            r.value.value == if resource.TemporaryZipFile? then resource.uri else resource.url.spec
  {
    match resource
    case TemporaryZipFile(uri) => Ok(Some(uri))
    case UrlResource(url) =>
      if url.path.None? then Err(NullPointerException)
      else if EndsWith(url.path.value, ".zip") then Ok(Some(url.spec))
      else Ok(None)
    case OtherResource => Ok(None)
  }

  /** The prefix paths registered for the entries under `keys`. */
  function SelectedAmong(resources: map<string, Resource>, keys: set<string>): (m: map<string, string>)
    ensures m.Keys <= keys
  {
    map k | k in keys && k in resources && AddResource(resources[k]).Ok? && AddResource(resources[k]).value.Some?
      :: AddResource(resources[k]).value.value
  }

  /** Registering one more entry adds at most its own path. */
  lemma SelectedAmongGrows(resources: map<string, Resource>, keys: set<string>, path: string)
    requires path in resources && AddResource(resources[path]).Ok?
    ensures var added := AddResource(resources[path]).value;
            SelectedAmong(resources, keys + {path})
            == if added.Some? then SelectedAmong(resources, keys)[path := added.value] else SelectedAmong(resources, keys)
  {
  }

  /** Whether some entry makes addResource throw. */
  predicate HasPathlessUrl(resources: map<string, Resource>)
  {
    exists k :: k in resources && AddResource(resources[k]).Err?
  }

  /** Undertow's PathHandler, reduced to its prefix paths and the zip
      archive each one serves. */
  class PathHandler {
    var prefixPaths: map<string, string>

    constructor ()
      ensures prefixPaths == map[]
    {
      prefixPaths := map[];
    }

    method AddPrefixPath(path: string, zipUri: string)
      modifies this
      ensures prefixPaths == old(prefixPaths)[path := zipUri]
    {
      prefixPaths := prefixPaths[path := zipUri];
    }
  }

  /** An Undertow server with one HTTP listener. */
  class Undertow {
    const port: int
    const hostname: Option<string>
    const handler: PathHandler
    var running: bool

    constructor (port: int, hostname: Option<string>, handler: PathHandler)
      ensures this.port == port && this.hostname == hostname && this.handler == handler && !running
    {
      this.port := port;
      this.hostname := hostname;
      this.handler := handler;
      running := false;
    }

    method Start()
      modifies this`running
      ensures running
    {
      running := true;
    }

    method Stop()
      modifies this`running
      ensures !running
    {
      running := false;
    }
  }

  const DEFAULT_HOSTNAME := "localhost"

  class HttpServer {
    /** The host name, None when null was given. */
    const hostname: Option<string>
    const port: int
    const resources: map<string, Resource>
    var server: Undertow?

    /** The no-argument constructor; `availablePort` is the port the network
        utilities report as free. */
    constructor Default(availablePort: int)
      ensures hostname == Some(DEFAULT_HOSTNAME) && port == availablePort && resources == map[] && server == null
    {
      hostname := Some(DEFAULT_HOSTNAME);
      port := availablePort;
      resources := map[];
      server := null;
    }

    constructor WithAddress(hostname: Option<string>, port: int)
      ensures this.hostname == hostname && this.port == port && resources == map[] && server == null
    {
      this.hostname := hostname;
      this.port := port;
      resources := map[];
      server := null;
    }

    constructor (hostname: Option<string>, port: int, resources: map<string, Resource>)
      ensures this.hostname == hostname && this.port == port && this.resources == resources && server == null
    {
      this.hostname := hostname;
      this.port := port;
      this.resources := resources;
      server := null;
    }

    /** Registers every entry, in the map's iteration order, then builds the
        server with the configured port and host and starts it. */
    method Before() returns (o: Outcome)
      modifies this`server
      ensures o.Fail? <==> HasPathlessUrl(resources)
      ensures o.Fail? ==> o.error == NullPointerException && server == old(server)
      ensures o.Pass? ==>
                server != null && fresh(server) && fresh(server.handler) && server.running
                && server.port == port && server.hostname == hostname
                && server.handler.prefixPaths == SelectedAmong(resources, resources.Keys)
    {
      var pathHandler := new PathHandler();
      var todo := resources.Keys;
      ghost var done: set<string> := {};
      while todo != {}
        invariant todo + done == resources.Keys && todo !! done
        invariant fresh(pathHandler) && server == old(server)
        invariant pathHandler.prefixPaths == SelectedAmong(resources, done)
        invariant forall k :: k in done ==> AddResource(resources[k]).Ok?
        decreases |todo|
      {
        var path :| path in todo;
        var added := AddResource(resources[path]);
        if added.Err? {
          return Fail(added.error);
        }
        SelectedAmongGrows(resources, done, path);
        if added.value.Some? {
          pathHandler.AddPrefixPath(path, added.value.value);
        }
        todo := todo - {path};
        done := done + {path};
      }
      var s := new Undertow(port, hostname, pathHandler);
      s.Start();
      server := s;
      o := Pass;
    }

    method After() returns (o: Outcome)
      modifies server
      ensures server == old(server)
      ensures server == null ==> o == Fail(NullPointerException)
      ensures server != null ==> o == Pass && !server.running
    {
      if server == null {
        return Fail(NullPointerException);
      }
      server.Stop();
      o := Pass;
    }

    method BeforeClass() returns (o: Outcome)
      modifies this`server
      ensures o.Fail? <==> HasPathlessUrl(resources)
      ensures o.Fail? ==> o.error == NullPointerException && server == old(server)
      ensures o.Pass? ==>
                server != null && fresh(server) && fresh(server.handler) && server.running
                && server.port == port && server.hostname == hostname
                && server.handler.prefixPaths == SelectedAmong(resources, resources.Keys)
    {
      o := Before();
    }

    method AfterClass() returns (o: Outcome)
      modifies server
      ensures server == old(server)
      ensures server == null ==> o == Fail(NullPointerException)
      ensures server != null ==> o == Pass && !server.running
    {
      o := After();
    }

    function GetBaseUrl(): (r: Result<string>)
      reads this
      ensures r == BaseUrl(hostname, port)
    {
      BaseUrl(hostname, port)
    }
  }

  /** The registration rule: an entry gets a prefix path exactly when it is
      a temporary zip file, or a URL whose path ends with ".zip"; it serves
      that file or URL. Other URLs and other objects are skipped. */
  lemma SelectionRule(resources: map<string, Resource>, path: string)
    ensures path in SelectedAmong(resources, resources.Keys) <==>
              path in resources
              && (resources[path].TemporaryZipFile?
                  || (resources[path].UrlResource? && resources[path].url.path.Some?
                      && EndsWith(resources[path].url.path.value, ".zip")))
    ensures path in resources && resources[path].TemporaryZipFile? ==>
              SelectedAmong(resources, resources.Keys)[path] == resources[path].uri
    ensures path in resources && resources[path].UrlResource? && path in SelectedAmong(resources, resources.Keys) ==>
              SelectedAmong(resources, resources.Keys)[path] == resources[path].url.spec
  {
  }

  /** A URL whose path is "/archive.zip" is served, one whose path is
      "/index.html" is not, a URL without a path stops the set-up, and an
      empty map starts a server with no paths. */
  lemma SelectionExamples(zip: Url, html: Url, pathless: Url)
    requires zip.path == Some("/archive.zip") && html.path == Some("/index.html") && pathless.path.None?
    ensures SelectedAmong(map["/a" := UrlResource(zip), "/b" := UrlResource(html)], {"/a", "/b"}) == map["/a" := zip.spec]
    ensures HasPathlessUrl(map["/c" := UrlResource(pathless)])
    ensures !HasPathlessUrl(map[]) && SelectedAmong(map[], {}) == map[]
  {
    var m := map["/a" := UrlResource(zip), "/b" := UrlResource(html)];
    assert EndsWith("/archive.zip", ".zip");
    assert !EndsWith("/index.html", ".zip");
    assert AddResource(m["/b"]) == Ok(None);
    var c := map["/c" := UrlResource(pathless)];
    assert "/c" in c && AddResource(c["/c"]).Err?;
  }

  /** The decimal digits of a port number. */
  function DigitsOf(n: nat): (s: string)
    ensures |s| >= 1 && forall i :: 0 <= i < |s| ==> '0' <= s[i] <= '9'
    decreases n
  {
    if n < 10 then [(n as char + '0' as char) as char]
    else DigitsOf(n / 10) + DigitsOf(n % 10)
  }

  /** The number a string of decimal digits denotes. */
  function ValueOf(s: string): nat
    requires forall i :: 0 <= i < |s| ==> '0' <= s[i] <= '9'
    decreases |s|
  {
    if s == [] then 0
    else 10 * ValueOf(s[..|s| - 1]) + (s[|s| - 1] as int - '0' as int)
  }

  /** The port written into a URL reads back as the same number. */
  lemma {:induction false} ValueOfDigits(n: nat)
    ensures ValueOf(DigitsOf(n)) == n
    decreases n
  {
    if n >= 10 {
      var s := DigitsOf(n);
      var high := DigitsOf(n / 10);
      var low := DigitsOf(n % 10);
      assert s == high + low && |low| == 1;
      assert s[..|s| - 1] == high;
      ValueOfDigits(n / 10);
    }
  }

  /** Whether new URL("http", host, port, "/") has a non-empty authority:
      the host, followed by ":" and the port unless the port is -1. A null
      host gives no authority at all. */
  predicate HasAuthority(hostname: Option<string>, port: int)
  {
    hostname.Some? && (hostname.value != "" || port != -1)
  }

  /** new URL("http", host, port, "/") in its external form. A non-null
      host containing ':' and not already bracketed is an IPv6 literal and
      gets brackets; port -1 is left out of the authority; a port below -1
      is malformed when a host is given, which getBaseUrl turns into an
      AssertionError; and "//" is written only before a non-empty
      authority. */
  function BaseUrl(hostname: Option<string>, port: int): (r: Result<string>)
    ensures r.Err? <==> hostname.Some? && port < -1
    ensures r.Err? ==> r.error == AssertionError("Invalid base URL")
    ensures r.Ok? ==> |r.value| >= 6 && r.value[..5] == "http:" && r.value[|r.value| - 1] == '/'
    ensures r.Ok? ==> (HasAuthority(hostname, port) <==> |r.value| > 8 && r.value[..7] == "http://")
    ensures r.Ok? && !HasAuthority(hostname, port) ==> r.value == "http:/"
  {
    if hostname.None? then Ok("http:/")
    else if port < -1 then Err(AssertionError("Invalid base URL"))
    else
      var h := hostname.value;
      var host := if ':' in h && !(|h| > 0 && h[0] == '[') then "[" + h + "]" else h;
      var authority := if port == -1 then host else host + ":" + DigitsOf(port);
      if authority == "" then Ok("http:/") else Ok("http://" + authority + "/")
  }

  /** Base URLs of edge-case addresses: an IPv6 host is bracketed, port -1
      drops the port, an empty host with port -1 leaves no authority, and a
      null host ignores even a malformed port. */
  lemma BaseUrlExamples()
    ensures BaseUrl(Some("::1"), 80) == Ok("http://[::1]:80/")
    ensures BaseUrl(Some("localhost"), -1) == Ok("http://localhost/")
    ensures BaseUrl(Some(""), -1) == Ok("http:/")
    ensures BaseUrl(None, -5) == Ok("http:/")
    ensures BaseUrl(Some("localhost"), -2).Err?
  {
    assert DigitsOf(80) == DigitsOf(8) + DigitsOf(0) == "80";
    var ipv6 := "::1";
    assert ipv6[0] == ':' && ipv6[0] != '[' && ':' in ipv6;
    assert "[" + ipv6 + "]" + ":" + "80" == "[::1]:80";
    assert "http://" + "[::1]:80" + "/" == "http://[::1]:80/";
    var local := "localhost";
    assert forall i :: 0 <= i < |local| ==> local[i] != ':';
    assert ':' !in local;
    assert "http://" + local + "/" == "http://localhost/";
  }

  /** For a host name without ':' and a real port, the base URL is
      http://hostname:port/, and the host and the port can be read back
      from it. */
  lemma {:induction false} BaseUrlRoundTrip(hostname: string, port: nat)
    requires ':' !in hostname
    ensures BaseUrl(Some(hostname), port).Ok?
    ensures var u := BaseUrl(Some(hostname), port).value;
            u == "http://" + hostname + ":" + DigitsOf(port) + "/"
            && u[7..7 + |hostname|] == hostname && u[7 + |hostname|] == ':'
            && ValueOf(u[8 + |hostname|..|u| - 1]) == port
  {
    var u := BaseUrl(Some(hostname), port).value;
    assert u == "http://" + hostname + ":" + DigitsOf(port) + "/";
    assert u[8 + |hostname|..|u| - 1] == DigitsOf(port);
    ValueOfDigits(port);
  }
}
