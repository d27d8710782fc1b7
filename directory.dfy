/** The Directory rule: an embedded LDAP directory service that is set up in
    the temporary folder, started before the test body and shut down after
    it, whether the body passes or fails. The service is a recorder of the
    calls made on it; which calls throw is a parameter of the service. */
module Ldap {
  import opened Common
  import opened TemporaryFiles

  /** A partition handed to the service, known by its id. */
  datatype Partition = Partition(id: string)

  /** The calls the rule makes on its DirectoryService. */
  datatype ServiceCall =
    | DisableChangeLog
    | SetInstanceLayout(root: string)
    | SetCacheService
    | SetAccessControlEnabled(enabled: bool)
    | SetAllowAnonymousAccess(allowed: bool)
    | Startup
    | Shutdown
    | AddPartition(partition: Partition)

  /** What the service has been told so far. */
  datatype ServiceState = ServiceState(
    changeLogEnabled: bool,
    instanceLayout: Option<string>,
    cacheServiceSet: bool,
    accessControlEnabled: bool,
    allowAnonymousAccess: bool,
    started: bool,
    partitions: seq<Partition>)

  const INITIAL_SERVICE := ServiceState(true, None, false, false, false, false, [])

  /** The effect of a call the service accepts. */
  function Effect(s: ServiceState, c: ServiceCall): ServiceState
  {
    match c
    case DisableChangeLog => s.(changeLogEnabled := false)
    case SetInstanceLayout(root) => s.(instanceLayout := Some(root))
    case SetCacheService => s.(cacheServiceSet := true)
    case SetAccessControlEnabled(b) => s.(accessControlEnabled := b)
    case SetAllowAnonymousAccess(b) => s.(allowAnonymousAccess := b)
    case Startup => s.(started := true)
    case Shutdown => s.(started := false)
    case AddPartition(p) => s.(partitions := s.partitions + [p])
  }

  /** What the rule's trace records: a call made on the service, or the
      evaluation of the test body. */
  datatype Event = Called(call: ServiceCall) | BodyEvaluated(body: nat)

  /** A run so far: its events, whether it is still going, and the state of
      the service. */
  datatype Progress = Progress(events: seq<Event>, outcome: Outcome, state: ServiceState)

  /** One statement that calls the service: skipped once an exception is
      propagating, otherwise recorded, and throwing when the service rejects
      the call. */
  function Step(p: Progress, c: ServiceCall, rejects: set<ServiceCall>): (r: Progress)
    ensures p.outcome.Fail? ==> r == p
    ensures p.outcome.Pass? ==> r.events == p.events + [Called(c)]
    ensures p.outcome.Pass? ==> (r.outcome.Pass? <==> c !in rejects)
    ensures r.outcome.Fail? && p.outcome.Pass? ==> r.outcome == Fail(ServiceException) && r.state == p.state
    ensures r.outcome.Pass? ==> r.state == Effect(p.state, c)
  {
    if p.outcome.Fail? then p
    else if c in rejects then Progress(p.events + [Called(c)], Fail(ServiceException), p.state)
    else Progress(p.events + [Called(c)], Pass, Effect(p.state, c))
  }

  /** setupService: the change log is disabled first; the folder's root is
      read next (it throws when the folder has not been created); then the
      instance layout, the cache service and the two access flags are set. */
  function SetupRun(p: Progress, root: Result<string>, accessControl: bool, anonymousAccess: bool,
                    rejects: set<ServiceCall>): (r: Progress)
    requires p.outcome.Pass?
    ensures r.outcome.Pass? ==>
            root.Ok? && !r.state.changeLogEnabled && r.state.instanceLayout == Some(root.value) && r.state.cacheServiceSet
            && r.state.accessControlEnabled == accessControl && r.state.allowAnonymousAccess == anonymousAccess
    ensures DisableChangeLog !in rejects && root.Err? ==> r.outcome == Fail(root.error)
    // no partition is added and the service is neither started nor stopped
    ensures r.state.partitions == p.state.partitions && r.state.started == p.state.started
  {
    var p1 := Step(p, DisableChangeLog, rejects);
    if p1.outcome.Fail? then p1
    else if root.Err? then Progress(p1.events, Fail(root.error), p1.state)
    else
      var p2 := Step(p1, SetInstanceLayout(root.value), rejects);
      var p3 := Step(p2, SetCacheService, rejects);
      var p4 := Step(p3, SetAccessControlEnabled(accessControl), rejects);
      Step(p4, SetAllowAnonymousAccess(anonymousAccess), rejects)
  }

  /** The statement apply returns, evaluated: set up, start, then the body
      in a try block whose finally shuts the service down. An exception from
      the shutdown replaces the body's. */
  function Evaluation(p: Progress, root: Result<string>, accessControl: bool, anonymousAccess: bool,
                      rejects: set<ServiceCall>, base: Body): (r: Progress)
    requires p.outcome.Pass?
  {
    var setUp := SetupRun(p, root, accessControl, anonymousAccess, rejects);
    var started := Step(setUp, Startup, rejects);
    if started.outcome.Fail? then started
    else
      var down := Step(Progress(started.events + [BodyEvaluated(base.id)], Pass, started.state), Shutdown, rejects);
      if down.outcome.Fail? then down else down.(outcome := base.outcome)
  }

  /** The order the rule promises: set-up, start-up, the body, shutdown. */
  function Script(root: string, accessControl: bool, anonymousAccess: bool, base: nat): seq<Event>
  {
    [Called(DisableChangeLog), Called(SetInstanceLayout(root)), Called(SetCacheService),
     Called(SetAccessControlEnabled(accessControl)), Called(SetAllowAnonymousAccess(anonymousAccess)),
     Called(Startup), BodyEvaluated(base), Called(Shutdown)]
  }

  function RootName(root: Result<string>): string
  {
    if root.Ok? then root.value else ""
  }

  /** How far into the script a run gets: up to and including the first
      statement that throws, and to its end when set-up and start-up
      succeed, since the shutdown is in a finally block. */
  function Reached(root: Result<string>, accessControl: bool, anonymousAccess: bool,
                   rejects: set<ServiceCall>): (n: nat)
    ensures 1 <= n <= 8 && n != 7
  {
    if DisableChangeLog in rejects || root.Err? then 1
    else if SetInstanceLayout(root.value) in rejects then 2
    else if SetCacheService in rejects then 3
    else if SetAccessControlEnabled(accessControl) in rejects then 4
    else if SetAllowAnonymousAccess(anonymousAccess) in rejects then 5
    else if Startup in rejects then 6
    else 8
  }

  class DirectoryService {
    /** The calls this service throws on. */
    const rejects: set<ServiceCall>
    var state: ServiceState

    constructor (rejects: set<ServiceCall>)
      ensures this.rejects == rejects && state == INITIAL_SERVICE
    {
      this.rejects := rejects;
      state := INITIAL_SERVICE;
    }

    method Perform(c: ServiceCall) returns (o: Outcome)
      modifies this`state
      ensures o == if c in rejects then Fail(ServiceException) else Pass
      ensures state == if c in rejects then old(state) else Effect(old(state), c)
    {
      if c in rejects {
        return Fail(ServiceException);
      }
      state := Effect(state, c);
      o := Pass;
    }
  }

  class Directory {
    const service: DirectoryService
    const folder: TemporaryFolder
    var accessControlEnabled: bool
    var anonymousAccessEnabled: bool
    /** The calls this rule has made on its service, and the evaluations of
        test bodies, in order. */
    var trace: seq<Event>

    constructor (folder: TemporaryFolder, service: DirectoryService)
      ensures this.folder == folder && this.service == service
      ensures !accessControlEnabled && anonymousAccessEnabled && trace == []
    {
      this.folder := folder;
      this.service := service;
      accessControlEnabled := false;
      anonymousAccessEnabled := true;
      trace := [];
    }

    method Call(c: ServiceCall) returns (o: Outcome)
      modifies this`trace, service`state
      ensures Progress(trace, o, service.state) == Step(Progress(old(trace), Pass, old(service.state)), c, service.rejects)
    {
      o := service.Perform(c);
      trace := trace + [Called(c)];
    }

    method SetupService() returns (o: Outcome)
      modifies this`trace, service`state
      ensures Progress(trace, o, service.state)
           == SetupRun(Progress(old(trace), Pass, old(service.state)), folder.GetRoot(),
                       accessControlEnabled, anonymousAccessEnabled, service.rejects)
    {
      o := Call(DisableChangeLog);
      if o.Fail? {
        return;
      }
      var root := folder.GetRoot();
      if root.Err? {
        return Fail(root.error);
      }
      o := Call(SetInstanceLayout(root.value));
      if o.Fail? {
        return;
      }
      o := Call(SetCacheService);
      if o.Fail? {
        return;
      }
      o := Call(ServiceCall.SetAccessControlEnabled(accessControlEnabled));
      if o.Fail? {
        return;
      }
      o := Call(SetAllowAnonymousAccess(anonymousAccessEnabled));
    }

    method StartService() returns (o: Outcome)
      modifies this`trace, service`state
      ensures Progress(trace, o, service.state) == Step(Progress(old(trace), Pass, old(service.state)), Startup, service.rejects)
    {
      o := Call(Startup);
    }

    method TearDownService() returns (o: Outcome)
      modifies this`trace, service`state
      ensures Progress(trace, o, service.state) == Step(Progress(old(trace), Pass, old(service.state)), Shutdown, service.rejects)
    {
      o := Call(Shutdown);
    }

    /** Evaluates the statement apply(base, description) returns; the
        description plays no part in it. */
    method Evaluate(base: Body) returns (o: Outcome)
      modifies this`trace, service`state
      ensures Progress(trace, o, service.state)
           == Evaluation(Progress(old(trace), Pass, old(service.state)), folder.GetRoot(),
                         accessControlEnabled, anonymousAccessEnabled, service.rejects, base)
    {
      o := SetupService();
      if o.Fail? {
        return;
      }
      o := StartService();
      if o.Fail? {
        return;
      }
      trace := trace + [BodyEvaluated(base.id)];
      var down := TearDownService();
      o := if down.Fail? then down else base.outcome;
    }

    method AddPartition(partition: Partition) returns (o: Outcome)
      modifies this`trace, service`state
      ensures o.Pass? <==> ServiceCall.AddPartition(partition) !in service.rejects
      ensures service.state.partitions == old(service.state.partitions) + (if o.Pass? then [partition] else [])
      ensures trace == old(trace) + [Called(ServiceCall.AddPartition(partition))]
      ensures Progress(trace, o, service.state)
           == Step(Progress(old(trace), Pass, old(service.state)), ServiceCall.AddPartition(partition), service.rejects)
      // started, the flags, the layout and the cache service stay as they were
      ensures service.state == old(service.state).(partitions := service.state.partitions)
    {
      o := Call(ServiceCall.AddPartition(partition));
    }

    method SetAccessControlEnabled(accessControlEnabled: bool)
      modifies this`accessControlEnabled
      ensures this.accessControlEnabled == accessControlEnabled
    {
      this.accessControlEnabled := accessControlEnabled;
    }

    method SetAnonymousAccessEnabled(anonymousAccessEnabled: bool)
      modifies this`anonymousAccessEnabled
      ensures this.anonymousAccessEnabled == anonymousAccessEnabled
    {
      this.anonymousAccessEnabled := anonymousAccessEnabled;
    }
  }

  /** Stand-in for the directory builder: it keeps the folder the
      directory is built around. */
  class DirectoryBuilder {
    const folder: TemporaryFolder

    constructor (folder: TemporaryFolder)
      ensures this.folder == folder
    {
      this.folder := folder;
    }

    method AroundDirectoryServer() returns (b: DirectoryServerBuilder)
      ensures fresh(b) && b.directory == this
    {
      b := new DirectoryServerBuilder(this);
    }
  }

  /** Stand-in for the directory server builder: it keeps the directory
      builder it is built around. */
  class DirectoryServerBuilder {
    const directory: DirectoryBuilder

    constructor (directory: DirectoryBuilder)
      ensures this.directory == directory
    {
      this.directory := directory;
    }
  }

  /** A run records the script's events in order, up to where it stops:
      nothing runs after a failed set-up or start-up, and once the body has
      run the shutdown always follows it. */
  lemma EvaluationTrace(p: Progress, root: Result<string>, ac: bool, anon: bool,
                        rejects: set<ServiceCall>, base: Body)
    requires p.outcome.Pass?
    ensures Evaluation(p, root, ac, anon, rejects, base).events
         == p.events + Script(RootName(root), ac, anon, base.id)[..Reached(root, ac, anon, rejects)]
  {
    var script := Script(RootName(root), ac, anon, base.id);
    var n := Reached(root, ac, anon, rejects);
    var r := Evaluation(p, root, ac, anon, rejects, base);
    assert script[..1] == [Called(DisableChangeLog)];
    assert script[..2] == script[..1] + [script[1]];
    assert script[..3] == script[..2] + [script[2]];
    assert script[..4] == script[..3] + [script[3]];
    assert script[..5] == script[..4] + [script[4]];
    assert script[..6] == script[..5] + [script[5]];
    assert script[..8] == script[..6] + [script[6], script[7]];
  }

  /** A run passes exactly when set-up, start-up, the body and the shutdown
      all pass. A failure before the body is the run's failure; after the
      body, an exception from the shutdown replaces the body's outcome. */
  lemma EvaluationOutcome(p: Progress, root: Result<string>, ac: bool, anon: bool,
                          rejects: set<ServiceCall>, base: Body)
    requires p.outcome.Pass?
    ensures var r := Evaluation(p, root, ac, anon, rejects, base);
            r.outcome
            == if DisableChangeLog !in rejects && root.Err? then Fail(root.error)
               else if Reached(root, ac, anon, rejects) < 8 || Shutdown in rejects then Fail(ServiceException)
               else base.outcome
  {
  }

  /** The body is evaluated exactly when the run reaches it, and then the
      shutdown is the run's last event. */
  lemma {:induction false} TearDownAfterBody(p: Progress, root: Result<string>, ac: bool, anon: bool,
                                            rejects: set<ServiceCall>, base: Body)
    requires p.outcome.Pass?
    requires BodyEvaluated(base.id) !in p.events
    ensures var r := Evaluation(p, root, ac, anon, rejects, base);
            BodyEvaluated(base.id) in r.events <==> Reached(root, ac, anon, rejects) == 8
    ensures var r := Evaluation(p, root, ac, anon, rejects, base);
            BodyEvaluated(base.id) in r.events ==>
              r.events[|r.events| - 2] == BodyEvaluated(base.id) && r.events[|r.events| - 1] == Called(Shutdown)
  {
    EvaluationTrace(p, root, ac, anon, rejects, base);
    var script := Script(RootName(root), ac, anon, base.id);
    var n := Reached(root, ac, anon, rejects);
    var r := Evaluation(p, root, ac, anon, rejects, base);
    if n < 8 {
      assert forall i :: 0 <= i < n ==> script[..n][i].Called?;
      assert BodyEvaluated(base.id) !in script[..n];
    } else {
      assert script[..n] == script;
      assert r.events[|p.events| + 6] == BodyEvaluated(base.id);
    }
  }
}
