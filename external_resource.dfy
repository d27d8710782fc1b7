/** The lifecycle dispatch of the rule base class ExternalResource: given the
    runner's statement and description, a resource builds a statement that
    runs either its instance hooks (before/after) or its class hooks
    (beforeClass/afterClass) around the runner's statement, and hands that
    statement to its outer rule when it has one. */
module Rules {
  import opened Common

  /** What an evaluation does, in order: the hook calls of a resource,
      known by its id, the evaluation of the runner's statement, and the
      set-up and tear-down of an outer rule. */
  datatype Event =
    | BeforeCalled(resource: nat)
    | AfterCalled(resource: nat)
    | BeforeClassCalled(resource: nat)
    | AfterClassCalled(resource: nat)
    | BaseEvaluated(body: nat)
    | OuterEntered(rule: nat)
    | OuterLeft(rule: nat)

  /** An outer rule. Its apply wraps the statement it is given between its
      own set-up and tear-down. */
  datatype Rule = Rule(id: nat)

  /** A statement as the runner evaluates it. */
  datatype Statement =
    | Base(body: Body)
      /** The statement the resource `owner` builds around `inner`. */
    | Wrapped(inner: Statement, description: Description, owner: nat)
      /** The statement an outer rule's apply returned for `inner`. */
    | Applied(rule: Rule, inner: Statement, description: Description)

  /** How evaluating a statement ends and what it did. */
  datatype Run = Run(outcome: Outcome, events: seq<Event>)

  /** The runner's statement at the core of s. */
  function Innermost(s: Statement): Body
  {
    match s
    case Base(b) => b
    case Wrapped(inner, _, _) => Innermost(inner)
    case Applied(_, inner, _) => Innermost(inner)
  }

  /** The hook the resource `owner` runs first, chosen by the description
      alone. */
  function SetUpHook(d: Description, owner: nat): Event
  {
    if d.isSuite then BeforeClassCalled(owner) else BeforeCalled(owner)
  }

  /** The hook the resource `owner` runs last, chosen by the description
      alone. */
  function TearDownHook(d: Description, owner: nat): Event
  {
    if d.isSuite then AfterClassCalled(owner) else AfterCalled(owner)
  }

  /** What an outer rule's apply returns for the statement it is given. */
  function OuterApply(rule: Rule, s: Statement, d: Description): Statement
  {
    Applied(rule, s, d)
  }

  /** The meaning of evaluating a statement. The tear-down hook sits in a
      finally block, so it runs whether or not the inner statement threw;
      the hooks themselves do not throw, so the outcome is the body's. */
  function Evaluation(s: Statement): (r: Run)
    ensures r.outcome == Innermost(s).outcome
    ensures |r.events| > 0
  {
    match s
    case Base(b) => Run(b.outcome, [BaseEvaluated(b.id)])
    case Wrapped(inner, d, owner) =>
      var r := Evaluation(inner);
      Run(r.outcome, [SetUpHook(d, owner)] + r.events + [TearDownHook(d, owner)])
    case Applied(rule, inner, _) =>
      var r := Evaluation(inner);
      Run(r.outcome, [OuterEntered(rule.id)] + r.events + [OuterLeft(rule.id)])
  }

  /** Whether s contains a statement built by the resource `owner`. */
  predicate Wraps(s: Statement, owner: nat)
  {
    match s
    case Base(_) => false
    case Wrapped(inner, _, o) => o == owner || Wraps(inner, owner)
    case Applied(_, inner, _) => Wraps(inner, owner)
  }

  /** The resources whose statements occur in s. */
  function Owners(s: Statement): set<nat>
  {
    match s
    case Base(_) => {}
    case Wrapped(inner, _, o) => Owners(inner) + {o}
    case Applied(_, inner, _) => Owners(inner)
  }

  /** Number of statements of the resource `owner` in s applied in instance
      scope. */
  function InstanceScopes(s: Statement, owner: nat): nat
  {
    match s
    case Base(_) => 0
    case Wrapped(inner, d, o) => InstanceScopes(inner, owner) + (if !d.isSuite && o == owner then 1 else 0)
    case Applied(_, inner, _) => InstanceScopes(inner, owner)
  }

  /** Number of statements of the resource `owner` in s applied in suite
      scope. */
  function SuiteScopes(s: Statement, owner: nat): nat
  {
    match s
    case Base(_) => 0
    case Wrapped(inner, d, o) => SuiteScopes(inner, owner) + (if d.isSuite && o == owner then 1 else 0)
    case Applied(_, inner, _) => SuiteScopes(inner, owner)
  }

  /** Whether e is a hook call of the resource `owner`. */
  predicate HookOf(e: Event, owner: nat)
  {
    (e.BeforeCalled? || e.AfterCalled? || e.BeforeClassCalled? || e.AfterClassCalled?) && e.resource == owner
  }

  /** The hook calls of the resource `owner` in ev, in order. */
  function HooksOf(ev: seq<Event>, owner: nat): seq<Event>
  {
    if ev == [] then [] else (if HookOf(ev[0], owner) then [ev[0]] else []) + HooksOf(ev[1..], owner)
  }

  lemma {:induction false} HooksOfConcat(a: seq<Event>, b: seq<Event>, owner: nat)
    ensures HooksOf(a + b, owner) == HooksOf(a, owner) + HooksOf(b, owner)
  {
    if a == [] {
      assert a + b == b;
    } else {
      assert (a + b)[1..] == a[1..] + b;
      HooksOfConcat(a[1..], b, owner);
    }
  }

  lemma HooksOfBracket(open: Event, ev: seq<Event>, close: Event, owner: nat)
    ensures HooksOf([open] + ev + [close], owner)
         == (if HookOf(open, owner) then [open] else []) + HooksOf(ev, owner)
            + (if HookOf(close, owner) then [close] else [])
  {
    HooksOfConcat([open] + ev, [close], owner);
    HooksOfConcat([open], ev, owner);
    assert [open][1..] == [] && [close][1..] == [];
  }

  class ExternalResource {
    /** The identity of this resource object. */
    const id: nat
    const outer: Option<Rule>
    var initialized: bool
    /** The calls of this resource's hooks, in order. */
    var trace: seq<Event>

    constructor (id: nat, outer: Option<Rule>)
      ensures this.id == id && this.outer == outer
      ensures !initialized && trace == []
    {
      this.id := id;
      this.outer := outer;
      initialized := false;
      trace := [];
    }

    /** The statement the resource gives the runner: its own statement, or,
        with an outer rule, exactly what the outer rule's apply returns for
        its own statement. */
    function Apply(base: Statement, description: Description): (s: Statement)
      ensures outer.None? ==> s == Wrapped(base, description, id)
      ensures outer.Some? ==> s == OuterApply(outer.value, Wrapped(base, description, id), description)
    {
      var own := Wrapped(base, description, id);
      if outer.Some? then OuterApply(outer.value, own, description) else own
    }

    method Before()
      modifies this`trace
      ensures trace == old(trace) + [BeforeCalled(id)]
    {
      trace := trace + [BeforeCalled(id)];
    }

    method After()
      modifies this`trace
      ensures trace == old(trace) + [AfterCalled(id)]
    {
      trace := trace + [AfterCalled(id)];
    }

    method BeforeClass()
      modifies this`trace
      ensures trace == old(trace) + [BeforeClassCalled(id)]
    {
      trace := trace + [BeforeClassCalled(id)];
    }

    method AfterClass()
      modifies this`trace
      ensures trace == old(trace) + [AfterClassCalled(id)]
    {
      trace := trace + [AfterClassCalled(id)];
    }
  }

  /** The resource objects a run may involve, no two with the same id,
      including one for every resource statement of s. */
  predicate Registry(resources: set<ExternalResource>, s: Statement)
  {
    (forall x, y :: x in resources && y in resources && x.id == y.id ==> x == y)
    && Owners(s) <= Ids(resources)
  }

  /** The ids of the given resources. */
  function Ids(resources: set<ExternalResource>): set<nat>
  {
    set x | x in resources :: x.id
  }

  /** Evaluates a statement: a resource's statement marks that resource
      initialised and calls its hooks around the inner statement, an outer
      rule's statement encloses the inner one in the rule's set-up and
      tear-down, and the runner's statement is evaluated. `events` is the
      whole run in order; each resource records its own hook calls. */
  method Evaluate(s: Statement, resources: set<ExternalResource>) returns (o: Outcome, events: seq<Event>)
    requires Registry(resources, s)
    modifies resources
    ensures o == Evaluation(s).outcome && events == Evaluation(s).events
    ensures forall x :: x in resources ==>
              x.trace == old(x.trace) + HooksOf(events, x.id)
              && x.initialized == (old(x.initialized) || Wraps(s, x.id))
    decreases s, 1
  {
    match s
    case Base(b) =>
      o, events := b.outcome, [BaseEvaluated(b.id)];
      forall x | x in resources
        ensures HooksOf(events, x.id) == []
      {
        assert events[1..] == [];
      }
    case Wrapped(inner, d, owner) =>
      o, events := EvaluateWrapped(inner, d, owner, resources);
    case Applied(rule, inner, _) =>
      var ev;
      o, ev := Evaluate(inner, resources);
      events := [OuterEntered(rule.id)] + ev + [OuterLeft(rule.id)];
      forall x | x in resources
        ensures HooksOf(events, x.id) == HooksOf(ev, x.id)
      {
        HooksOfBracket(OuterEntered(rule.id), ev, OuterLeft(rule.id), x.id);
      }
  }

  /** The statement a resource builds, evaluated: its set-up hook for the
      scope, the inner statement, and its tear-down hook in a finally
      block. */
  method EvaluateWrapped(inner: Statement, d: Description, owner: nat, resources: set<ExternalResource>)
    returns (o: Outcome, events: seq<Event>)
    requires Registry(resources, Wrapped(inner, d, owner))
    modifies resources
    ensures o == Evaluation(Wrapped(inner, d, owner)).outcome && events == Evaluation(Wrapped(inner, d, owner)).events
    ensures forall x :: x in resources ==>
              x.trace == old(x.trace) + HooksOf(events, x.id)
              && x.initialized == (old(x.initialized) || Wraps(Wrapped(inner, d, owner), x.id))
    decreases Wrapped(inner, d, owner), 0
  {
    assert owner in Ids(resources);
    var r :| r in resources && r.id == owner;
    if d.isSuite {
      r.BeforeClass();
    } else {
      r.Before();
    }
    r.initialized := true;
    label SetUp:
    var ev;
    o, ev := Evaluate(inner, resources);
    label Inner:
    if d.isSuite {
      r.AfterClass();
    } else {
      r.After();
    }
    events := [SetUpHook(d, owner)] + ev + [TearDownHook(d, owner)];
    forall x | x in resources
      ensures x.trace == old(x.trace) + HooksOf(events, x.id)
      ensures x.initialized == (old(x.initialized) || Wraps(Wrapped(inner, d, owner), x.id))
    {
      HooksOfBracket(SetUpHook(d, owner), ev, TearDownHook(d, owner), x.id);
      var open, close := SetUpHook(d, owner), TearDownHook(d, owner);
      if x == r {
        assert HookOf(open, x.id) && HookOf(close, x.id);
        assert old@SetUp(x.trace) == old(x.trace) + [open];
        assert x.trace == old(x.trace) + [open] + HooksOf(ev, x.id) + [close];
      } else {
        assert x.id != owner && !HookOf(open, x.id) && !HookOf(close, x.id);
        assert old@SetUp(x.trace) == old(x.trace) && old@SetUp(x.initialized) == old(x.initialized);
      }
    }
  }

  /** In instance scope a resource without an outer rule runs before, the
      body and after, once each, and no class hook. */
  lemma InstanceRuleHooks(r: ExternalResource, b: Body, d: Description)
    requires r.outer.None? && !d.isSuite
    ensures Evaluation(r.Apply(Base(b), d)).events == [BeforeCalled(r.id), BaseEvaluated(b.id), AfterCalled(r.id)]
    ensures Wraps(r.Apply(Base(b), d), r.id)
  {
  }

  /** In suite scope a resource without an outer rule runs beforeClass, the
      body and afterClass, once each, and no instance hook. */
  lemma ClassRuleHooks(r: ExternalResource, b: Body, d: Description)
    requires r.outer.None? && d.isSuite
    ensures Evaluation(r.Apply(Base(b), d)).events
         == [BeforeClassCalled(r.id), BaseEvaluated(b.id), AfterClassCalled(r.id)]
    ensures Wraps(r.Apply(Base(b), d), r.id)
  {
  }

  /** With an outer rule, the statement handed to the outer rule runs this
      resource's hooks for the scope of d around the body, and the outer
      rule's set-up and tear-down enclose them. */
  lemma OuterRuleNesting(r: ExternalResource, b: Body, d: Description)
    requires r.outer.Some?
    ensures r.Apply(Base(b), d).Applied?
    ensures r.Apply(Base(b), d).inner == Wrapped(Base(b), d, r.id)
    ensures Evaluation(r.Apply(Base(b), d).inner).events
         == [SetUpHook(d, r.id), BaseEvaluated(b.id), TearDownHook(d, r.id)]
    ensures Evaluation(r.Apply(Base(b), d)).events
         == [OuterEntered(r.outer.value.id), SetUpHook(d, r.id), BaseEvaluated(b.id),
             TearDownHook(d, r.id), OuterLeft(r.outer.value.id)]
  {
  }

  /** The hooks run depend on the description's suite flag and on nothing
      else in it, in both directions. */
  lemma ScopeChosenByIsSuite(inner: Statement, d1: Description, d2: Description, owner: nat)
    ensures Evaluation(Wrapped(inner, d1, owner)) == Evaluation(Wrapped(inner, d2, owner)) <==> d1.isSuite == d2.isSuite
  {
    if d1.isSuite != d2.isSuite {
      assert Evaluation(Wrapped(inner, d1, owner)).events[0] != Evaluation(Wrapped(inner, d2, owner)).events[0];
    }
  }

  /** Each statement of a resource in a chain runs exactly one pair of that
      resource's hooks: instance hooks for the instance-scoped ones, class
      hooks for the suite-scoped ones, never both; and the runner's
      statement runs once. */
  lemma {:induction false} HookCounts(s: Statement, owner: nat)
    ensures Count(BeforeCalled(owner), Evaluation(s).events) == InstanceScopes(s, owner)
    ensures Count(AfterCalled(owner), Evaluation(s).events) == InstanceScopes(s, owner)
    ensures Count(BeforeClassCalled(owner), Evaluation(s).events) == SuiteScopes(s, owner)
    ensures Count(AfterClassCalled(owner), Evaluation(s).events) == SuiteScopes(s, owner)
    ensures Count(BaseEvaluated(Innermost(s).id), Evaluation(s).events) == 1
  {
    match s
    case Base(b) =>
      CountSingle(BaseEvaluated(b.id), BaseEvaluated(b.id));
      CountSingle(BeforeCalled(owner), BaseEvaluated(b.id));
      CountSingle(AfterCalled(owner), BaseEvaluated(b.id));
      CountSingle(BeforeClassCalled(owner), BaseEvaluated(b.id));
      CountSingle(AfterClassCalled(owner), BaseEvaluated(b.id));
    case Wrapped(inner, d, o) =>
      HookCounts(inner, owner);
      var open, close := SetUpHook(d, o), TearDownHook(d, o);
      CountBracket(BeforeCalled(owner), open, Evaluation(inner).events, close);
      CountBracket(AfterCalled(owner), open, Evaluation(inner).events, close);
      CountBracket(BeforeClassCalled(owner), open, Evaluation(inner).events, close);
      CountBracket(AfterClassCalled(owner), open, Evaluation(inner).events, close);
      CountBracket(BaseEvaluated(Innermost(s).id), open, Evaluation(inner).events, close);
    case Applied(rule, inner, _) =>
      HookCounts(inner, owner);
      var open, close := OuterEntered(rule.id), OuterLeft(rule.id);
      CountBracket(BeforeCalled(owner), open, Evaluation(inner).events, close);
      CountBracket(AfterCalled(owner), open, Evaluation(inner).events, close);
      CountBracket(BeforeClassCalled(owner), open, Evaluation(inner).events, close);
      CountBracket(AfterClassCalled(owner), open, Evaluation(inner).events, close);
      CountBracket(BaseEvaluated(Innermost(s).id), open, Evaluation(inner).events, close);
  }

  lemma CountSingle(e: Event, x: Event)
    ensures Count(e, [x]) == if x == e then 1 else 0
  {
    assert [x][1..] == [];
  }

  lemma CountBracket(e: Event, open: Event, ev: seq<Event>, close: Event)
    ensures Count(e, [open] + ev + [close])
         == (if open == e then 1 else 0) + Count(e, ev) + (if close == e then 1 else 0)
  {
    CountConcat(e, [open] + ev, [close]);
    CountConcat(e, [open], ev);
    CountSingle(e, open);
    CountSingle(e, close);
  }

  predicate IsSetUp(e: Event)
  {
    e.BeforeCalled? || e.BeforeClassCalled? || e.OuterEntered?
  }

  predicate IsTearDown(e: Event)
  {
    e.AfterCalled? || e.AfterClassCalled? || e.OuterLeft?
  }

  /** The tear-down that releases what a set-up acquired: the same
      resource's or the same rule's. */
  function Partner(e: Event): Event
  {
    match e
    case BeforeCalled(owner) => AfterCalled(owner)
    case BeforeClassCalled(owner) => AfterClassCalled(owner)
    case OuterEntered(id) => OuterLeft(id)
    case _ => e
  }

  function SetUps(ev: seq<Event>): seq<Event>
  {
    if ev == [] then [] else (if IsSetUp(ev[0]) then [ev[0]] else []) + SetUps(ev[1..])
  }

  function TearDowns(ev: seq<Event>): seq<Event>
  {
    if ev == [] then [] else (if IsTearDown(ev[0]) then [ev[0]] else []) + TearDowns(ev[1..])
  }

  /** The partners of ev, last first. */
  function Mirror(ev: seq<Event>): seq<Event>
  {
    if ev == [] then [] else Mirror(ev[1..]) + [Partner(ev[0])]
  }

  lemma {:induction false} SetUpsConcat(a: seq<Event>, b: seq<Event>)
    ensures SetUps(a + b) == SetUps(a) + SetUps(b)
    ensures TearDowns(a + b) == TearDowns(a) + TearDowns(b)
  {
    if a != [] {
      assert (a + b)[1..] == a[1..] + b;
      SetUpsConcat(a[1..], b);
    } else {
      assert a + b == b;
    }
  }

  lemma {:induction false} MirrorConcat(a: seq<Event>, b: seq<Event>)
    ensures Mirror(a + b) == Mirror(b) + Mirror(a)
  {
    if a == [] {
      assert a + b == b;
    } else {
      assert (a + b)[1..] == a[1..] + b;
      MirrorConcat(a[1..], b);
    }
  }

  /** Nesting is strictly last-in first-out: the tear-downs of a chain run
      in exactly the reverse order of its set-ups, each the tear-down of the
      same resource or rule as its set-up, whatever the body's outcome. */
  lemma {:induction false} TearDownsMirrorSetUps(s: Statement)
    ensures TearDowns(Evaluation(s).events) == Mirror(SetUps(Evaluation(s).events))
  {
    match s
    case Base(b) =>
      assert SetUps([BaseEvaluated(b.id)]) == [];
      assert TearDowns([BaseEvaluated(b.id)]) == [];
    case Wrapped(inner, d, owner) =>
      TearDownsMirrorSetUps(inner);
      Bracketed(SetUpHook(d, owner), Evaluation(inner).events, TearDownHook(d, owner));
    case Applied(rule, inner, _) =>
      TearDownsMirrorSetUps(inner);
      Bracketed(OuterEntered(rule.id), Evaluation(inner).events, OuterLeft(rule.id));
  }

  /** Enclosing a well-nested trace between a set-up and its partner keeps
      it well nested. */
  lemma Bracketed(open: Event, ev: seq<Event>, close: Event)
    requires IsSetUp(open) && close == Partner(open)
    requires TearDowns(ev) == Mirror(SetUps(ev))
    ensures TearDowns([open] + ev + [close]) == Mirror(SetUps([open] + ev + [close]))
  {
    SetUpsConcat([open] + ev, [close]);
    SetUpsConcat([open], ev);
    assert [close][1..] == [] && [open][1..] == [];
    assert SetUps([close]) == [] && TearDowns([close]) == [close];
    assert SetUps([open]) == [open] && TearDowns([open]) == [];
    MirrorConcat([open], SetUps(ev));
    assert Mirror([open]) == Mirror([]) + [close];
    calc {
      TearDowns([open] + ev + [close]);
      TearDowns(ev) + [close];
      Mirror(SetUps(ev)) + Mirror([open]);
      Mirror([open] + SetUps(ev));
      { var a := [open] + SetUps(ev);
        assert a + [] == a;
        assert SetUps([open] + ev + [close]) == a + []; }
      Mirror(SetUps([open] + ev + [close]));
    }
  }

  /** A new resource with id 1, applied to the runner's statement b and
      evaluated as the runner does: the statement itself, or, with an outer
      rule, the statement the resource handed to the outer rule. */
  method RunFresh(outer: Option<Rule>, b: Body, d: Description)
    returns (run: seq<Event>, hooks: seq<Event>, initialized: bool)
    ensures run == [SetUpHook(d, 1), BaseEvaluated(b.id), TearDownHook(d, 1)]
    ensures hooks == [SetUpHook(d, 1), TearDownHook(d, 1)]
    ensures initialized
  {
    var r := new ExternalResource(1, outer);
    var stmt := r.Apply(Base(b), d);
    if outer.Some? {
      stmt := stmt.inner;
    }
    assert stmt == Wrapped(Base(b), d, 1);
    assert Ids({r}) == {1};
    var o;
    o, run := Evaluate(stmt, {r});
    assert r in {r};
    HooksOfBase(b.id, 1);
    HooksOfBracket(SetUpHook(d, 1), [BaseEvaluated(b.id)], TearDownHook(d, 1), 1);
    hooks, initialized := r.trace, r.initialized;
  }

  /** The four scenarios of the resource's tests, run against the class:
      the run each evaluation makes, the hook calls the resource records,
      and whether every resource reports itself initialised afterwards. */
  method ApplyScenarios(b: Body)
    returns (instanceRun: seq<Event>, instanceHooks: seq<Event>,
             suiteRun: seq<Event>, suiteHooks: seq<Event>,
             outerSuiteRun: seq<Event>, outerInstanceRun: seq<Event>, allInitialized: bool)
    ensures instanceRun == outerInstanceRun == [BeforeCalled(1), BaseEvaluated(b.id), AfterCalled(1)]
    ensures instanceHooks == [BeforeCalled(1), AfterCalled(1)]
    ensures suiteRun == outerSuiteRun == [BeforeClassCalled(1), BaseEvaluated(b.id), AfterClassCalled(1)]
    ensures suiteHooks == [BeforeClassCalled(1), AfterClassCalled(1)]
    ensures allInitialized
  {
    var instance := Description("test", false);
    var suite := Description("suite", true);
    var hooks, i1, i2, i3, i4;
    instanceRun, instanceHooks, i1 := RunFresh(None, b, instance);
    suiteRun, suiteHooks, i2 := RunFresh(None, b, suite);
    outerSuiteRun, hooks, i3 := RunFresh(Some(Rule(7)), b, suite);
    outerInstanceRun, hooks, i4 := RunFresh(Some(Rule(7)), b, instance);
    allInitialized := i1 && i2 && i3 && i4;
  }

  lemma IdsOfPair(x: ExternalResource, y: ExternalResource)
    ensures Ids({x, y}) == {x.id, y.id}
  {
    assert x in {x, y} && y in {x, y};
  }

  lemma HooksOfBase(id: nat, owner: nat)
    ensures HooksOf([BaseEvaluated(id)], owner) == []
  {
    assert [BaseEvaluated(id)][1..] == [];
  }

  /** Two resources nested in one chain: each calls its own hooks, the
      inner resource's inside the outer's, and both end initialised. */
  method NestedResources(b: Body)
    returns (run: seq<Event>, outerHooks: seq<Event>, innerHooks: seq<Event>, bothInitialized: bool)
    ensures run == [BeforeCalled(1), BeforeCalled(2), BaseEvaluated(b.id), AfterCalled(2), AfterCalled(1)]
    ensures outerHooks == [BeforeCalled(1), AfterCalled(1)] && innerHooks == [BeforeCalled(2), AfterCalled(2)]
    ensures bothInitialized
  {
    var d := Description("test", false);
    var outer := new ExternalResource(1, None);
    var inner := new ExternalResource(2, None);
    var stmt := outer.Apply(inner.Apply(Base(b), d), d);
    assert stmt == Wrapped(Wrapped(Base(b), d, 2), d, 1);
    assert Owners(Base(b)) == {} && Owners(stmt.inner) == {2};
    IdsOfPair(outer, inner);
    var o;
    NestedRun(b, d);
    o, run := Evaluate(stmt, {outer, inner});
    assert outer in {outer, inner} && inner in {outer, inner};
    assert Wraps(stmt, 1) && Wraps(stmt.inner, 2);
    outerHooks, innerHooks := outer.trace, inner.trace;
    bothInitialized := outer.initialized && inner.initialized;
  }

  lemma NestedRun(b: Body, d: Description)
    requires !d.isSuite
    ensures var run := [BeforeCalled(1), BeforeCalled(2), BaseEvaluated(b.id), AfterCalled(2), AfterCalled(1)];
            Evaluation(Wrapped(Wrapped(Base(b), d, 2), d, 1)).events == run
            && HooksOf(run, 1) == [BeforeCalled(1), AfterCalled(1)]
            && HooksOf(run, 2) == [BeforeCalled(2), AfterCalled(2)]
  {
    var middle := [BeforeCalled(2), BaseEvaluated(b.id), AfterCalled(2)];
    assert Evaluation(Wrapped(Base(b), d, 2)).events == middle;
    HooksOfBase(b.id, 1);
    HooksOfBase(b.id, 2);
    HooksOfBracket(BeforeCalled(2), [BaseEvaluated(b.id)], AfterCalled(2), 1);
    HooksOfBracket(BeforeCalled(2), [BaseEvaluated(b.id)], AfterCalled(2), 2);
    HooksOfBracket(BeforeCalled(1), middle, AfterCalled(1), 1);
    HooksOfBracket(BeforeCalled(1), middle, AfterCalled(1), 2);
    assert [BeforeCalled(1)] + middle + [AfterCalled(1)]
        == [BeforeCalled(1), BeforeCalled(2), BaseEvaluated(b.id), AfterCalled(2), AfterCalled(1)];
  }

  /** Evaluating one resource's statement calls that resource's hooks and
      initialises it, and leaves every other resource of the chain as it
      was. */
  method ForeignStatement(b: Body)
    returns (run: seq<Event>, ownerInitialized: bool, otherUntouched: bool)
    ensures run == [BeforeCalled(2), BaseEvaluated(b.id), AfterCalled(2)]
    ensures ownerInitialized && otherUntouched
  {
    var d := Description("test", false);
    var other := new ExternalResource(1, None);
    var owner := new ExternalResource(2, None);
    var stmt := owner.Apply(Base(b), d);
    assert stmt == Wrapped(Base(b), d, 2);
    IdsOfPair(other, owner);
    var o;
    o, run := Evaluate(stmt, {other, owner});
    assert other in {other, owner} && owner in {other, owner};
    assert run == [BeforeCalled(2), BaseEvaluated(b.id), AfterCalled(2)];
    HooksOfBase(b.id, 1);
    HooksOfBracket(BeforeCalled(2), [BaseEvaluated(b.id)], AfterCalled(2), 1);
    assert HooksOf(run, 1) == [];
    assert !Wraps(stmt, 1);
    ownerInitialized := owner.initialized;
    otherUntouched := !other.initialized && other.trace == [];
  }
}
