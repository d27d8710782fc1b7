/** The content repository that is looked up in a JNDI naming context. Its
    setters are guarded by the rule's lifecycle state, the context is a
    required setting, and both settings are checked only when the
    repository is created. */
module Jcr {
  import opened Common
  import TemporaryFiles

  /** A repository found in a naming context. */
  datatype Repository = Repository(id: nat)

  /** A JNDI naming context, reduced to its bindings and to what its lookup
      does with a null name: the Context interface leaves that to the
      implementation (the JDK's InitialContext throws a
      NullPointerException), so each context carries its own answer. */
  datatype Context = Context(bindings: map<string, Repository>, onNullName: Result<Repository>)

  /** Context.lookup: the object bound under a name, or a naming error for an
      unbound name; a null name gets the context's own answer. */
  function Lookup(c: Context, name: Option<string>): (r: Result<Repository>)
    ensures name.Some? ==> (r.Ok? <==> name.value in c.bindings)
    ensures name.Some? && r.Ok? ==> r.value == c.bindings[name.value]
    ensures name.Some? && r.Err? ==> r.error == NameNotFound(name.value)
    ensures name.None? ==> r == c.onNullName
  {
    match name
    case None => c.onNullName
    case Some(n) => if n in c.bindings then Ok(c.bindings[n]) else Err(NameNotFound(n))
  }

  const DEFAULT_LOOKUP_NAME := "java:/jcr/local"
  const NO_CONTEXT := "No Context set"
  const NO_LOOKUP_NAME := "No lookup name set"

  datatype RequirementLevel = Required | Optional

  /** The settings annotated as rule set-up. */
  datatype Setting = ContextSetting | LookupNameSetting

  /** The requirement level each setter is annotated with. */
  function Requirement(s: Setting): (level: RequirementLevel)
    ensures level == Required <==> s == ContextSetting
  {
    match s
    case ContextSetting => Required
    case LookupNameSetting => Optional
  }

  /** The rule's lifecycle state, abstracted to the one comparison the
      setters make: whether it is still before CREATED. */
  datatype Phase = BeforeCreated | CreatedOrLater

  /** What createRepository does with the two settings: the context is
      checked first, then the lookup name, and only then is the repository
      looked up. */
  function CreateRepositoryFrom(context: Option<Context>, lookupName: Option<string>): (r: Result<Repository>)
    ensures context.None? ==> r == Err(AssertionError(NO_CONTEXT))
    ensures context.Some? && lookupName.None? ==> r == Err(AssertionError(NO_LOOKUP_NAME))
    ensures r.Ok? <==> context.Some? && lookupName.Some? && lookupName.value in context.value.bindings
    ensures r.Ok? ==> r.value == context.value.bindings[lookupName.value]
  {
    if context.None? then Err(AssertionError(NO_CONTEXT))
    else if lookupName.None? then Err(AssertionError(NO_LOOKUP_NAME))
    else Lookup(context.value, lookupName)
  }

  class JNDIContentRepository {
    /** The outer rule: none. */
    const outer: TemporaryFiles.TemporaryFolder?
    var phase: Phase
    var lookupName: Option<string>
    var context: Option<Context>

    constructor ()
      ensures outer == null && phase == BeforeCreated
      ensures lookupName == Some(DEFAULT_LOOKUP_NAME) && context.None?
    {
      outer := null;
      phase := BeforeCreated;
      lookupName := Some(DEFAULT_LOOKUP_NAME);
      context := None;
    }

    method SetContext(context: Option<Context>) returns (o: Outcome)
      modifies this`context
      ensures o.Pass? <==> phase == BeforeCreated
      ensures o.Fail? ==> o.error == IllegalLifecycleState
      ensures this.context == if o.Pass? then context else old(this.context)
    {
      if phase != BeforeCreated {
        return Fail(IllegalLifecycleState);
      }
      this.context := context;
      o := Pass;
    }

    method SetLookupName(lookupName: Option<string>) returns (o: Outcome)
      modifies this`lookupName
      ensures o.Pass? <==> phase == BeforeCreated
      ensures o.Fail? ==> o.error == IllegalLifecycleState
      ensures this.lookupName == if o.Pass? then lookupName else old(this.lookupName)
    {
      if phase != BeforeCreated {
        return Fail(IllegalLifecycleState);
      }
      this.lookupName := lookupName;
      o := Pass;
    }

    method CreateRepository() returns (r: Result<Repository>)
      ensures r == CreateRepositoryFrom(context, lookupName)
    {
      if context.None? {
        return Err(AssertionError(NO_CONTEXT));
      }
      if lookupName.None? {
        return Err(AssertionError(NO_LOOKUP_NAME));
      }
      r := Lookup(context.value, lookupName);
    }

    /** Releases nothing and changes nothing. */
    method DestroyRepository()
      ensures unchanged(this)
    {
    }

    /** The base class's transition to CREATED (not part of this model
        beyond the fact that it happens). */
    method MarkCreated()
      modifies this`phase
      ensures phase == CreatedOrLater
    {
      phase := CreatedOrLater;
    }
  }

  /** The required context is not checked by its setter: leaving it out is
      reported by createRepository, and setting the two settings in either
      order before creation gives the same repository; after creation the
      setters refuse. */
  method ConfigurationScenario(c: Context, name: string)
    returns (missing: Result<Repository>, inOneOrder: Result<Repository>, inOtherOrder: Result<Repository>,
             refused: Outcome, kept: Option<Context>)
    ensures missing == Err(AssertionError(NO_CONTEXT))
    ensures inOneOrder == inOtherOrder == Lookup(c, Some(name))
    ensures refused == Fail(IllegalLifecycleState) && kept == Some(c)
  {
    var r1 := new JNDIContentRepository();
    missing := r1.CreateRepository();

    var o := r1.SetContext(Some(c));
    o := r1.SetLookupName(Some(name));
    var r2 := new JNDIContentRepository();
    o := r2.SetLookupName(Some(name));
    o := r2.SetContext(Some(c));
    inOneOrder := r1.CreateRepository();
    inOtherOrder := r2.CreateRepository();

    r1.MarkCreated();
    refused := r1.SetContext(None);
    kept := r1.context;
  }
}
