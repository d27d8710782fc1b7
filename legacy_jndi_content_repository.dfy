/** The older JNDI content repository: its setters refuse once the rule is
    initialised, both settings are optional, and createRepository looks the
    repository up without checking either setting. */
module LegacyJcr {
  import opened Common
  import TemporaryFiles
  import Jcr

  /** What createRepository does: calls lookup on the context, which is a
      NullPointerException when no context was set. */
  function LookupIn(context: Option<Jcr.Context>, lookupName: Option<string>): (r: Result<Jcr.Repository>)
    ensures context.None? ==> r == Err(NullPointerException)
    ensures context.Some? ==> r == Jcr.Lookup(context.value, lookupName)
  {
    if context.None? then Err(NullPointerException) else Jcr.Lookup(context.value, lookupName)
  }

  /** The requirement level each setter is annotated with: both optional. */
  function Requirement(s: Jcr.Setting): (level: Jcr.RequirementLevel)
    ensures level == Jcr.Optional
  {
    Jcr.Optional
  }

  class JNDIContentRepository {
    /** The outer rule: none. */
    const outer: TemporaryFiles.TemporaryFolder?
    var initialized: bool
    var lookupName: Option<string>
    var context: Option<Jcr.Context>

    constructor ()
      ensures outer == null && !initialized
      ensures lookupName == Some(Jcr.DEFAULT_LOOKUP_NAME) && context.None?
    {
      outer := null;
      initialized := false;
      lookupName := Some(Jcr.DEFAULT_LOOKUP_NAME);
      context := None;
    }

    method SetContext(context: Option<Jcr.Context>) returns (o: Outcome)
      modifies this`context
      ensures o.Pass? <==> !initialized
      ensures o.Fail? ==> o.error == IllegalLifecycleState
      ensures this.context == if o.Pass? then context else old(this.context)
    {
      if initialized {
        return Fail(IllegalLifecycleState);
      }
      this.context := context;
      o := Pass;
    }

    method SetLookupName(lookupName: Option<string>) returns (o: Outcome)
      modifies this`lookupName
      ensures o.Pass? <==> !initialized
      ensures o.Fail? ==> o.error == IllegalLifecycleState
      ensures this.lookupName == if o.Pass? then lookupName else old(this.lookupName)
    {
      if initialized {
        return Fail(IllegalLifecycleState);
      }
      this.lookupName := lookupName;
      o := Pass;
    }

    method CreateRepository() returns (r: Result<Jcr.Repository>)
      ensures r == LookupIn(context, lookupName)
    {
      if context.None? {
        return Err(NullPointerException);
      }
      r := Jcr.Lookup(context.value, lookupName);
    }

    /** Releases nothing and changes nothing. */
    method DestroyRepository()
      ensures unchanged(this)
    {
    }

    /** The base class's initialisation (not part of this model beyond the
        fact that it happens). */
    method MarkInitialized()
      modifies this`initialized
      ensures initialized
    {
      initialized := true;
    }
  }

  /** Once both settings are present the two variants create the same
      repository; without a context the newer one reports "No Context set"
      where the older one dereferences null; and the older one passes a null
      lookup name on to the context where the newer one reports it. */
  lemma VariantsCompared(c: Jcr.Context, name: Option<string>)
    ensures name.Some? ==> LookupIn(Some(c), name) == Jcr.CreateRepositoryFrom(Some(c), name)
    ensures LookupIn(None, name) == Err(NullPointerException)
         && Jcr.CreateRepositoryFrom(None, name) == Err(AssertionError(Jcr.NO_CONTEXT))
    ensures name.None? ==>
              (LookupIn(Some(c), name) == c.onNullName
               && Jcr.CreateRepositoryFrom(Some(c), name) == Err(AssertionError(Jcr.NO_LOOKUP_NAME)))
  {
  }
}
