/** Injection of a value into the fields of a target object. The target is
    an array of typed slots in declaration order; `into` writes the first
    slot whose type accepts the value, `intoAll` writes every such slot, and
    a null value is accepted by every slot. */
module Inject {
  import opened Common

  /** A Java class: its name and the names of all its supertypes. */
  datatype JavaType = JavaType(name: string, supertypes: set<string>)

  /** Whether a value of type `t` can be assigned to a field declared with
      the type named `declared`. */
  predicate AssignableTo(t: JavaType, declared: string)
  {
    declared == t.name || declared in t.supertypes
  }

  /** A non-null value: its runtime type and what it holds. */
  datatype Value = Value(runtimeType: JavaType, content: string)

  /** A field of the target: its declared type and its value (null when
      absent). */
  datatype Slot = Slot(declaredType: string, value: Option<Value>)

  datatype Injection = Injection(value: Option<Value>)
  {
    /** The value given to the constructor. */
    function GetValue(): (v: Option<Value>)
      ensures v == value
    {
      value
    }

    /** A null value matches any field; otherwise the field's declared type
        must accept the value's runtime type. */
    predicate IsMatching(field: Slot): (matches: bool)
      ensures value.None? ==> matches
      ensures value.Some? ==>
                (matches <==> field.declaredType == value.value.runtimeType.name
                              || field.declaredType in value.value.runtimeType.supertypes)
    {
      value.None? || AssignableTo(value.value.runtimeType, field.declaredType)
    }
  }

  /** The index of the first slot the injection matches, if any. */
  function FirstMatching(slots: seq<Slot>, injection: Injection): (r: Option<nat>)
    ensures r.Some? ==> r.value < |slots| && injection.IsMatching(slots[r.value])
    ensures r.Some? ==> forall j :: 0 <= j < r.value ==> !injection.IsMatching(slots[j])
    ensures r.None? ==> forall j :: 0 <= j < |slots| ==> !injection.IsMatching(slots[j])
  {
    if slots == [] then None
    else if injection.IsMatching(slots[0]) then Some(0)
    else
      var rest := FirstMatching(slots[1..], injection);
      if rest.Some? then Some(rest.value + 1) else None
  }

  /** The slots after `into`: the first matching slot takes the value. */
  function InjectedFirst(slots: seq<Slot>, injection: Injection): (r: seq<Slot>)
    ensures |r| == |slots|
  {
    var first := FirstMatching(slots, injection);
    if first.Some? then slots[first.value := slots[first.value].(value := injection.value)] else slots
  }

  /** The slots after `intoAll`: every matching slot takes the value. */
  function InjectedAll(slots: seq<Slot>, injection: Injection): (r: seq<Slot>)
    ensures |r| == |slots|
  {
    seq(|slots|, i requires 0 <= i < |slots| =>
      if injection.IsMatching(slots[i]) then slots[i].(value := injection.value) else slots[i])
  }

  /** into: scans the fields in declaration order and injects into the
      first that matches. */
  method Into(injection: Injection, target: array<Slot>)
    modifies target
    ensures target[..] == InjectedFirst(old(target[..]), injection)
  {
    var i := 0;
    while i < target.Length && !injection.IsMatching(target[i])
      invariant 0 <= i <= target.Length
      invariant forall j :: 0 <= j < i ==> !injection.IsMatching(target[j])
    {
      i := i + 1;
    }
    MatchAt(target[..], injection, i);
    if i < target.Length {
      target[i] := target[i].(value := injection.value);
    }
  }

  /** The scan in `into` stops where FirstMatching says. */
  lemma {:induction false} MatchAt(slots: seq<Slot>, injection: Injection, i: nat)
    requires i <= |slots|
    requires forall j :: 0 <= j < i ==> !injection.IsMatching(slots[j])
    requires i < |slots| ==> injection.IsMatching(slots[i])
    ensures FirstMatching(slots, injection) == if i < |slots| then Some(i) else None
    decreases i
  {
    if slots != [] && i > 0 {
      MatchAt(slots[1..], injection, i - 1);
    }
  }

  /** intoAll: injects into every field that matches. */
  method IntoAll(injection: Injection, target: array<Slot>)
    modifies target
    ensures target[..] == InjectedAll(old(target[..]), injection)
  {
    for i := 0 to target.Length
      invariant forall j :: 0 <= j < i ==> target[j] == InjectedAll(old(target[..]), injection)[j]
      invariant forall j :: i <= j < target.Length ==> target[j] == old(target[j])
    {
      if injection.IsMatching(target[i]) {
        target[i] := target[i].(value := injection.value);
      }
    }
  }

  /** `into` gives the value to the first matching field only: every other
      field keeps its value, and nothing changes when no field matches. */
  lemma IntoWritesFirstMatchOnly(slots: seq<Slot>, injection: Injection)
    ensures var r := InjectedFirst(slots, injection);
            forall i :: 0 <= i < |slots| ==>
              r[i].declaredType == slots[i].declaredType
              && r[i].value == if injection.IsMatching(slots[i]) && (forall j :: 0 <= j < i ==> !injection.IsMatching(slots[j]))
                               then injection.value else slots[i].value
  {
  }

  /** `intoAll` gives the value to exactly the matching fields and leaves
      the others as they were. */
  lemma IntoAllWritesEveryMatch(slots: seq<Slot>, injection: Injection)
    ensures var r := InjectedAll(slots, injection);
            forall i :: 0 <= i < |slots| ==>
              r[i].declaredType == slots[i].declaredType
              && r[i].value == if injection.IsMatching(slots[i]) then injection.value else slots[i].value
  {
  }

  /** `into` and `intoAll` agree when at most one field matches. */
  lemma {:induction false} IntoIsIntoAllOnSingleMatch(slots: seq<Slot>, injection: Injection)
    requires forall i, j :: 0 <= i < j < |slots| && injection.IsMatching(slots[i]) ==> !injection.IsMatching(slots[j])
    ensures InjectedFirst(slots, injection) == InjectedAll(slots, injection)
  {
    var first := FirstMatching(slots, injection);
    var a := InjectedFirst(slots, injection);
    var b := InjectedAll(slots, injection);
    forall i | 0 <= i < |slots|
      ensures a[i] == b[i]
    {
      if first.Some? && i > first.value {
        assert !injection.IsMatching(slots[i]);
      }
    }
  }

  /** A null value leaves fields that hold null as they are, so `into`
      changes nothing on a target whose fields are all null. */
  lemma NullIntoNullFields(slots: seq<Slot>)
    requires forall i :: 0 <= i < |slots| ==> slots[i].value.None?
    ensures InjectedFirst(slots, Injection(None)) == slots
    ensures InjectedAll(slots, Injection(None)) == slots
  {
  }

  const STRING := JavaType("java.lang.String", {"java.lang.Object", "java.lang.CharSequence"})
  const INTEGER := "java.lang.Integer"

  /** The target with two String fields and one Integer field, all null. */
  const SIMPLE_TARGET := [Slot("java.lang.String", None), Slot("java.lang.String", None), Slot(INTEGER, None)]

  /** The outcomes the injection tests expect, for the value "testValue". */
  lemma SimpleTargetOutcomes()
    ensures var v := Some(Value(STRING, "testValue"));
            InjectedAll(SIMPLE_TARGET, Injection(v))
            == [Slot("java.lang.String", v), Slot("java.lang.String", v), Slot(INTEGER, None)]
    ensures var v := Some(Value(STRING, "testValue"));
            InjectedFirst(SIMPLE_TARGET, Injection(v))
            == [Slot("java.lang.String", v), Slot("java.lang.String", None), Slot(INTEGER, None)]
    ensures InjectedFirst(SIMPLE_TARGET, Injection(None)) == SIMPLE_TARGET
    ensures Injection(None).IsMatching(SIMPLE_TARGET[2])
    ensures Injection(Some(Value(STRING, "testValue"))).IsMatching(SIMPLE_TARGET[0])
    ensures !Injection(Some(Value(STRING, "testValue"))).IsMatching(SIMPLE_TARGET[2])
    ensures Injection(Some(Value(STRING, "testValue"))).GetValue() == Some(Value(STRING, "testValue"))
  {
    var inj := Injection(Some(Value(STRING, "testValue")));
    assert !AssignableTo(STRING, INTEGER);
    assert FirstMatching(SIMPLE_TARGET, inj) == Some(0);
    assert FirstMatching(SIMPLE_TARGET, Injection(None)) == Some(0);
  }
}
