/** Value types shared by the fixtures: optional values, the exceptions the
    fixtures raise, the host test runner's description and test body, and
    URLs. */
module Common {

  /** Java's nullable reference: None stands for null. */
  datatype Option<+T> = None | Some(value: T)

  /** The exceptions the modelled code raises or lets through. */
  datatype Error =
    | AssertionError(message: string)
    | IOException(message: string)
    | IllegalStateException(message: string)
    | NullPointerException
    /** Opening the stream of a URL failed. */
    | ResourceNotFound(url: string)
    /** A JNDI lookup found nothing bound under the name (None: a null name). */
    | NameNotFound(name: string)
    /** A lifecycle guard of the rule base class refused a call. */
    | IllegalLifecycleState
    /** An exception thrown by an external service (directory service). */
    | ServiceException
    /** An exception thrown by the test body itself. */
    | TestFailure(code: nat)

  /** How a void Java call ends: normally, or by throwing. */
  datatype Outcome = Pass | Fail(error: Error)

  /** How a value-returning Java call ends. */
  datatype Result<+T> = Ok(value: T) | Err(error: Error)

  function OutcomeOf<T>(r: Result<T>): (o: Outcome)
    ensures o.Pass? <==> r.Ok?
    ensures r.Err? ==> o.error == r.error
  {
    if r.Ok? then Pass else Fail(r.error)
  }

  /** A URL: its external form and the path of its URI (None when the URI
      is opaque, as for "jar:" URLs, where URI.getPath() is null). */
  datatype Url = Url(spec: string, path: Option<string>)

  /** The runner's description of what a rule is applied to. */
  datatype Description = Description(displayName: string, isSuite: bool)

  /** The statement the runner hands to a rule: the test body, identified
      by id, and how its evaluation ends. */
  datatype Body = Body(id: nat, outcome: Outcome)

  /** Number of occurrences of x in s. */
  function Count<T(==)>(x: T, s: seq<T>): nat
  {
    if s == [] then 0 else (if s[0] == x then 1 else 0) + Count(x, s[1..])
  }

  lemma {:induction false} CountConcat<T>(x: T, a: seq<T>, b: seq<T>)
    ensures Count(x, a + b) == Count(x, a) + Count(x, b)
  {
    if a == [] {
      assert a + b == b;
    } else {
      assert (a + b)[1..] == a[1..] + b;
      CountConcat(x, a[1..], b);
    }
  }

  lemma {:induction false} CountAbsent<T>(x: T, s: seq<T>)
    ensures Count(x, s) == 0 <==> x !in s
  {
    if s != [] {
      CountAbsent(x, s[1..]);
      assert s == [s[0]] + s[1..];
    }
  }
}
