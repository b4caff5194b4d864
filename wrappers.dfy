// Shared result types and table helpers: the Go code returns `(value,
// error)` pairs and nil pointers, which become Result and Option values;
// the ORM's fresh row ids and unordered query results are written out once
// here for every model file.
module Wrappers {

  datatype Option<T> = None | Some(value: T)

  /** The error values the modelled code distinguishes. The httperrors
      constructors become their own cases; `sql.ErrNoRows` and the cloud
      provider's sentinel errors are kept apart because callers test for
      them with `errors.Cause`. Errors that only get passed on carry an
      opaque description. */
  datatype Error =
    | InputParameter(what: string)
    | MissingParameter(param: string)
    | ResourceNotFound(what: string)
    | NotSupported(what: string)
    | Conflict(what: string)
    | InvalidStatus(status: string)
    | UnsupportedOperation(what: string)
    | DuplicateResource(what: string)
    | DuplicateId(what: string)
    | NotEmpty(what: string)
    | ProtectedResource(what: string)
    | InternalServer(what: string)
    | General(what: string)
    | NoRows
    | DuplicateEntry
    | CloudNotFound
    | CloudNotSupported
    | CloudInvalidStatus
    | Opaque(what: string)

  /** How the stage of an asynchronous task ends (SetStageComplete or
      SetStageFailed). */
  datatype TaskOutcome = StageComplete | StageFailed(reason: Error)

  /** `compare.SyncResult` of a cloud sync: success and error counters per kind, and the error
      that aborted the sync before any change. */
  datatype SyncResult = SyncResult(added: nat, addErrors: nat, deleted: nat, deleteErrors: nat,
                                   updated: nat, updateErrors: nat, failure: Option<Error>)

  const EmptyResult := SyncResult(0, 0, 0, 0, 0, 0, None)

  datatype Result<T> = Ok(value: T) | Err(error: Error)
  {
    predicate IsFailure() { Err? }
    function PropagateFailure<U>(): Result<U> requires Err? { Err(error) }
    function Extract(): T requires Ok? { value }
  }

  /** The items already gathered in front of a later result; an error
      stays the error. */
  function Prepend<T>(done: seq<T>, r: Result<seq<T>>): Result<seq<T>>
  {
    match r
    case Err(e) => Err(e)
    case Ok(rest) => Ok(done + rest)
  }

  lemma PrependNothing<T>(r: Result<seq<T>>)
    ensures Prepend([], r) == r
  {
    if r.Ok? {
      assert [] + r.value == r.value;
    }
  }

  /** Gathering `a` and then `b` is gathering `a + b`. */
  lemma PrependTwice<T>(a: seq<T>, b: seq<T>, r: Result<seq<T>>)
    ensures Prepend(a, Prepend(b, r)) == Prepend(a + b, r)
  {
    if r.Ok? {
      assert a + (b + r.value) == (a + b) + r.value;
    }
  }

  /** Of `n` steps run in order until one fails, the number that ran
      without failing: the first failing position, or `n` when none fails. */
  function FirstFailure(fails: nat -> bool, n: nat): (k: nat)
    ensures k <= n
    ensures k < n ==> fails(k)
    ensures forall j :: 0 <= j < k ==> !fails(j)
  {
    if n == 0 then 0
    else
      var k := FirstFailure(fails, n - 1);
      if k < n - 1 then k else if fails(n - 1) then n - 1 else n
  }

  /** A row id not yet in use (the ORM draws random UUIDs). */
  method FreshId(taken: set<string>) returns (id: string)
    ensures id !in taken
  {
    var longest: nat := 0;
    var rest := taken;
    while rest != {}
      invariant rest <= taken
      invariant forall t :: t in taken - rest ==> |t| <= longest
      decreases rest
    {
      var t :| t in rest;
      if |t| > longest { longest := |t|; }
      rest := rest - {t};
    }
    id := seq(longest + 1, _ => 'x');
    assert forall t :: t in taken ==> |t| < |id|;
  }

  /** `xs` lists the members of `s`, each once. */
  predicate Enumerates(xs: seq<string>, s: set<string>)
  {
    |xs| == |s| && (forall k :: 0 <= k < |xs| ==> xs[k] in s) && (forall v :: v in s ==> v in xs) &&
    (forall k, l :: 0 <= k < l < |xs| ==> xs[k] != xs[l])
  }

  /** No value occurs twice. */
  predicate Distinct<T(==)>(s: seq<T>)
  {
    forall k, l :: 0 <= k < l < |s| ==> s[k] != s[l]
  }

  lemma {:induction false} DistinctCount<T>(s: seq<T>, x: T)
    requires Distinct(s)
    ensures multiset(s)[x] <= 1
  {
    if s != [] {
      assert s == [s[0]] + s[1..];
      DistinctCount(s[1..], x);
      if s[0] == x {
        assert x !in s[1..];
      }
    }
  }

  /** A list holding nothing more often than a list without repeats has no
      repeats. */
  lemma DistinctSub<T>(s: seq<T>, t: seq<T>)
    requires Distinct(s) && multiset(t) <= multiset(s)
    ensures Distinct(t)
  {
    forall k, l | 0 <= k < l < |t|
      ensures t[k] != t[l]
    {
      DistinctCount(s, t[k]);
      assert t == t[..l] + [t[l]] + t[l + 1..];
      assert t[k] in t[..l];
    }
  }

  /** Both halves of a list without repeats have none, and share nothing. */
  lemma DistinctSplit<T>(a: seq<T>, b: seq<T>)
    requires Distinct(a + b)
    ensures Distinct(a) && Distinct(b)
    ensures forall x :: x in a ==> x !in b
  {
    forall k, l | 0 <= k < l < |a|
      ensures a[k] != a[l]
    {
      assert (a + b)[k] == a[k] && (a + b)[l] == a[l];
    }
    forall k, l | 0 <= k < l < |b|
      ensures b[k] != b[l]
    {
      assert (a + b)[|a| + k] == b[k] && (a + b)[|a| + l] == b[l];
    }
    forall x | x in a
      ensures x !in b
    {
      var k :| 0 <= k < |a| && a[k] == x;
      forall l | 0 <= l < |b| ensures b[l] != x {
        assert (a + b)[|a| + l] == b[l] && (a + b)[k] == a[k];
      }
    }
  }

  /** The rows of a query result, in an order the database picks. */
  method Enumerate(s: set<string>) returns (xs: seq<string>)
    ensures Enumerates(xs, s)
  {
    var rest := s;
    xs := [];
    while rest != {}
      invariant rest <= s
      invariant |xs| + |rest| == |s|
      invariant forall k :: 0 <= k < |xs| ==> xs[k] in s - rest
      invariant forall v :: v in s - rest ==> v in xs
      invariant forall k, l :: 0 <= k < l < |xs| ==> xs[k] != xs[l]
      decreases rest
    {
      var v :| v in rest;
      xs := xs + [v];
      rest := rest - {v};
    }
  }

  /** The members the first k entries of `xs` list. */
  function Listed(xs: seq<string>, k: nat): set<string>
    requires k <= |xs|
  {
    set j | 0 <= j < k :: xs[j]
  }

  lemma ListedStep(xs: seq<string>, k: nat)
    requires k < |xs|
    ensures Listed(xs, k + 1) == Listed(xs, k) + {xs[k]}
  {
  }

  /** A full enumeration of `s` lists `s`, and every prefix lists part of it. */
  lemma ListedAll(xs: seq<string>, s: set<string>, k: nat)
    requires Enumerates(xs, s) && k <= |xs|
    ensures Listed(xs, k) <= s
    ensures Listed(xs, |xs|) == s
  {
    forall v | v in s ensures v in Listed(xs, |xs|) {
      var j :| 0 <= j < |xs| && xs[j] == v;
    }
  }
}
