/** Vocabulary shared by every service: ids, results, principals, and sums over finite tables. */
module Common {

  type Id = string

  datatype Option<+T> = None | Some(value: T)

  /** The error codes the services put in their exceptions. */
  datatype Error =
    | NOT_FOUND
    | FORBIDDEN
    | VALIDATION_FAILED
    | SESSION_ALREADY_ACTIVE
    | INSUFFICIENT_BALANCE
    | AUTH_INVALID_CREDENTIALS
    | UNIQUE_VIOLATION
    | FOREIGN_KEY_VIOLATION
    | OUT_OF_RANGE

  datatype Result<+T> = Ok(value: T) | Err(error: Error) {
    predicate IsFailure() {
      Err?
    }

    function PropagateFailure<U>(): Result<U>
      requires Err?
    {
      Err(error)
    }

    function Extract(): T
      requires Ok?
    {
      value
    }
  }

  /** The authenticated employee; an empty branch set means every branch of the tenant. */
  datatype Principal = Principal(tenant: Id, employee: Id, branches: set<Id>)

  predicate InScope(user: Principal, branch: Id) {
    user.branches == {} || branch in user.branches
  }

  function Max(a: int, b: int): int {
    if a < b then b else a
  }

  function Min(a: int, b: int): int {
    if a < b then a else b
  }

  function Abs(a: int): int {
    if a < 0 then -a else a
  }

  /** The first position that passes, or the length if none does. */
  function FirstIndex<T>(s: seq<T>, passes: T -> bool): (i: nat)
    ensures i <= |s|
    ensures i < |s| ==> passes(s[i])
    ensures forall j :: 0 <= j < i ==> !passes(s[j])
  {
    if s == [] then 0 else
      var i := FirstIndex(s[..|s| - 1], passes);
      if i < |s| - 1 then i else if passes(s[|s| - 1]) then |s| - 1 else |s|
  }

  /** The sum of f over a finite set, whatever the order. */
  ghost function SumOver<K(!new)>(s: set<K>, f: K -> int): int {
    if s == {} then 0 else
      var k :| k in s;
      f(k) + SumOver(s - {k}, f)
  }

  lemma {:induction false} SumOverPick<K(!new)>(s: set<K>, k: K, f: K -> int)
    requires k in s
    ensures SumOver(s, f) == f(k) + SumOver(s - {k}, f)
    decreases s
  {
    var x :| x in s && SumOver(s, f) == f(x) + SumOver(s - {x}, f);
    if x != k {
      SumOverPick(s - {x}, k, f);
      SumOverPick(s - {k}, x, f);
      assert s - {x} - {k} == s - {k} - {x};
    }
  }

  lemma {:induction false} SumOverSame<K(!new)>(s: set<K>, f: K -> int, g: K -> int)
    requires forall k :: k in s ==> f(k) == g(k)
    ensures SumOver(s, f) == SumOver(s, g)
    decreases s
  {
    if s == {} {
    } else {
      var k :| k in s;
      SumOverPick(s, k, f);
      SumOverPick(s, k, g);
      SumOverSame(s - {k}, f, g);
    }
  }

  /** A sum of non-negative, pointwise smaller terms is smaller; strictly so if one term is. */
  lemma {:induction false} SumOverLess<K(!new)>(s: set<K>, f: K -> int, g: K -> int)
    requires forall k :: k in s ==> 0 <= g(k) <= f(k)
    ensures 0 <= SumOver(s, g) <= SumOver(s, f)
    ensures (exists k :: k in s && g(k) < f(k)) ==> SumOver(s, g) < SumOver(s, f)
    decreases s
  {
    if s == {} {
    } else {
      var k :| k in s;
      SumOverPick(s, k, f);
      SumOverPick(s, k, g);
      SumOverLess(s - {k}, f, g);
      assert forall x :: x in s && x != k ==> x in s - {k};
    }
  }

  /** Two tables that differ in one row (added or changed) have sums that differ by that row. */
  lemma SumOverChange<K(!new)>(s: set<K>, s': set<K>, k: K, f: K -> int, g: K -> int)
    requires s' == s + {k}
    requires forall x :: x in s && x != k ==> f(x) == g(x)
    ensures SumOver(s', g) == SumOver(s, f) + g(k) - (if k in s then f(k) else 0)
  {
    SumOverPick(s', k, g);
    SumOverSame(s - {k}, f, g);
    assert s' - {k} == s - {k};
    if k in s {
      SumOverPick(s, k, f);
    } else {
      assert s - {k} == s;
    }
  }

  /** A listing of a set without repetition, as a query returns its rows. */
  ghost predicate Lists<K(!new)>(order: seq<K>, s: set<K>) {
    && (forall i, j :: 0 <= i < j < |order| ==> order[i] != order[j])
    && (forall k :: k in order <==> k in s)
  }
}
