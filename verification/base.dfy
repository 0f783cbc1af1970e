/** Shared building blocks: optional values, results with the package's
    error kinds, and the query-builder `where` filter that every model
    query is built from. */
module Base {

  /** A nullable value (a database NULL or a missing row). */
  datatype Option<+T> = None | Some(value: T) {
    function GetOr(default: T): T {
      match this
      case Some(v) => v
      case None => default
    }
  }

  /** The failures the modelled code can raise. */
  datatype Error =
    | UnknownInterval(name: string)    // no `add<Interval>s` method on the date object
    | AlreadyActive                    // subscribe while the last subscription is active
    | UndefinedMethod(methodName: string)  // a call to a method no class defines
    | NullDereference(methodName: string)  // a method called on a null result
    | CallbackRaised                   // the caller's action or an event listener threw inside a transaction

  datatype Result<+T> = Success(value: T) | Failure(error: Error)

  /** `where(...)`: keep, in order, the rows satisfying `p`. */
  function Filter<T(!new)>(s: seq<T>, p: T -> bool): (r: seq<T>)
    ensures |r| <= |s|
    ensures forall x :: x in r <==> x in s && p(x)
    ensures forall i :: 0 <= i < |r| ==> p(r[i])
  {
    if s == [] then []
    else (if p(s[0]) then [s[0]] else []) + Filter(s[1..], p)
  }

  lemma {:induction false} FilterAppend<T(!new)>(a: seq<T>, b: seq<T>, p: T -> bool)
    ensures Filter(a + b, p) == Filter(a, p) + Filter(b, p)
  {
    if a == [] {
      assert a + b == b;
    } else {
      assert (a + b)[1..] == a[1..] + b;
      FilterAppend(a[1..], b, p);
    }
  }

  /** `where(...)` neither duplicates nor drops a matching row: each row
      satisfying `p` occurs in the result as often as in the table, and
      every other row not at all. */
  lemma {:induction false} FilterCounts<T(!new)>(s: seq<T>, p: T -> bool, x: T)
    ensures multiset(Filter(s, p))[x] == if p(x) then multiset(s)[x] else 0
  {
    if s != [] {
      FilterCounts(s[1..], p, x);
      assert s == [s[0]] + s[1..];
    }
  }

  /** Two complementary `where` clauses split a table between them: every
      row lands in exactly one of the two results. */
  lemma {:induction false} FilterPartition<T(!new)>(s: seq<T>, p: T -> bool, q: T -> bool)
    requires forall x :: q(x) == !p(x)
    ensures multiset(Filter(s, p)) + multiset(Filter(s, q)) == multiset(s)
    ensures |Filter(s, p)| + |Filter(s, q)| == |s|
    ensures forall x :: !(x in Filter(s, p) && x in Filter(s, q))
  {
    if s != [] {
      FilterPartition(s[1..], p, q);
      assert s == [s[0]] + s[1..];
    }
  }

  /** `sum($column)`: the column `amount` added over the rows; 0 for none. */
  function Sum<T>(rows: seq<T>, amount: T -> int): int {
    if rows == [] then 0 else amount(rows[0]) + Sum(rows[1..], amount)
  }

  lemma {:induction false} SumAppend<T>(a: seq<T>, b: seq<T>, amount: T -> int)
    ensures Sum(a + b, amount) == Sum(a, amount) + Sum(b, amount)
  {
    if a == [] {
      assert a + b == b;
    } else {
      assert (a + b)[1..] == a[1..] + b;
      SumAppend(a[1..], b, amount);
    }
  }
}
