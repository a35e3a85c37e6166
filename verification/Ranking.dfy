/** The first few elements of a finite set under a strict total order: what a sorted list cut off at a
    limit is, and that there is only one. */
module Ranking {

  type Order<!T> = (T, T) -> bool

  ghost predicate StrictTotal<T(!new)>(less: Order<T>) {
    && (forall a :: !less(a, a))
    && (forall a, b :: a != b ==> less(a, b) || less(b, a))
    && (forall a, b, c :: less(a, b) && less(b, c) ==> less(a, c))
  }

  ghost predicate Sorted<T>(less: Order<T>, s: seq<T>) {
    forall i, j :: 0 <= i < j < |s| ==> less(s[i], s[j])
  }

  function Least(a: nat, b: nat): nat {
    if a < b then a else b
  }

  /** The `limit` first elements of `all`, in order. */
  ghost predicate TopOf<T>(less: Order<T>, all: set<T>, limit: nat, s: seq<T>) {
    && |s| == Least(limit, |all|)
    && (forall x :: x in s ==> x in all)
    && Sorted(less, s)
    && (forall x, y :: x in s && y in all && y !in s ==> less(x, y))
  }

  lemma NotEarlier<T(!new)>(less: Order<T>, all: set<T>, limit: nat, a: seq<T>, b: seq<T>, n: nat)
    requires StrictTotal(less) && TopOf(less, all, limit, a) && TopOf(less, all, limit, b)
    requires n < |a| && a[..n] == b[..n] && a[n] != b[n]
    ensures less(b[n], a[n])
  {
    forall i | 0 <= i < n ensures a[i] == b[i] {
      assert a[..n][i] == b[..n][i];
    }
    if a[n] in b {
      var i :| 0 <= i < |b| && b[i] == a[n];
    } else {
      assert b[n] in b;
    }
  }

  /** There is one such list. */
  lemma {:induction false} TopIsUnique<T(!new)>(less: Order<T>, all: set<T>, limit: nat, a: seq<T>, b: seq<T>, n: nat)
    requires StrictTotal(less) && TopOf(less, all, limit, a) && TopOf(less, all, limit, b) && n <= |a|
    ensures |a| == |b| && a[..n] == b[..n]
  {
    if n > 0 {
      TopIsUnique(less, all, limit, a, b, n - 1);
      if a[n - 1] != b[n - 1] {
        NotEarlier(less, all, limit, a, b, n - 1);
        NotEarlier(less, all, limit, b, a, n - 1);
      }
      assert a[..n] == a[..n - 1] + [a[n - 1]];
      assert b[..n] == b[..n - 1] + [b[n - 1]];
    }
  }

  method Insert<T(==, !new)>(less: Order<T>, ordered: seq<T>, x: T) returns (out: seq<T>)
    requires StrictTotal(less) && Sorted(less, ordered) && x !in ordered
    ensures Sorted(less, out) && |out| == |ordered| + 1 && forall y :: y in out <==> y in ordered || y == x
  {
    var at := 0;
    while at < |ordered| && less(ordered[at], x)
      invariant 0 <= at <= |ordered|
      invariant forall i :: 0 <= i < at ==> less(ordered[i], x)
    {
      at := at + 1;
    }
    out := ordered[..at] + [x] + ordered[at..];
    forall i | at <= i < |ordered| ensures less(x, ordered[i]) {
      assert i > at ==> less(ordered[at], ordered[i]);
    }
    assert forall y :: y in ordered <==> y in ordered[..at] || y in ordered[at..];
  }

  method Sort<T(==, !new)>(less: Order<T>, all: set<T>) returns (ordered: seq<T>)
    requires StrictTotal(less)
    ensures Sorted(less, ordered) && |ordered| == |all| && forall x :: x in ordered <==> x in all
  {
    var rest := all;
    ordered := [];
    while rest != {}
      invariant rest <= all && Sorted(less, ordered) && |ordered| + |rest| == |all|
      invariant forall x :: x in ordered <==> x in all && x !in rest
      decreases rest
    {
      var x :| x in rest;
      rest := rest - {x};
      ordered := Insert(less, ordered, x);
    }
  }

  /** Cutting the sorted list off gives the top. */
  lemma CutIsTop<T>(less: Order<T>, all: set<T>, limit: nat, ordered: seq<T>)
    requires Sorted(less, ordered) && |ordered| == |all| && forall x :: x in ordered <==> x in all
    ensures TopOf(less, all, limit, ordered[..Least(limit, |all|)])
  {
    var n := Least(limit, |all|);
    var s := ordered[..n];
    assert forall x :: x in s ==> x in ordered;
    assert forall j :: 0 <= j < n ==> ordered[j] in s;
    forall x, y | x in s && y in all && y !in s ensures less(x, y) {
      var i :| 0 <= i < n && s[i] == x;
      var j :| 0 <= j < |ordered| && ordered[j] == y;
    }
  }

  /** What is less than an element of the top is in the top, before it. */
  lemma Earlier<T(!new)>(less: Order<T>, all: set<T>, limit: nat, top: seq<T>, x: T, j: nat) returns (i: nat)
    requires StrictTotal(less) && TopOf(less, all, limit, top) && j < |top| && x in all && less(x, top[j])
    ensures i < j && top[i] == x
  {
    assert top[j] in top;
    i :| 0 <= i < |top| && top[i] == x;
  }
}
