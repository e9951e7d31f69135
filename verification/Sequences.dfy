/** Repetitions and positions in sequences, and sorting by an order that is given as a function. */
module Sequences {

  predicate NoRepeats<T(==)>(s: seq<T>) {
    forall i, j :: 0 <= i < j < |s| ==> s[i] != s[j]
  }

  predicate Increasing(at: seq<nat>) {
    forall p, q :: 0 <= p < q < |at| ==> at[p] < at[q]
  }

  lemma IncreasingMore(at: seq<nat>, k: nat)
    requires Increasing(at) && forall p :: 0 <= p < |at| ==> at[p] < k
    ensures Increasing(at + [k])
  {
  }

  lemma SecondLarger(at: seq<nat>)
    requires Increasing(at)
    ensures |at| > 1 ==> at[0] < at[1]
  {
  }

  ghost predicate Occurs(k: nat, at: seq<nat>) {
    exists i :: 0 <= i < |at| && at[i] == k
  }

  lemma OccursMore(k: nat, at: seq<nat>, last: nat)
    ensures Occurs(k, at + [last]) <==> Occurs(k, at) || k == last
  {
    if Occurs(k, at) {
      var i :| 0 <= i < |at| && at[i] == k;
      assert (at + [last])[i] == k;
    }
    assert (at + [last])[|at|] == last;
  }

  /** No two elements precede each other, and not preceding is transitive. */
  ghost predicate IsOrder<T(!new)>(before: (T, T) -> bool) {
    && (forall x, y :: before(x, y) ==> !before(y, x))
    && (forall x, y, z :: !before(y, x) && !before(z, y) ==> !before(z, x))
  }

  predicate SortedBy<T>(before: (T, T) -> bool, s: seq<T>) {
    forall i, j :: 0 <= i < j < |s| ==> !before(s[j], s[i])
  }

  function InsertBy<T>(before: (T, T) -> bool, x: T, s: seq<T>): seq<T> {
    if s == [] then [x]
    else if !before(s[0], x) then [x] + s
    else [s[0]] + InsertBy(before, x, s[1..])
  }

  lemma InsertFirst<T(!new)>(before: (T, T) -> bool, x: T, s: seq<T>)
    requires IsOrder(before) && SortedBy(before, s) && s != [] && !before(s[0], x)
    ensures SortedBy(before, [x] + s)
  {
    forall j | 0 <= j < |s| ensures !before(s[j], x) {
      if j > 0 {
        assert !before(s[j], s[0]);
      }
    }
  }

  lemma InsertRest<T(!new)>(before: (T, T) -> bool, x: T, first: T, rest: seq<T>, more: seq<T>)
    requires IsOrder(before) && SortedBy(before, [first] + rest) && SortedBy(before, more)
    requires before(first, x) && multiset(more) == multiset(rest) + multiset{x}
    ensures SortedBy(before, [first] + more)
  {
    assert !before(x, first);
    forall j | 0 <= j < |more| ensures !before(more[j], first) {
      assert more[j] in multiset(more);
      if more[j] != x {
        assert more[j] in rest;
        var i :| 0 <= i < |rest| && rest[i] == more[j];
        assert ([first] + rest)[i + 1] == more[j] && ([first] + rest)[0] == first;
      }
    }
  }

  lemma {:induction false} InsertSorts<T(!new)>(before: (T, T) -> bool, x: T, s: seq<T>)
    requires IsOrder(before) && SortedBy(before, s)
    ensures SortedBy(before, InsertBy(before, x, s)) && multiset(InsertBy(before, x, s)) == multiset(s) + multiset{x}
  {
    if s != [] {
      assert s == [s[0]] + s[1..];
      if !before(s[0], x) {
        InsertFirst(before, x, s);
      } else {
        InsertSorts(before, x, s[1..]);
        InsertRest(before, x, s[0], s[1..], InsertBy(before, x, s[1..]));
      }
    }
  }

  /** Sorts by insertion. */
  method SortBy<T(!new)>(before: (T, T) -> bool, s: seq<T>) returns (sorted: seq<T>)
    requires IsOrder(before)
    ensures SortedBy(before, sorted) && multiset(sorted) == multiset(s)
  {
    hide IsOrder, SortedBy;
    sorted := [];
    SortedNothing(before);
    for i := 0 to |s|
      invariant SortedBy(before, sorted) && multiset(sorted) == multiset(s[..i])
    {
      assert s[..i + 1] == s[..i] + [s[i]];
      InsertSorts(before, s[i], sorted);
      sorted := InsertBy(before, s[i], sorted);
    }
    assert s[..|s|] == s;
  }

  lemma SortedNothing<T>(before: (T, T) -> bool)
    ensures SortedBy(before, [])
  {
  }
}
