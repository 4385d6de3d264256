/** Sorting and removing adjacent duplicates, as `sort` followed by `dedup` does. */
module Sorting {

  ghost predicate TotalOrder<T(!new)>(leq: (T, T) -> bool) {
    && (forall a, b :: leq(a, b) || leq(b, a))
    && (forall a, b :: leq(a, b) && leq(b, a) ==> a == b)
    && (forall a, b, c :: leq(a, b) && leq(b, c) ==> leq(a, c))
  }

  ghost predicate SortedBy<T>(leq: (T, T) -> bool, s: seq<T>) {
    forall i, j | 0 <= i < j < |s| :: leq(s[i], s[j])
  }

  ghost predicate StrictlySorted<T>(leq: (T, T) -> bool, s: seq<T>) {
    forall i, j | 0 <= i < j < |s| :: leq(s[i], s[j]) && s[i] != s[j]
  }

  ghost predicate Distinct<T(!new)>(s: seq<T>) {
    forall i, j | 0 <= i < j < |s| :: s[i] != s[j]
  }

  function Insert<T>(leq: (T, T) -> bool, x: T, s: seq<T>): seq<T> {
    if s == [] || leq(x, s[0]) then [x] + s else [s[0]] + Insert(leq, x, s[1..])
  }

  function Sort<T>(leq: (T, T) -> bool, s: seq<T>): seq<T> {
    if s == [] then [] else Insert(leq, s[0], Sort(leq, s[1..]))
  }

  function Dedup<T(==)>(s: seq<T>): seq<T> {
    if |s| < 2 then s
    else if s[0] == s[1] then Dedup(s[1..])
    else [s[0]] + Dedup(s[1..])
  }

  /** The distinct elements in increasing order. */
  function SortDedup<T(==)>(leq: (T, T) -> bool, s: seq<T>): seq<T> {
    Dedup(Sort(leq, s))
  }

  lemma InsertMembers<T(!new)>(leq: (T, T) -> bool, x: T, s: seq<T>)
    ensures multiset(Insert(leq, x, s)) == multiset(s) + multiset{x}
  {
    if s != [] && !leq(x, s[0]) {
      InsertMembers(leq, x, s[1..]);
      assert s == [s[0]] + s[1..];
    } else {
      assert multiset([x] + s) == multiset{x} + multiset(s);
    }
  }

  lemma InsertSorted<T(!new)>(leq: (T, T) -> bool, x: T, s: seq<T>)
    requires TotalOrder(leq) && SortedBy(leq, s)
    ensures SortedBy(leq, Insert(leq, x, s))
    ensures multiset(Insert(leq, x, s)) == multiset(s) + multiset{x}
  {
    InsertMembers(leq, x, s);
    if s != [] && !leq(x, s[0]) {
      var tail := s[1..];
      var rest := Insert(leq, x, tail);
      InsertSorted(leq, x, tail);
      assert Insert(leq, x, s) == [s[0]] + rest;
      forall y | y in rest ensures leq(s[0], y) {
        assert y in multiset(rest);
        if y != x {
          assert y in tail;
        }
      }
    }
  }

  lemma SortIsSorted<T(!new)>(leq: (T, T) -> bool, s: seq<T>)
    requires TotalOrder(leq)
    ensures SortedBy(leq, Sort(leq, s)) && multiset(Sort(leq, s)) == multiset(s)
  {
    if s != [] {
      SortIsSorted(leq, s[1..]);
      InsertSorted(leq, s[0], Sort(leq, s[1..]));
      assert s == [s[0]] + s[1..];
    }
  }

  lemma DedupStrict<T(!new)>(leq: (T, T) -> bool, s: seq<T>)
    requires TotalOrder(leq) && SortedBy(leq, s)
    ensures StrictlySorted(leq, Dedup(s))
    ensures forall x :: x in Dedup(s) <==> x in s
    ensures s != [] ==> Dedup(s) != [] && Dedup(s)[0] == s[0]
  {
    if |s| >= 2 {
      DedupStrict(leq, s[1..]);
      assert s == [s[0]] + s[1..];
      if s[0] != s[1] {
        var rest := Dedup(s[1..]);
        forall y | y in rest ensures leq(s[0], y) && y != s[0] {
          var k :| 0 <= k < |s[1..]| && s[1..][k] == y;
          assert s[k + 1] == y && leq(s[1], y);
        }
      }
    }
  }

  /** `sort` then `dedup` yields the strictly increasing list of the distinct elements. */
  lemma SortDedupCorrect<T(!new)>(leq: (T, T) -> bool, s: seq<T>)
    requires TotalOrder(leq)
    ensures StrictlySorted(leq, SortDedup(leq, s))
    ensures forall x :: x in SortDedup(leq, s) <==> x in s
  {
    SortIsSorted(leq, s);
    DedupStrict(leq, Sort(leq, s));
    forall x ensures x in Sort(leq, s) <==> x in s {
      assert x in multiset(s) <==> x in multiset(Sort(leq, s));
    }
  }

  /** There is one way only to list the same elements in increasing order. */
  lemma {:induction false} StrictlySortedUnique<T(!new)>(leq: (T, T) -> bool, a: seq<T>, b: seq<T>)
    requires TotalOrder(leq) && StrictlySorted(leq, a) && StrictlySorted(leq, b) && forall x :: x in a <==> x in b
    ensures a == b
  {
    assert b != [] ==> b[0] in b;
    if a != [] {
      var n, m := |a| - 1, |b| - 1;
      assert a[n] in a && b != [] && b[m] in b;
      var i :| 0 <= i < |b| && b[i] == a[n];
      var j :| 0 <= j < |a| && a[j] == b[m];
      assert leq(a[j], a[n]) && leq(b[i], b[m]);
      assert a[n] == b[m];
      forall x ensures x in a[..n] <==> x in b[..m] {
        LastApart(leq, a, x);
        LastApart(leq, b, x);
      }
      StrictlySortedUnique(leq, a[..n], b[..m]);
      assert a == a[..n] + [a[n]] && b == b[..m] + [b[m]];
    }
  }

  lemma LastApart<T>(leq: (T, T) -> bool, s: seq<T>, x: T)
    requires s != [] && StrictlySorted(leq, s)
    ensures x in s[..|s| - 1] <==> x in s && x != s[|s| - 1]
  {
    assert s == s[..|s| - 1] + [s[|s| - 1]];
  }

  // ----- the order on strings -----

  /** The first place where two strings differ decides, and a prefix comes before what it begins. */
  ghost predicate DecidedAt(a: string, b: string, k: nat) {
    && k <= |a| && k <= |b| && a[..k] == b[..k]
    && (k == |a| || (k < |b| && a[k] < b[k]))
  }

  lemma {:induction false} StringLeqIs(a: string, b: string)
    ensures StringLeq(a, b) <==> exists k :: DecidedAt(a, b, k)
  {
    if a == "" {
      assert DecidedAt(a, b, 0);
    } else if b == "" {
    } else if a[0] < b[0] {
      assert DecidedAt(a, b, 0);
    } else if a[0] == b[0] {
      var x, y := a[1..], b[1..];
      StringLeqIs(x, y);
      assert a == [a[0]] + x && b == [b[0]] + y;
      forall k: nat | DecidedAt(x, y, k) ensures DecidedAt(a, b, k + 1) {
        assert a[..k + 1] == [a[0]] + x[..k] && b[..k + 1] == [b[0]] + y[..k];
      }
      forall k: nat | DecidedAt(a, b, k) ensures k > 0 && DecidedAt(x, y, k - 1) {
        assert x[..k - 1] == a[..k][1..] && y[..k - 1] == b[..k][1..];
      }
    } else {
      assert forall k: nat | 0 < k <= |a| && k <= |b| :: a[..k][0] != b[..k][0];
    }
  }

  predicate StringLeq(a: string, b: string) {
    a == "" || (b != "" && (a[0] < b[0] || (a[0] == b[0] && StringLeq(a[1..], b[1..]))))
  }

  lemma StringLeqTotal(a: string, b: string)
    ensures StringLeq(a, b) || StringLeq(b, a)
  {
  }

  lemma StringLeqAntisymmetric(a: string, b: string)
    requires StringLeq(a, b) && StringLeq(b, a)
    ensures a == b
  {
    if a != "" {
      StringLeqAntisymmetric(a[1..], b[1..]);
      assert a == [a[0]] + a[1..] && b == [b[0]] + b[1..];
    }
  }

  lemma StringLeqTransitive(a: string, b: string, c: string)
    requires StringLeq(a, b) && StringLeq(b, c)
    ensures StringLeq(a, c)
  {
  }

  lemma StringLeqIsTotalOrder()
    ensures TotalOrder(StringLeq)
  {
    forall a, b ensures StringLeq(a, b) || StringLeq(b, a) {
      StringLeqTotal(a, b);
    }
    forall a, b | StringLeq(a, b) && StringLeq(b, a) ensures a == b {
      StringLeqAntisymmetric(a, b);
    }
    forall a, b, c | StringLeq(a, b) && StringLeq(b, c) ensures StringLeq(a, c) {
      StringLeqTransitive(a, b, c);
    }
  }
}
