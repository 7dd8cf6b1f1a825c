/** Python's `sorted` seen as a function, for orders that never tie on the given elements. */
module Sorting {

  /** `less` orders the elements of `domain` strictly and totally. */
  ghost predicate OrdersStrictly<T>(less: (T, T) -> bool, domain: set<T>) {
    && (forall x, y | x in domain && y in domain && x != y :: less(x, y) != less(y, x))
    && (forall x | x in domain :: !less(x, x))
    && (forall x, y, z | x in domain && y in domain && z in domain && less(x, y) && less(y, z) :: less(x, z))
  }

  ghost predicate Ascending<T>(s: seq<T>, less: (T, T) -> bool) {
    forall i, j | 0 <= i < j < |s| :: less(s[i], s[j])
  }

  ghost predicate NoRepeats<T>(s: seq<T>) {
    forall i, j | 0 <= i < j < |s| :: s[i] != s[j]
  }

  function Insert<T>(x: T, s: seq<T>, less: (T, T) -> bool): (r: seq<T>) {
    if s == [] || less(x, s[0]) then [x] + s else [s[0]] + Insert(x, s[1..], less)
  }

  function Sort<T>(s: seq<T>, less: (T, T) -> bool): (r: seq<T>) {
    if s == [] then [] else Insert(s[0], Sort(s[1..], less), less)
  }

  lemma {:induction false} InsertKeepsElements<T>(x: T, s: seq<T>, less: (T, T) -> bool)
    ensures multiset(Insert(x, s, less)) == multiset{x} + multiset(s)
  {
    if s == [] || less(x, s[0]) {
    } else {
      assert s == [s[0]] + s[1..];
      InsertKeepsElements(x, s[1..], less);
    }
  }

  lemma {:induction false} SortKeepsElements<T>(s: seq<T>, less: (T, T) -> bool)
    ensures multiset(Sort(s, less)) == multiset(s)
    ensures |Sort(s, less)| == |s|
    ensures forall x :: x in Sort(s, less) <==> x in s
  {
    if s != [] {
      assert s == [s[0]] + s[1..];
      SortKeepsElements(s[1..], less);
      InsertKeepsElements(s[0], Sort(s[1..], less), less);
    }
    assert |multiset(Sort(s, less))| == |multiset(s)|;
    forall x
      ensures x in Sort(s, less) <==> x in s
    {
      assert x in Sort(s, less) <==> x in multiset(Sort(s, less));
      assert x in s <==> x in multiset(s);
    }
  }

  lemma {:induction false} InsertAscending<T>(x: T, s: seq<T>, less: (T, T) -> bool, domain: set<T>)
    requires OrdersStrictly(less, domain)
    requires x in domain && (forall y | y in s :: y in domain && y != x)
    requires Ascending(s, less)
    ensures Ascending(Insert(x, s, less), less)
  {
    if s == [] || less(x, s[0]) {
    } else {
      var tail := Insert(x, s[1..], less);
      InsertAscending(x, s[1..], less, domain);
      InsertKeepsElements(x, s[1..], less);
      forall y | y in tail
        ensures less(s[0], y)
      {
        assert y in multiset(tail);
        assert y == x || y in s[1..];
      }
    }
  }

  lemma {:induction false} SortAscending<T>(s: seq<T>, less: (T, T) -> bool, domain: set<T>)
    requires OrdersStrictly(less, domain)
    requires forall x | x in s :: x in domain
    requires NoRepeats(s)
    ensures Ascending(Sort(s, less), less)
  {
    if s != [] {
      SortAscending(s[1..], less, domain);
      SortKeepsElements(s[1..], less);
      assert forall y | y in s[1..] :: y in s;
      assert s[0] !in s[1..] by {
        assert forall k | 0 <= k < |s[1..]| :: s[1..][k] == s[k + 1] && s[0] != s[k + 1];
      }
      var rest := Sort(s[1..], less);
      forall y | y in rest
        ensures y in domain && y != s[0]
      {
        assert y in multiset(rest);
        assert y in s[1..];
      }
      assert s[0] in s;
      InsertAscending(s[0], rest, less, domain);
    }
  }

  /** An element that goes before all others comes first. */
  lemma {:induction false} BestComesFirst<T>(x: T, s: seq<T>, less: (T, T) -> bool)
    requires x in s && forall y | y in s && y != x :: less(x, y) && !less(y, x)
    ensures Sort(s, less) != [] && Sort(s, less)[0] == x
  {
    var rest := Sort(s[1..], less);
    assert s == [s[0]] + s[1..];
    SortKeepsElements(s[1..], less);
    if x in s[1..] {
      BestComesFirst(x, s[1..], less);
    } else if rest != [] {
      assert rest[0] in multiset(rest) && multiset(rest) == multiset(s[1..]);
      assert rest[0] in s[1..];
    }
  }

  /** An ascending arrangement of a set is unique: two lists with the same elements are equal. */
  lemma {:induction false} AscendingUnique<T>(a: seq<T>, b: seq<T>, less: (T, T) -> bool, domain: set<T>)
    requires OrdersStrictly(less, domain)
    requires forall x :: x in a <==> x in b
    requires forall x | x in a :: x in domain
    requires Ascending(a, less) && Ascending(b, less)
    ensures a == b
  {
    assert b == [] || b[0] in a;
    if a == [] {
    } else {
      assert a[0] in b && b != [] && b[0] in a;
      assert a[0] == b[0];
      forall x
        ensures x in a[1..] <==> x in b[1..]
      {
        TailMembership(a, x, less, domain);
        TailMembership(b, x, less, domain);
      }
      AscendingUnique(a[1..], b[1..], less, domain);
    }
  }

  lemma TailMembership<T>(a: seq<T>, x: T, less: (T, T) -> bool, domain: set<T>)
    requires a != [] && Ascending(a, less) && OrdersStrictly(less, domain)
    requires forall y | y in a :: y in domain
    ensures x in a[1..] <==> x in a && x != a[0]
  {
    if x in a[1..] {
      var i :| 0 <= i < |a[1..]| && a[1..][i] == x;
      assert less(a[0], a[i + 1]);
    }
  }
}
