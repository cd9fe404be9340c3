/** Specification functions over Python lists and sets that several core
    files share: distinctness, order-preserving de-duplication, the ascending
    order produced by the builtin `sorted`, and the filter/square/sum
    comprehensions used by both data processors and both example files.
    Lists are modelled as `seq`, Python sets as `set`. */
module Sequences {

  /** No two positions of `s` hold equal values. */
  predicate NoDups<T(==)>(s: seq<T>) {
    forall i, j :: 0 <= i < j < |s| ==> s[i] != s[j]
  }

  /** Cutting a list around position `i`. */
  lemma SplitAt<T>(s: seq<T>, i: nat)
    requires i < |s|
    ensures s == s[..i] + [s[i]] + s[i + 1..]
    ensures s[..i + 1] == s[..i] + [s[i]]
  {
    assert s[i..] == [s[i]] + s[i + 1..];
    assert s == s[..i] + s[i..];
  }

  /** The set of values in `s`, as Python's `set(s)` builds it. */
  function Elems<T(==)>(s: seq<T>): (r: set<T>)
    ensures forall k :: 0 <= k < |s| ==> s[k] in r
    ensures forall y :: y in r ==> y in s
  {
    set x | x in s
  }

  /** The distinct values of `s`, each at its first occurrence, in order. */
  function Dedup<T(==)>(s: seq<T>): seq<T> {
    if s == [] then []
    else
      var p := Dedup(s[..|s| - 1]);
      if s[|s| - 1] in s[..|s| - 1] then p else p + [s[|s| - 1]]
  }

  /** The loop-step form of DedupSnoc: position `i` joins the prefix before it. */
  lemma DedupStep<T>(s: seq<T>, i: nat)
    requires i < |s|
    ensures Dedup(s[..i + 1]) == if s[i] in Dedup(s[..i]) then Dedup(s[..i]) else Dedup(s[..i]) + [s[i]]
  {
    SplitAt(s, i);
    DedupSnoc(s[..i], s[i]);
    DedupMembers(s[..i], s[i]);
  }

  /** One step of Dedup: appending a value keeps it only if it is new. */
  lemma DedupSnoc<T>(s: seq<T>, x: T)
    ensures Dedup(s + [x]) == if x in s then Dedup(s) else Dedup(s) + [x]
  {
    assert (s + [x])[..|s|] == s;
  }

  /** De-duplication keeps every value and adds none. */
  lemma {:induction false} DedupMembers<T>(s: seq<T>, x: T)
    ensures x in Dedup(s) <==> x in s
  {
    if s != [] {
      var p := s[..|s| - 1];
      DedupMembers(p, x);
      assert s == p + [s[|s| - 1]];
    }
  }

  /** De-duplication leaves no value twice. */
  lemma {:induction false} DedupDistinct<T>(s: seq<T>)
    ensures NoDups(Dedup(s))
    ensures |Dedup(s)| <= |s|
  {
    if s != [] {
      var p := s[..|s| - 1];
      DedupDistinct(p);
      DedupMembers(p, s[|s| - 1]);
    }
  }

  /** A list that already has no repeats is its own de-duplication. */
  lemma {:induction false} DedupOfDistinct<T>(s: seq<T>)
    requires NoDups(s)
    ensures Dedup(s) == s
  {
    if s != [] {
      var p := s[..|s| - 1];
      assert NoDups(p);
      DedupOfDistinct(p);
      assert s == p + [s[|s| - 1]];
    }
  }

  /** The values of `d`, in the order of `d`, that occur at least twice in `whole`. */
  function Repeated<T(==)>(d: seq<T>, whole: seq<T>): seq<T> {
    if d == [] then []
    else
      var p := Repeated(d[..|d| - 1], whole);
      if multiset(whole)[d[|d| - 1]] >= 2 then p + [d[|d| - 1]] else p
  }

  lemma RepeatedSnoc<T>(d: seq<T>, x: T, whole: seq<T>)
    ensures Repeated(d + [x], whole)
         == if multiset(whole)[x] >= 2 then Repeated(d, whole) + [x] else Repeated(d, whole)
  {
    assert (d + [x])[..|d|] == d;
  }

  lemma {:induction false} RepeatedMembers<T>(d: seq<T>, whole: seq<T>, x: T)
    ensures x in Repeated(d, whole) <==> x in d && multiset(whole)[x] >= 2
  {
    if d != [] {
      var p := d[..|d| - 1];
      RepeatedMembers(p, whole, x);
      assert d == p + [d[|d| - 1]];
    }
  }

  lemma {:induction false} RepeatedDistinct<T>(d: seq<T>, whole: seq<T>)
    requires NoDups(d)
    ensures NoDups(Repeated(d, whole))
  {
    if d != [] {
      var p := d[..|d| - 1];
      assert NoDups(p);
      RepeatedDistinct(p, whole);
      RepeatedMembers(p, whole, d[|d| - 1]);
    }
  }

  /** The values occurring at least twice in `s`. */
  function DuplicatedValues<T(==)>(s: seq<T>): set<T> {
    set x | x in s && multiset(s)[x] >= 2
  }

  lemma ElemsSnoc<T>(s: seq<T>, x: T)
    ensures Elems(s + [x]) == Elems(s) + {x}
  {
  }

  /** One more occurrence of `x` makes it a duplicate exactly when it was
      already present. */
  lemma DuplicatedValuesSnoc<T>(s: seq<T>, x: T)
    ensures DuplicatedValues(s + [x])
         == if x in s then DuplicatedValues(s) + {x} else DuplicatedValues(s)
  {
    assert multiset(s + [x]) == multiset(s) + multiset{x};
    var lhs := DuplicatedValues(s + [x]);
    var rhs := if x in s then DuplicatedValues(s) + {x} else DuplicatedValues(s);
    forall y
      ensures y in lhs <==> y in rhs
    {
      assert y in s + [x] <==> y in s || y == x;
    }
    assert lhs == rhs;
  }

  /** De-duplication preserves the set of values. */
  lemma DedupElems<T>(s: seq<T>)
    ensures Elems(Dedup(s)) == Elems(s)
  {
    forall x
      ensures x in Elems(Dedup(s)) <==> x in Elems(s)
    {
      DedupMembers(s, x);
    }
  }

  /** A duplicate-free list has exactly as many elements as its set. */
  lemma {:induction false} DistinctCard<T>(s: seq<T>)
    requires NoDups(s)
    ensures |Elems(s)| == |s|
  {
    if s != [] {
      var p := s[..|s| - 1];
      var x := s[|s| - 1];
      assert NoDups(p);
      DistinctCard(p);
      assert s == p + [x];
      assert x !in p;
      assert Elems(s) == Elems(p) + {x};
    }
  }

  /** Python's `list(some_set)`: every element once, in an order the model
      leaves open (CPython's hash order). */
  method ListOfSet<T(==)>(s: set<T>) returns (r: seq<T>)
    ensures NoDups(r)
    ensures Elems(r) == s
    ensures |r| == |s|
  {
    r := [];
    var rest := s;
    while rest != {}
      invariant NoDups(r)
      invariant rest <= s
      invariant forall x :: x in r <==> x in s && x !in rest
      invariant |r| + |rest| == |s|
      decreases |rest|
    {
      var x :| x in rest;
      r := r + [x];
      rest := rest - {x};
    }
  }

  // ---------------------------------------------------------------------
  // Counting dictionaries and `list.remove`

  /** The dictionary a counting loop builds: value to number of occurrences,
      filled left to right. */
  function Occurrences<T(==)>(s: seq<T>): map<T, nat> {
    if s == [] then map[]
    else
      var p := Occurrences(s[..|s| - 1]);
      var x := s[|s| - 1];
      p[x := (if x in p then p[x] else 0) + 1]
  }

  lemma OccurrencesSnoc<T>(s: seq<T>, x: T)
    ensures Occurrences(s + [x])
         == Occurrences(s)[x := (if x in Occurrences(s) then Occurrences(s)[x] else 0) + 1]
  {
    assert (s + [x])[..|s|] == s;
  }

  /** The counting dictionary has exactly the values of `s` as keys, each
      mapped to its multiplicity. */
  lemma {:induction false} OccurrencesCounts<T>(s: seq<T>, x: T)
    ensures x in Occurrences(s) <==> x in s
    ensures x in Occurrences(s) ==> Occurrences(s)[x] == multiset(s)[x]
  {
    if s != [] {
      var p := s[..|s| - 1];
      OccurrencesCounts(p, x);
      assert s == p + [s[|s| - 1]];
    }
  }

  /** `s.remove(x)`: drops the first occurrence of `x`; raises in Python
      when `x` is absent, which callers here rule out first. */
  function RemoveFirst<T(==)>(s: seq<T>, x: T): (r: seq<T>)
    requires x in s
    ensures |r| == |s| - 1
    ensures multiset(r) == multiset(s) - multiset{x}
  {
    if s[0] == x then
      assert s == [s[0]] + s[1..];
      s[1..]
    else
      assert s == [s[0]] + s[1..];
      [s[0]] + RemoveFirst(s[1..], x)
  }

  /** Removing one occurrence from a list without repeats removes the value
      entirely and leaves the list without repeats. */
  lemma RemoveFirstDistinct<T>(s: seq<T>, x: T)
    requires x in s && NoDups(s)
    ensures NoDups(RemoveFirst(s, x))
    ensures Elems(RemoveFirst(s, x)) == Elems(s) - {x}
  {
    var r := RemoveFirst(s, x);
    assert multiset(r) == multiset(s) - multiset{x};
    forall y
      ensures multiset(r)[y] == if y in s && y != x then 1 else 0
    {
      DistinctMultiplicity(s, y);
    }
    forall y
      ensures multiset(r)[y] <= 1
    {
    }
    AtMostOnceDistinct(r);
    var want := Elems(s) - {x};
    forall y
      ensures y in Elems(r) <==> y in want
    {
      assert y in r <==> multiset(r)[y] > 0;
    }
    assert Elems(r) == want;
  }

  /** A list in which no value occurs twice has no repeats. */
  lemma {:induction false} AtMostOnceDistinct<T>(r: seq<T>)
    requires forall y :: multiset(r)[y] <= 1
    ensures NoDups(r)
  {
    if r != [] {
      var p, x := r[..|r| - 1], r[|r| - 1];
      assert r == p + [x];
      assert multiset(r) == multiset(p) + multiset{x};
      forall y
        ensures multiset(p)[y] <= 1
      {
        assert multiset(r)[y] >= multiset(p)[y];
      }
      AtMostOnceDistinct(p);
      assert multiset(r)[x] == multiset(p)[x] + 1 && multiset(r)[x] <= 1;
    }
  }

  /** In a list without repeats every present value occurs once. */
  lemma {:induction false} DistinctMultiplicity<T>(s: seq<T>, x: T)
    requires NoDups(s)
    ensures multiset(s)[x] == if x in s then 1 else 0
  {
    if s != [] {
      var p := s[..|s| - 1];
      assert NoDups(p);
      DistinctMultiplicity(p, x);
      assert s == p + [s[|s| - 1]];
    }
  }

  // ---------------------------------------------------------------------
  // Ascending order and the builtin `sorted`

  predicate SortedAsc(s: seq<int>) {
    forall i, j :: 0 <= i < j < |s| ==> s[i] <= s[j]
  }

  /** Inserts `x` before the first element not smaller than it. */
  function InsertAsc(x: int, s: seq<int>): (r: seq<int>)
    requires SortedAsc(s)
    ensures SortedAsc(r)
    ensures multiset(r) == multiset(s) + multiset{x}
    ensures |r| == |s| + 1
    ensures r[0] == if s == [] || x <= s[0] then x else s[0]
  {
    if s == [] || x <= s[0] then
      SortedCons(x, s);
      [x] + s
    else
      SortedTail(s);
      var rest := InsertAsc(x, s[1..]);
      InsertAscCons(x, s, rest);
      [s[0]] + rest
  }

  /** The recursive case of `InsertAsc`: the head goes back in front of the
      insertion into the tail. */
  lemma InsertAscCons(x: int, s: seq<int>, rest: seq<int>)
    requires s != [] && s[0] < x && SortedAsc(s) && SortedAsc(rest)
    requires multiset(rest) == multiset(s[1..]) + multiset{x}
    requires |rest| == |s| && rest[0] == if s[1..] == [] || x <= s[1..][0] then x else s[1..][0]
    ensures SortedAsc([s[0]] + rest)
    ensures multiset([s[0]] + rest) == multiset(s) + multiset{x}
  {
    SortedTail(s);
    SortedCons(s[0], rest);
    assert s == [s[0]] + s[1..];
  }

  /** The tail of a sorted list is sorted, and no smaller than the head. */
  lemma SortedTail(s: seq<int>)
    requires SortedAsc(s) && s != []
    ensures SortedAsc(s[1..])
    ensures s[1..] == [] || s[0] <= s[1..][0]
  {
    var t := s[1..];
    forall i, j | 0 <= i < j < |t|
      ensures t[i] <= t[j]
    {
      assert t[i] == s[i + 1] && t[j] == s[j + 1];
    }
  }

  /** A sorted list stays sorted when a value no larger than its head is
      put in front. */
  lemma SortedCons(h: int, t: seq<int>)
    requires SortedAsc(t) && (t == [] || h <= t[0])
    ensures SortedAsc([h] + t)
  {
    var r := [h] + t;
    forall i, j | 0 <= i < j < |r|
      ensures r[i] <= r[j]
    {
      if i > 0 {
        assert r[i] == t[i - 1] && r[j] == t[j - 1];
      } else {
        assert r[j] == t[j - 1];
      }
    }
  }

  /** The list Python's `sorted(s)` returns for a list of integers. */
  function SortedOf(s: seq<int>): (r: seq<int>)
    ensures SortedAsc(r)
    ensures multiset(r) == multiset(s)
    ensures |r| == |s|
  {
    if s == [] then []
    else
      assert s == [s[0]] + s[1..];
      InsertAsc(s[0], SortedOf(s[1..]))
  }

  /** The head of an ascending list is its least element. */
  lemma SortedHeadIsLeast(a: seq<int>, y: int)
    requires SortedAsc(a) && y in multiset(a)
    ensures a[0] <= y
  {
    var k :| 0 <= k < |a| && a[k] == y;
  }

  lemma MultisetTail(a: seq<int>)
    requires a != []
    ensures multiset(a[1..]) == multiset(a) - multiset{a[0]}
  {
    assert a == [a[0]] + a[1..];
  }

  /** Two ascending lists holding the same multiset of values are equal, so
      any correct sort of `s` returns `SortedOf(s)`. */
  lemma {:induction false} SortedUnique(a: seq<int>, b: seq<int>)
    requires SortedAsc(a) && SortedAsc(b)
    requires multiset(a) == multiset(b)
    ensures a == b
  {
    assert |a| == |multiset(a)| == |multiset(b)| == |b|;
    if a != [] {
      assert a[0] == b[0] by {
        SortedHeadIsLeast(a, b[0]);
        SortedHeadIsLeast(b, a[0]);
      }
      var a', b' := a[1..], b[1..];
      assert multiset(a') == multiset(b') by {
        MultisetTail(a);
        MultisetTail(b);
      }
      SortedUnique(a', b');
      assert a == [a[0]] + a' && b == [b[0]] + b';
    }
  }

  // ---------------------------------------------------------------------
  // Filter, square and sum comprehensions over integer lists

  /** `[x for x in s if x > t]`, strict comparison. */
  function Above(s: seq<int>, t: int): (r: seq<int>)
    ensures forall k :: 0 <= k < |r| ==> r[k] > t
    ensures forall x :: x in r <==> x in s && x > t
    ensures |r| <= |s|
  {
    if s == [] then []
    else
      var p := Above(s[..|s| - 1], t);
      if s[|s| - 1] > t then p + [s[|s| - 1]] else p
  }

  /** `[x ** 2 for x in s]`. */
  function Squares(s: seq<int>): (r: seq<int>)
    ensures |r| == |s|
    ensures forall k :: 0 <= k < |s| ==> r[k] == s[k] * s[k]
  {
    if s == [] then [] else Squares(s[..|s| - 1]) + [s[|s| - 1] * s[|s| - 1]]
  }

  /** `[x ** 2 for x in s if x > t]`, the one-pass comprehension. */
  function FilterSquare(s: seq<int>, t: int): (r: seq<int>)
    ensures |r| <= |s|
    ensures r == [] <==> forall k :: 0 <= k < |s| ==> s[k] <= t
    ensures t >= 0 ==> forall k :: 0 <= k < |r| ==> r[k] > t * t
  {
    if s == [] then []
    else
      var p := FilterSquare(s[..|s| - 1], t);
      var x := s[|s| - 1];
      if x > t then
        assert t >= 0 ==> x * x > t * t by {
          if t >= 0 { assert x * x > t * x >= t * t; }
        }
        p + [x * x]
      else p
  }

  /** Filtering then squaring in two passes gives the one-pass comprehension. */
  lemma {:induction false} FilterSquareIsSquaresOfAbove(s: seq<int>, t: int)
    ensures FilterSquare(s, t) == Squares(Above(s, t))
  {
    if s != [] {
      var p := s[..|s| - 1];
      FilterSquareIsSquaresOfAbove(p, t);
      if s[|s| - 1] > t {
        assert Squares(Above(p, t) + [s[|s| - 1]]) == Squares(Above(p, t)) + [s[|s| - 1] * s[|s| - 1]] by {
          assert (Above(p, t) + [s[|s| - 1]])[..|Above(p, t)|] == Above(p, t);
        }
      }
    }
  }

  /** `sum(s)`, accumulated left to right. */
  function Sum(s: seq<int>): int {
    if s == [] then 0 else Sum(s[..|s| - 1]) + s[|s| - 1]
  }

  /** Loop steps of the comprehensions: position `i` joins the prefix before it. */
  lemma AboveStep(s: seq<int>, i: nat, t: int)
    requires i < |s|
    ensures Above(s[..i + 1], t) == if s[i] > t then Above(s[..i], t) + [s[i]] else Above(s[..i], t)
  {
    assert s[..i + 1][..i] == s[..i];
  }

  lemma SquaresStep(s: seq<int>, i: nat)
    requires i < |s|
    ensures Squares(s[..i + 1]) == Squares(s[..i]) + [s[i] * s[i]]
  {
    assert s[..i + 1][..i] == s[..i];
  }

  lemma SumStep(s: seq<int>, i: nat)
    requires i < |s|
    ensures Sum(s[..i + 1]) == Sum(s[..i]) + s[i]
  {
    assert s[..i + 1][..i] == s[..i];
  }

  lemma SumSnoc(s: seq<int>, x: int)
    ensures Sum(s + [x]) == Sum(s) + x
  {
    assert (s + [x])[..|s|] == s;
  }

  /** One more copy of `c`: the distributive step inductive proofs need. */
  lemma MultiplyOneMore(a: int, c: int)
    ensures (a + 1) * c == a * c + c
  {
  }
}
