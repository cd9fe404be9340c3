/** Model of examples/inefficient_example.py: the loop-and-list halves of
    the example pairs, each proved against a specification function. */
module InefficientExample {
  import opened Sequences

  /** `inefficient_list_search`: skip values already collected, append the
      rest, giving the distinct values in first-occurrence order. */
  method InefficientListSearch<T(==)>(data: seq<T>) returns (foundItems: seq<T>)
    ensures foundItems == Dedup(data)
    ensures NoDups(foundItems)
    ensures Elems(foundItems) == Elems(data)
  {
    foundItems := [];
    var i := 0;
    while i < |data|
      invariant 0 <= i <= |data|
      invariant foundItems == Dedup(data[..i])
    {
      var item := data[i];
      DedupStep(data, i);
      if item in foundItems {
        i := i + 1;
        continue;
      }
      foundItems := foundItems + [item];
      i := i + 1;
    }
    assert data[..|data|] == data;
    DedupDistinct(data);
    DedupElems(data);
  }

  // ---------------------------------------------------------------------
  // inefficient_nested_loops

  /** `n` copies of `x`. */
  function Copies<T>(x: T, n: nat): (r: seq<T>)
    ensures |r| == n
    ensures forall k :: 0 <= k < n ==> r[k] == x
  {
    if n == 0 then [] else Copies(x, n - 1) + [x]
  }

  /** What the double loop emits: for each `item1` of `list1`, in order, one
      copy per equal element of `list2`. */
  function NestedMatches<T(==)>(list1: seq<T>, list2: seq<T>): seq<T> {
    if list1 == [] then []
    else
      var x := list1[|list1| - 1];
      NestedMatches(list1[..|list1| - 1], list2) + Copies(x, multiset(list2)[x])
  }

  method InefficientNestedLoops<T(==)>(list1: seq<T>, list2: seq<T>) returns (matches: seq<T>)
    ensures matches == NestedMatches(list1, list2)
  {
    matches := [];
    var i := 0;
    while i < |list1|
      invariant 0 <= i <= |list1|
      invariant matches == NestedMatches(list1[..i], list2)
    {
      NestedMatchesStep(list1, i, list2);
      matches := AppendMatches(list1[i], list2, matches);
      i := i + 1;
    }
    assert list1[..|list1|] == list1;
  }

  /** The inner loop for one `item1`: one copy of it per equal element of
      `list2`, appended in place. */
  method AppendMatches<T(==)>(item1: T, list2: seq<T>, before: seq<T>) returns (matches: seq<T>)
    ensures matches == before + Copies(item1, multiset(list2)[item1])
  {
    matches := before;
    var j := 0;
    while j < |list2|
      invariant 0 <= j <= |list2|
      invariant matches == before + Copies(item1, multiset(list2[..j])[item1])
    {
      var item2 := list2[j];
      SplitAt(list2, j);
      if item1 == item2 {
        matches := matches + [item1];
      }
      j := j + 1;
    }
    assert list2[..|list2|] == list2;
  }

  /** A value is emitted exactly when it occurs in both lists. */
  lemma {:induction false} NestedMatchesMembers<T>(list1: seq<T>, list2: seq<T>, x: T)
    ensures x in NestedMatches(list1, list2) <==> x in list1 && x in list2
  {
    if list1 != [] {
      var p, y := list1[..|list1| - 1], list1[|list1| - 1];
      NestedMatchesMembers(p, list2, x);
      assert list1 == p + [y];
      assert x in Copies(y, multiset(list2)[y]) <==> x == y && x in list2 by {
        if x == y && x in list2 {
          assert Copies(y, multiset(list2)[y])[0] == x;
        }
      }
    }
  }

  /** A value is emitted as many times as the product of its counts in the
      two lists. */
  lemma {:induction false} NestedMatchesMultiplicity<T>(list1: seq<T>, list2: seq<T>, x: T)
    ensures multiset(NestedMatches(list1, list2))[x] == multiset(list1)[x] * multiset(list2)[x]
  {
    if list1 != [] {
      var p := list1[..|list1| - 1];
      NestedMatchesMultiplicity(p, list2, x);
      NestedMatchesLast(list1, list2, x);
      CountStep(multiset(NestedMatches(p, list2))[x], multiset(p)[x], multiset(list2)[x],
                multiset(NestedMatches(list1, list2))[x], multiset(list1)[x], x == list1[|list1| - 1]);
    }
  }

  /** The arithmetic of one induction step: one more occurrence in `list1`
      adds `c` more matches. */
  lemma CountStep(before: nat, a: nat, c: nat, count: nat, n1: nat, same: bool)
    requires before == a * c
    requires count == before + (if same then c else 0)
    requires n1 == a + (if same then 1 else 0)
    ensures count == n1 * c
  {
    if same {
      MultiplyOneMore(a, c);
    }
  }

  /** The last element of `list1` adds its copies to the count of `x`. */
  lemma NestedMatchesLast<T>(list1: seq<T>, list2: seq<T>, x: T)
    requires list1 != []
    ensures var p, y := list1[..|list1| - 1], list1[|list1| - 1];
            multiset(NestedMatches(list1, list2))[x]
              == multiset(NestedMatches(p, list2))[x] + (if x == y then multiset(list2)[x] else 0)
            && multiset(list1)[x] == multiset(p)[x] + (if x == y then 1 else 0)
  {
    var p, y := list1[..|list1| - 1], list1[|list1| - 1];
    assert list1 == p + [y];
    CopiesMultiplicity(y, multiset(list2)[y], x);
    assert NestedMatches(list1, list2) == NestedMatches(p, list2) + Copies(y, multiset(list2)[y]);
  }

  /** One outer iteration of the double loop appends the copies for `list1[i]`. */
  lemma NestedMatchesStep<T>(list1: seq<T>, i: nat, list2: seq<T>)
    requires i < |list1|
    ensures NestedMatches(list1[..i + 1], list2)
         == NestedMatches(list1[..i], list2) + Copies(list1[i], multiset(list2)[list1[i]])
  {
    assert list1[..i + 1][..i] == list1[..i];
  }

  lemma {:induction false} CopiesMultiplicity<T>(y: T, n: nat, x: T)
    ensures multiset(Copies(y, n))[x] == if x == y then n else 0
  {
    if n > 0 {
      CopiesMultiplicity(y, n - 1, x);
    }
  }

  // ---------------------------------------------------------------------
  // inefficient_data_processing: filter pass, square pass, sum pass

  method InefficientDataProcessing(data: seq<int>) returns (total: int)
    ensures total == Sum(Squares(Above(data, 0)))
  {
    var filtered := KeepPositive(data);
    var squared := SquareEach(filtered);
    total := AddUp(squared);
  }

  /** First loop: keep the positive items. It is the same loop as the first
      pass of `filter_and_transform` with threshold 0 (`DataProcessor.FilterPass`),
      written again here because this file does not use data_processor.py. */
  method KeepPositive(data: seq<int>) returns (filtered: seq<int>)
    ensures filtered == Above(data, 0)
  {
    filtered := [];
    var i := 0;
    while i < |data|
      invariant 0 <= i <= |data|
      invariant filtered == Above(data[..i], 0)
    {
      AboveStep(data, i, 0);
      if data[i] > 0 {
        filtered := filtered + [data[i]];
      }
      i := i + 1;
    }
    assert data[..|data|] == data;
  }

  /** Second loop: square each kept item; the same loop as
      `DataProcessor.SquarePass`, kept here with the file it belongs to. */
  method SquareEach(filtered: seq<int>) returns (squared: seq<int>)
    ensures squared == Squares(filtered)
  {
    squared := [];
    var i := 0;
    while i < |filtered|
      invariant 0 <= i <= |filtered|
      invariant squared == Squares(filtered[..i])
    {
      SquaresStep(filtered, i);
      squared := squared + [filtered[i] * filtered[i]];
      i := i + 1;
    }
    assert filtered[..|filtered|] == filtered;
  }

  /** Third loop: add the squares up. */
  method AddUp(squared: seq<int>) returns (total: int)
    ensures total == Sum(squared)
  {
    total := 0;
    var i := 0;
    while i < |squared|
      invariant 0 <= i <= |squared|
      invariant total == Sum(squared[..i])
    {
      SumStep(squared, i);
      total := total + squared[i];
      i := i + 1;
    }
    assert squared[..|squared|] == squared;
  }

  /** `inefficient_dictionary_lookup`: test for the key, then increment or
      start at 1. */
  method InefficientDictionaryLookup<T(==)>(data: seq<T>) returns (results: map<T, nat>)
    ensures results == Occurrences(data)
    ensures forall k :: 0 <= k < |data| ==> data[k] in results
  {
    results := map[];
    var i := 0;
    while i < |data|
      invariant 0 <= i <= |data|
      invariant results == Occurrences(data[..i])
    {
      var item := data[i];
      assert data[..i + 1] == data[..i] + [item];
      OccurrencesSnoc(data[..i], item);
      if item in results {
        results := results[item := results[item] + 1];
      } else {
        results := results[item := 1];
      }
      i := i + 1;
    }
    assert data[..|data|] == data;
    forall k | 0 <= k < |data|
      ensures data[k] in results
    {
      OccurrencesCounts(data, data[k]);
    }
  }

  /** `InefficientDataStructure`: membership kept in a Python list that
      never holds a value twice. */
  class InefficientDataStructure<T(==)> {
    var items: seq<T>

    ghost predicate Valid()
      reads this
    {
      NoDups(items)
    }

    constructor ()
      ensures Valid() && items == []
    {
      items := [];
    }

    /** `has_item`: list membership. */
    predicate HasItem(item: T)
      reads this
    {
      item in items
    }

    /** `add_item`: append only when absent. */
    method AddItem(item: T)
      requires Valid()
      modifies this
      ensures Valid()
      ensures items == if item in old(items) then old(items) else old(items) + [item]
      ensures HasItem(item)
      ensures Elems(items) == Elems(old(items)) + {item}
    {
      if item !in items {
        items := items + [item];
      }
    }

    /** `remove_item`: `list.remove` of a present item; a no-op otherwise. */
    method RemoveItem(item: T)
      requires Valid()
      modifies this
      ensures Valid()
      ensures items == if item in old(items) then RemoveFirst(old(items), item) else old(items)
      ensures !HasItem(item)
      ensures Elems(items) == Elems(old(items)) - {item}
    {
      if item in items {
        RemoveFirstDistinct(items, item);
        items := RemoveFirst(items, item);
      }
    }
  }
}
