/** Model of examples/efficient_example.py: the set-, builtin- and
    comprehension-based halves of the example pairs. Python sets are `set`,
    `list(some_set)` is `ListOfSet` (order left open), dictionaries are `map`. */
module EfficientExample {
  import opened Sequences

  /** `efficient_list_search`: `list(set(data))`, every distinct value once. */
  method EfficientListSearch<T(==)>(data: seq<T>) returns (r: seq<T>)
    ensures NoDups(r)
    ensures Elems(r) == Elems(data)
    ensures |r| == |Elems(data)|
  {
    r := ListOfSet(Elems(data));
  }

  /** `efficient_nested_loops`: `list(set(list1) & set(list2))`. */
  method EfficientNestedLoops<T(==)>(list1: seq<T>, list2: seq<T>) returns (r: seq<T>)
    ensures NoDups(r)
    ensures Elems(r) == Elems(list1) * Elems(list2)
  {
    r := ListOfSet(Elems(list1) * Elems(list2));
  }

  /** A sum of positive numbers is never negative, and is zero only for
      the empty list. */
  lemma {:induction false} SumOfPositives(s: seq<int>)
    requires forall k :: 0 <= k < |s| ==> s[k] > 0
    ensures Sum(s) >= 0
    ensures Sum(s) == 0 <==> s == []
  {
    if s != [] {
      var p := s[..|s| - 1];
      assert forall k :: 0 <= k < |p| ==> p[k] == s[k];
      SumOfPositives(p);
    }
  }

  /** The one-pass sum of the squares of the positive items is never
      negative, and is zero exactly when no item is positive. */
  lemma PositiveSquareSum(data: seq<int>)
    ensures Sum(FilterSquare(data, 0)) >= 0
    ensures Sum(FilterSquare(data, 0)) == 0 <==> forall k :: 0 <= k < |data| ==> data[k] <= 0
  {
    SumOfPositives(FilterSquare(data, 0));
  }

  /** `efficient_data_processing`: `sum(item ** 2 for item in data if item > 0)`. */
  function EfficientDataProcessing(data: seq<int>): (r: int)
    ensures r >= 0
    ensures r == 0 <==> forall k :: 0 <= k < |data| ==> data[k] <= 0
  {
    PositiveSquareSum(data);
    Sum(FilterSquare(data, 0))
  }

  /** `efficient_dictionary_lookup`: `results[item] = results.get(item, 0) + 1`. */
  method EfficientDictionaryLookup<T(==)>(data: seq<T>) returns (results: map<T, nat>)
    ensures results == Occurrences(data)
    ensures results == EfficientDictionaryLookupCounter(data)
  {
    results := map[];
    var i := 0;
    while i < |data|
      invariant 0 <= i <= |data|
      invariant results == Occurrences(data[..i])
    {
      var item := data[i];
      assert data[..i + 1] == data[..i] + [item];
      OccurrencesSnoc(data[..i], item);
      results := results[item := (if item in results then results[item] else 0) + 1];
      i := i + 1;
    }
    assert data[..|data|] == data;
    OccurrencesIsCounter(data);
  }

  /** `dict(Counter(data))`: each distinct value mapped to its multiplicity. */
  function EfficientDictionaryLookupCounter<T(==)>(data: seq<T>): (r: map<T, nat>)
    ensures r.Keys == Elems(data)
    ensures forall k :: 0 <= k < |data| ==> r[data[k]] == multiset(data)[data[k]]
  {
    map x | x in Elems(data) :: multiset(data)[x]
  }

  /** A counting loop builds the same dictionary as `Counter`. */
  lemma OccurrencesIsCounter<T>(data: seq<T>)
    ensures Occurrences(data) == EfficientDictionaryLookupCounter(data)
  {
    var o, c := Occurrences(data), EfficientDictionaryLookupCounter(data);
    forall x
      ensures x in o <==> x in c
      ensures x in o ==> o[x] == c[x]
    {
      OccurrencesCounts(data, x);
    }
  }

  /** `EfficientDataStructure`: membership kept in a Python set. */
  class EfficientDataStructure<T(==)> {
    var items: set<T>

    constructor ()
      ensures items == {}
    {
      items := {};
    }

    /** `has_item`: set membership. */
    predicate HasItem(item: T)
      reads this
    {
      item in items
    }

    /** `add_item`: `set.add`, so adding a present item changes nothing. */
    method AddItem(item: T)
      modifies this
      ensures items == old(items) + {item}
      ensures HasItem(item)
      ensures forall y :: y != item ==> (HasItem(y) <==> y in old(items))
    {
      items := items + {item};
    }

    /** `remove_item`: `set.discard`, a no-op for an absent item. */
    method RemoveItem(item: T)
      modifies this
      ensures items == old(items) - {item}
      ensures !HasItem(item)
      ensures forall y :: y != item ==> (HasItem(y) <==> y in old(items))
    {
      items := items - {item};
    }
  }

  /** `efficient_list_comprehension`: `[item ** 2 for item in data if item > 0]`,
      the squares of the positive items in input order. */
  function EfficientListComprehension(data: seq<int>): (r: seq<int>)
    ensures r == Squares(Above(data, 0))
    ensures forall k :: 0 <= k < |r| ==> r[k] > 0
  {
    FilterSquareIsSquaresOfAbove(data, 0);
    FilterSquare(data, 0)
  }

  /** `efficient_membership_testing`: the items of `checkItems`, in order,
      that occur in `items`. */
  function EfficientMembershipTesting<T(==)>(items: seq<T>, checkItems: seq<T>): (r: seq<T>)
    ensures |r| <= |checkItems|
    ensures forall k :: 0 <= k < |r| ==> r[k] in items
  {
    if checkItems == [] then []
    else
      var p := EfficientMembershipTesting(items, checkItems[..|checkItems| - 1]);
      var last := checkItems[|checkItems| - 1];
      if last in Elems(items) then p + [last] else p
  }

  /** Each value of `checkItems` found in `items` is kept as often as it
      occurs there; every other value is dropped. */
  lemma {:induction false} MembershipMultiplicity<T>(items: seq<T>, checkItems: seq<T>, x: T)
    ensures multiset(EfficientMembershipTesting(items, checkItems))[x]
         == if x in items then multiset(checkItems)[x] else 0
  {
    if checkItems != [] {
      var p := checkItems[..|checkItems| - 1];
      MembershipMultiplicity(items, p, x);
      assert checkItems == p + [checkItems[|checkItems| - 1]];
    }
  }
}
