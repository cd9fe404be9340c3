/** The "Results match" comparisons of benchmark.py between the inefficient
    and efficient example functions, and the data-structure benchmark that
    fills both membership structures with the same items. */
module ExampleAgreement {
  import opened Sequences
  import EfficientExample
  import InefficientExample

  /** Duplicate removal: the same set and the same length (benchmark.py:70). */
  method ListSearchAgree<T(==)>(data: seq<T>) returns (slow: seq<T>, fast: seq<T>)
    ensures Elems(slow) == Elems(fast)
    ensures |slow| == |fast|
  {
    slow := InefficientExample.InefficientListSearch(data);
    fast := EfficientExample.EfficientListSearch(data);
    DistinctCard(slow);
  }

  /** The elements the double loop emits form the set intersection. */
  lemma NestedMatchesElems<T>(list1: seq<T>, list2: seq<T>)
    ensures Elems(InefficientExample.NestedMatches(list1, list2)) == Elems(list1) * Elems(list2)
  {
    var m := InefficientExample.NestedMatches(list1, list2);
    var want := Elems(list1) * Elems(list2);
    forall x
      ensures x in Elems(m) <==> x in want
    {
      InefficientExample.NestedMatchesMembers(list1, list2, x);
    }
    assert Elems(m) == want;
  }

  /** Common elements: the same set (benchmark.py:79). */
  method NestedLoopsAgree<T(==)>(list1: seq<T>, list2: seq<T>) returns (slow: seq<T>, fast: seq<T>)
    ensures Elems(slow) == Elems(fast) == Elems(list1) * Elems(list2)
  {
    slow := InefficientExample.InefficientNestedLoops(list1, list2);
    fast := EfficientExample.EfficientNestedLoops(list1, list2);
    NestedMatchesElems(list1, list2);
  }

  /** Filter, square, sum: the same number (benchmark.py:87). */
  method DataProcessingAgree(data: seq<int>) returns (slow: int, fast: int)
    ensures slow == fast
    ensures slow >= 0
  {
    slow := InefficientExample.InefficientDataProcessing(data);
    fast := EfficientExample.EfficientDataProcessing(data);
    FilterSquareIsSquaresOfAbove(data, 0);
  }

  /** Counting: the same dictionary as `Counter` (benchmark.py:95), and the
      same as the `get`-based counting loop. */
  method DictionaryLookupAgree<T(==)>(data: seq<T>) returns (slow: map<T, nat>, viaGet: map<T, nat>)
    ensures slow == viaGet == EfficientExample.EfficientDictionaryLookupCounter(data)
  {
    slow := InefficientExample.InefficientDictionaryLookup(data);
    viaGet := EfficientExample.EfficientDictionaryLookup(data);
  }

  /** `test_inefficient_ds`: adding the items one by one leaves each once,
      in first-insertion order. */
  method FillInefficient<T(==)>(adds: seq<T>) returns (ds: InefficientExample.InefficientDataStructure<T>)
    ensures fresh(ds) && ds.Valid()
    ensures ds.items == Dedup(adds)
  {
    ds := new InefficientExample.InefficientDataStructure<T>();
    var i := 0;
    while i < |adds|
      invariant 0 <= i <= |adds|
      invariant ds.Valid()
      invariant ds.items == Dedup(adds[..i])
    {
      DedupStep(adds, i);
      ds.AddItem(adds[i]);
      i := i + 1;
    }
    assert adds[..|adds|] == adds;
  }

  /** `test_efficient_ds`: adding the items one by one leaves the set of them. */
  method FillEfficient<T(==)>(adds: seq<T>) returns (ds: EfficientExample.EfficientDataStructure<T>)
    ensures fresh(ds)
    ensures ds.items == Elems(adds)
  {
    ds := new EfficientExample.EfficientDataStructure<T>();
    var i := 0;
    while i < |adds|
      invariant 0 <= i <= |adds|
      invariant ds.items == Elems(adds[..i])
    {
      SplitAt(adds, i);
      ElemsSnoc(adds[..i], adds[i]);
      ds.AddItem(adds[i]);
      i := i + 1;
    }
    assert adds[..|adds|] == adds;
  }

  /** The data-structure benchmark: adding the same items to both structures
      leaves the list holding each item once, in first-insertion order, and
      the set holding the same items, so every `has_item` answers alike. */
  method DataStructureAgree<T(==)>(adds: seq<T>, probe: T)
    returns (listItems: seq<T>, setItems: set<T>, listHas: bool, setHas: bool)
    ensures listItems == Dedup(adds)
    ensures NoDups(listItems)
    ensures Elems(listItems) == setItems == Elems(adds)
    ensures listHas == setHas == (probe in adds)
  {
    var slow := FillInefficient(adds);
    var fast := FillEfficient(adds);
    DedupElems(adds);
    listItems, setItems := slow.items, fast.items;
    listHas, setHas := slow.HasItem(probe), fast.HasItem(probe);
  }
}
