/** Model of data_processor_optimized.py: `OptimizedDataProcessor`, the
    version of the record/sequence engine that uses sets, builtins, a lazily
    built secondary index and a memo table.

    The three operations that touch the processor's state (`search_records`,
    the memoized `compute_fibonacci` and `clear_cache`) are methods of the
    class below; the operations that read no state live at module level. */
module DataProcessorOptimized {
  import opened Wrappers
  import opened Sequences
  import opened Strings
  import opened Records
  import opened Matrices
  import DataProcessor

  // ---------------------------------------------------------------------
  // find_duplicates: one pass with a `seen` set and a `duplicates` set

  /** `find_duplicates`: every value occurring at least twice, each once, in
      an order the model leaves open (`list(duplicates)`). */
  method FindDuplicates<T(==)>(items: seq<T>) returns (r: seq<T>)
    ensures NoDups(r)
    ensures Elems(r) == DuplicatedValues(items)
  {
    var seen: set<T> := {};
    var duplicates: set<T> := {};
    var i := 0;
    while i < |items|
      invariant 0 <= i <= |items|
      invariant seen == Elems(items[..i])
      invariant duplicates == DuplicatedValues(items[..i])
    {
      var item := items[i];
      assert items[..i + 1] == items[..i] + [item];
      ElemsSnoc(items[..i], item);
      DuplicatedValuesSnoc(items[..i], item);
      if item in seen {
        duplicates := duplicates + {item};
      } else {
        seen := seen + {item};
      }
      i := i + 1;
    }
    assert items[..|items|] == items;
    r := ListOfSet(duplicates);
  }

  // ---------------------------------------------------------------------
  // filter_and_transform: comprehension, then the builtin sort

  /** `sorted([x ** 2 for x in data if x > threshold])`. */
  function FilterAndTransform(data: seq<int>, threshold: int): (r: seq<int>)
    ensures SortedAsc(r)
    ensures multiset(r) == multiset(FilterSquare(data, threshold))
    ensures r == [] <==> forall k :: 0 <= k < |data| ==> data[k] <= threshold
  {
    SortedOf(FilterSquare(data, threshold))
  }

  // ---------------------------------------------------------------------
  // search_records: the lazily built secondary index

  /** `index.get(v, [])`. */
  function Bucket(ix: map<Value, seq<Record>>, v: Value): seq<Record> {
    if v in ix then ix[v] else []
  }

  /** The dictionary the build loop produces for `key` from `records`: each
      value maps to the records holding it under `key`, in their order, and
      only values that occur are keys. */
  function BuildIndex(records: seq<Record>, key: string): (ix: map<Value, seq<Record>>)
    ensures forall v :: v in ix ==> ix[v] != []
    ensures forall v :: Bucket(ix, v) == Matching(records, key, v)
  {
    if records == [] then map[]
    else
      var p := BuildIndex(records[..|records| - 1], key);
      var last := records[|records| - 1];
      if key in last then p[last[key] := Bucket(p, last[key]) + [last]] else p
  }

  /** One iteration of the build loop, written the way the loop writes it:
      create an empty bucket when the value is new, then append. */
  lemma BuildIndexStep(records: seq<Record>, i: nat, key: string)
    requires i < |records| && key in records[i]
    ensures var p := BuildIndex(records[..i], key);
            var v := records[i][key];
            var q := if v !in p then p[v := []] else p;
            BuildIndex(records[..i + 1], key) == q[v := q[v] + [records[i]]]
  {
    assert records[..i + 1][..i] == records[..i];
  }

  /** The build loop of `search_records`: `self.index[search_key] = {}`,
      filled record by record through that same dictionary. */
  method FillIndex(records: seq<Record>, searchKey: string) returns (built: map<Value, seq<Record>>)
    ensures built == BuildIndex(records, searchKey)
  {
    built := map[];
    var i := 0;
    while i < |records|
      invariant 0 <= i <= |records|
      invariant built == BuildIndex(records[..i], searchKey)
    {
      var myRecord := records[i];
      if searchKey in myRecord {
        BuildIndexStep(records, i, searchKey);
        var keyVal := myRecord[searchKey];
        if keyVal !in built {
          built := built[keyVal := []];
        }
        built := built[keyVal := built[keyVal] + [myRecord]];
      } else {
        assert records[..i + 1][..i] == records[..i];
      }
      i := i + 1;
    }
    assert records[..|records|] == records;
  }

  class OptimizedDataProcessor {
    /** `self.index`: one dictionary per search key that was ever used. */
    var index: map<string, map<Value, seq<Record>>>
    /** The `lru_cache` of `compute_fibonacci`, as an explicit memo table. */
    var fibCache: map<int, int>
    /** The records each index was built from, on the call that built it. */
    ghost var builtFrom: map<string, seq<Record>>

    ghost predicate Valid()
      reads this
    {
      index.Keys == builtFrom.Keys
      && (forall key :: key in index ==> index[key] == BuildIndex(builtFrom[key], key))
      && (forall n :: n in fibCache ==> fibCache[n] == DataProcessor.Fib(n))
    }

    constructor ()
      ensures Valid()
      ensures index == map[] && fibCache == map[] && builtFrom == map[]
    {
      index := map[];
      fibCache := map[];
      builtFrom := map[];
    }

    /** `search_records`: builds the index for `searchKey` from `records`
        only if there is none yet, then looks `searchValue` up in it. */
    method SearchRecords(records: seq<Record>, searchKey: string, searchValue: Value)
      returns (result: seq<Record>)
      requires Valid()
      modifies this
      ensures Valid()
      ensures fibCache == old(fibCache)
      ensures searchKey in old(index) ==> index == old(index) && builtFrom == old(builtFrom)
      ensures searchKey !in old(index) ==>
                builtFrom == old(builtFrom)[searchKey := records]
                && index == old(index)[searchKey := BuildIndex(records, searchKey)]
      ensures forall key :: key in old(index) ==> key in index && index[key] == old(index)[key]
      ensures result == Matching(builtFrom[searchKey], searchKey, searchValue)
    {
      if searchKey !in index {
        var built := FillIndex(records, searchKey);
        index := index[searchKey := built];
        builtFrom := builtFrom[searchKey := records];
        forall key | key in index
          ensures index[key] == BuildIndex(builtFrom[key], key)
        {
          if key != searchKey {
            assert index[key] == old(index)[key] && builtFrom[key] == old(builtFrom)[key];
          }
        }
      }
      result := Bucket(index[searchKey], searchValue);
    }

    /** `compute_fibonacci` behind `lru_cache`: a hit returns the stored
        value, a miss recurses and stores the result (for every `n`). */
    method ComputeFibonacci(n: int) returns (r: int)
      requires Valid()
      modifies this
      ensures Valid()
      ensures r == DataProcessor.Fib(n)
      ensures n in fibCache && old(fibCache).Keys <= fibCache.Keys
      ensures index == old(index) && builtFrom == old(builtFrom)
      decreases n
    {
      if n in fibCache {
        return fibCache[n];
      }
      if n <= 1 {
        r := n;
      } else {
        var a := ComputeFibonacci(n - 1);
        var b := ComputeFibonacci(n - 2);
        r := a + b;
      }
      fibCache := fibCache[n := r];
    }

    /** `clear_cache`: forgets every index and every memoized value. */
    method ClearCache()
      modifies this
      ensures Valid()
      ensures index == map[] && fibCache == map[] && builtFrom == map[]
    {
      index := map[];
      fibCache := map[];
      builtFrom := map[];
    }
  }

  /** The stale-index behaviour: once "k" is indexed from one list, a search
      passing a different list is still answered from the first one. */
  method StaleIndexExample() returns (first: seq<Record>, second: seq<Record>)
    ensures first == [map["k" := Str("b")]]
    ensures second == []
    ensures Matching([map["k" := Str("c")]], "k", Str("c")) == [map["k" := Str("c")]]
  {
    var p := new OptimizedDataProcessor();
    var a: Record := map["k" := Str("a")];
    var b: Record := map["k" := Str("b")];
    var c: Record := map["k" := Str("c")];
    first := p.SearchRecords([a, b], "k", Str("b"));
    assert [a, b][..1] == [a];
    assert HasValue(b, "k", Str("b")) && !HasValue(a, "k", Str("b"));
    second := p.SearchRecords([c], "k", Str("c"));
    assert !HasValue(a, "k", Str("c")) && !HasValue(b, "k", Str("c"));
    assert [c][..0] == [];
  }

  // ---------------------------------------------------------------------
  // merge_datasets (hashable items): extend twice, then list(set(merged))

  method MergeDatasets<T(==)>(dataset1: seq<T>, dataset2: seq<T>) returns (r: seq<T>)
    ensures NoDups(r)
    ensures Elems(r) == Elems(dataset1) + Elems(dataset2)
  {
    var merged := dataset1 + dataset2;
    assert Elems(merged) == Elems(dataset1) + Elems(dataset2);
    r := ListOfSet(Elems(merged));
  }

  // ---------------------------------------------------------------------
  // string_operations and matrix_multiply

  /** `" ".join(words)`: the words with one space between neighbours. */
  function StringOperations(words: seq<string>): (r: string)
    ensures words == [] ==> r == ""
    ensures words != [] ==> |r| == TotalLength(words) + |words| - 1
  {
    Join(words, " ")
  }

  /** The list-comprehension product. `len(matrix1[0])` and `len(matrix2[0])`
      raise IndexError on an empty matrix; mismatched dimensions raise
      ValueError; a row too short for the comprehension's indexing raises
      IndexError. */
  function MatrixMultiply(matrix1: Matrix, matrix2: Matrix): (r: Result<Matrix>)
    ensures matrix1 == [] || matrix2 == [] ==> r == Err(IndexError(DataProcessor.IndexMessage))
    ensures matrix1 != [] && matrix2 != [] && |matrix1[0]| != |matrix2|
            ==> r == Err(ValueError(DataProcessor.DimensionMessage))
    ensures r.Ok? <==> Multipliable(matrix1, matrix2)
    ensures r.Ok? ==> |r.value| == |matrix1|
                      && forall i :: 0 <= i < |matrix1| ==> |r.value[i]| == |matrix2[0]|
    ensures r.Ok? ==> forall i, j :: 0 <= i < |matrix1| && 0 <= j < |matrix2[0]| ==>
                        r.value[i][j] == Dot(matrix1[i], matrix2, j, |matrix1[0]|)
  {
    if matrix1 == [] || matrix2 == [] then Err(IndexError(DataProcessor.IndexMessage))
    else if |matrix1[0]| != |matrix2| then Err(ValueError(DataProcessor.DimensionMessage))
    else if !Multipliable(matrix1, matrix2) then Err(IndexError(DataProcessor.IndexMessage))
    else Ok(Product(matrix1, matrix2))
  }
}
