/** data_processor.py: the "slow" `DataProcessor`. Its methods keep no state
    between calls (the `data` and `cache` attributes are never used by the
    modelled methods), so each becomes a module-level method whose loops are
    those of the source, proved against a specification function. */
module DataProcessor {
  import opened Wrappers
  import opened Sequences
  import opened Strings
  import opened Records
  import opened Matrices

  /** `find_duplicates`: the nested index loops append `items[i]` when a later
      position holds the same value and it is not yet in `duplicates`. The
      result lists each repeated value once, at its first occurrence. */
  method FindDuplicates<T(==)>(items: seq<T>) returns (duplicates: seq<T>)
    ensures duplicates == Repeated(Dedup(items), items)
    ensures NoDups(duplicates)
    ensures Elems(duplicates) == DuplicatedValues(items)
  {
    duplicates := [];
    var i := 0;
    while i < |items|
      invariant 0 <= i <= |items|
      invariant duplicates == Repeated(Dedup(items[..i]), items)
    {
      ghost var before := duplicates;
      duplicates := ScanLater(items, i, duplicates);
      FindDuplicatesStep(items, i, before);
      i := i + 1;
    }
    assert items[..|items|] == items;
    DuplicatesAreRepeatedValues(items);
  }

  /** The inner loop of `find_duplicates` for position `i`: `items[i]` is
      appended once if a later position holds the same value and it is not
      listed yet. */
  method ScanLater<T(==)>(items: seq<T>, i: nat, before: seq<T>) returns (duplicates: seq<T>)
    requires i < |items|
    ensures duplicates == if items[i] !in before && items[i] in items[i + 1..] then before + [items[i]] else before
  {
    duplicates := before;
    var j := i + 1;
    while j < |items|
      invariant i + 1 <= j <= |items|
      invariant duplicates == if items[i] !in before && items[i] in items[i + 1..j] then before + [items[i]] else before
    {
      assert items[i + 1..j + 1] == items[i + 1..j] + [items[j]];
      if items[i] == items[j] && items[i] !in duplicates {
        duplicates := duplicates + [items[i]];
      }
      j := j + 1;
    }
    assert items[i + 1..j] == items[i + 1..];
  }

  /** One outer iteration of `find_duplicates` extends the result exactly as
      the specification does. */
  lemma FindDuplicatesStep<T>(items: seq<T>, i: nat, before: seq<T>)
    requires i < |items|
    requires before == Repeated(Dedup(items[..i]), items)
    ensures Repeated(Dedup(items[..i + 1]), items)
         == if items[i] !in before && items[i] in items[i + 1..] then before + [items[i]] else before
  {
    var p, x, q := items[..i], items[i], items[i + 1..];
    SplitAt(items, i);
    assert multiset(items) == multiset(p) + multiset{x} + multiset(q);
    DedupSnoc(p, x);
    DedupMembers(p, x);
    RepeatedMembers(Dedup(p), items, x);
    if x in p {
      assert multiset(p)[x] >= 1;
    } else {
      assert multiset(p)[x] == 0;
      RepeatedSnoc(Dedup(p), x, items);
    }
  }

  /** The values of `Repeated(Dedup(items), items)` are exactly those occurring
      at least twice, each once. */
  lemma DuplicatesAreRepeatedValues<T>(items: seq<T>)
    ensures NoDups(Repeated(Dedup(items), items))
    ensures Elems(Repeated(Dedup(items), items)) == DuplicatedValues(items)
  {
    DedupDistinct(items);
    RepeatedDistinct(Dedup(items), items);
    var r := Repeated(Dedup(items), items);
    var want := DuplicatedValues(items);
    forall x
      ensures x in Elems(r) <==> x in want
    {
      RepeatedMembers(Dedup(items), items, x);
      DedupMembers(items, x);
    }
    assert Elems(r) == want;
  }

  // ---------------------------------------------------------------------
  // filter_and_transform: three passes and a hand-written insertion sort

  /** Python's `sorted_data.insert(k, item)` at the first element larger than
      `item` keeps the list ascending and adds exactly `item`. */
  lemma InsertBeforeLarger(l: seq<int>, k: nat, item: int)
    requires SortedAsc(l) && k < |l|
    requires forall m :: 0 <= m < k ==> l[m] <= item
    requires item < l[k]
    ensures SortedAsc(l[..k] + [item] + l[k..])
    ensures multiset(l[..k] + [item] + l[k..]) == multiset(l) + multiset{item}
  {
    var r := l[..k] + [item] + l[k..];
    assert l == l[..k] + l[k..];
    assert forall m :: 0 <= m < k ==> r[m] == l[m];
    assert forall m :: k < m < |r| ==> r[m] == l[m - 1];
    forall a, b | 0 <= a < b < |r|
      ensures r[a] <= r[b]
    {
      if b < k {
      } else if a < k {
        assert r[a] <= item <= r[b];
      } else if a == k {
        assert l[k] <= l[b - 1];
      } else {
        assert r[a] == l[a - 1] && r[b] == l[b - 1];
      }
    }
  }

  /** First pass of `filter_and_transform`: keep the items above the threshold. */
  method FilterPass(data: seq<int>, threshold: int) returns (filtered: seq<int>)
    ensures filtered == Above(data, threshold)
  {
    filtered := [];
    var i := 0;
    while i < |data|
      invariant 0 <= i <= |data|
      invariant filtered == Above(data[..i], threshold)
    {
      AboveStep(data, i, threshold);
      if data[i] > threshold {
        filtered := filtered + [data[i]];
      }
      i := i + 1;
    }
    assert data[..|data|] == data;
  }

  /** Second pass: square every kept item. */
  method SquarePass(filtered: seq<int>) returns (squared: seq<int>)
    ensures squared == Squares(filtered)
  {
    squared := [];
    var i := 0;
    while i < |filtered|
      invariant 0 <= i <= |filtered|
      invariant squared == Squares(filtered[..i])
    {
      SquaresStep(filtered, i);
      squared := squared + [filtered[i] * filtered[i]];
      i := i + 1;
    }
    assert filtered[..|filtered|] == filtered;
  }

  /** Third pass: the hand-written insertion sort, which puts each item
      before the first strictly larger one already placed. */
  method InsertionSortPass(squared: seq<int>) returns (sortedData: seq<int>)
    ensures SortedAsc(sortedData)
    ensures multiset(sortedData) == multiset(squared)
  {
    sortedData := [];
    var i := 0;
    while i < |squared|
      invariant 0 <= i <= |squared|
      invariant SortedAsc(sortedData)
      invariant multiset(sortedData) == multiset(squared[..i])
    {
      var item := squared[i];
      SplitAt(squared, i);
      ghost var before := sortedData;
      var inserted := false;
      var k := 0;
      while k < |sortedData|
        invariant 0 <= k <= |sortedData|
        invariant sortedData == before && !inserted
        invariant forall m :: 0 <= m < k ==> sortedData[m] <= item
      {
        if item < sortedData[k] {
          InsertBeforeLarger(sortedData, k, item);
          sortedData := sortedData[..k] + [item] + sortedData[k..];
          inserted := true;
          break;
        }
        k := k + 1;
      }
      if !inserted {
        sortedData := sortedData + [item];
      }
      assert SortedAsc(sortedData) && multiset(sortedData) == multiset(before) + multiset{item};
      i := i + 1;
    }
    assert squared[..|squared|] == squared;
  }

  /** `filter_and_transform`: the squares of the items above the threshold,
      ascending; the same list `sorted` would return. */
  method FilterAndTransform(data: seq<int>, threshold: int) returns (sortedData: seq<int>)
    ensures SortedAsc(sortedData)
    ensures multiset(sortedData) == multiset(FilterSquare(data, threshold))
    ensures sortedData == SortedOf(FilterSquare(data, threshold))
  {
    var filtered := FilterPass(data, threshold);
    var squared := SquarePass(filtered);
    sortedData := InsertionSortPass(squared);
    FilterSquareIsSquaresOfAbove(data, threshold);
    SortedUnique(sortedData, SortedOf(FilterSquare(data, threshold)));
  }

  // ---------------------------------------------------------------------
  // search_records: a linear scan on every call

  method SearchRecords(records: seq<Record>, searchKey: string, searchValue: Value)
    returns (results: seq<Record>)
    ensures results == Matching(records, searchKey, searchValue)
  {
    results := [];
    var i := 0;
    while i < |records|
      invariant 0 <= i <= |records|
      invariant results == Matching(records[..i], searchKey, searchValue)
    {
      var myRecord := records[i];
      assert records[..i + 1] == records[..i] + [myRecord];
      MatchingSnoc(records[..i], myRecord, searchKey, searchValue);
      if searchKey in myRecord && myRecord[searchKey] == searchValue {
        results := results + [myRecord];
      }
      i := i + 1;
    }
    assert records[..|records|] == records;
  }

  // ---------------------------------------------------------------------
  // merge_datasets: concatenation loops, then an order-preserving de-duplication

  method MergeDatasets<T(==)>(dataset1: seq<T>, dataset2: seq<T>) returns (unique: seq<T>)
    ensures unique == Dedup(dataset1 + dataset2)
    ensures NoDups(unique)
    ensures Elems(unique) == Elems(dataset1) + Elems(dataset2)
  {
    var merged: seq<T> := [];
    var i := 0;
    while i < |dataset1|
      invariant 0 <= i <= |dataset1|
      invariant merged == dataset1[..i]
    {
      SplitAt(dataset1, i);
      merged := merged + [dataset1[i]];
      i := i + 1;
    }
    assert dataset1[..|dataset1|] == dataset1;
    i := 0;
    while i < |dataset2|
      invariant 0 <= i <= |dataset2|
      invariant merged == dataset1 + dataset2[..i]
    {
      SplitAt(dataset2, i);
      assert dataset1 + dataset2[..i + 1] == dataset1 + dataset2[..i] + [dataset2[i]];
      merged := merged + [dataset2[i]];
      i := i + 1;
    }
    assert dataset2[..|dataset2|] == dataset2;

    unique := [];
    i := 0;
    while i < |merged|
      invariant 0 <= i <= |merged|
      invariant unique == Dedup(merged[..i])
    {
      var item := merged[i];
      DedupStep(merged, i);
      if item !in unique {
        unique := unique + [item];
      }
      i := i + 1;
    }
    assert merged[..|merged|] == merged;
    DedupDistinct(merged);
    DedupElems(merged);
    assert Elems(merged) == Elems(dataset1) + Elems(dataset2);
  }

  // ---------------------------------------------------------------------
  // compute_fibonacci: plain double recursion

  /** `compute_fibonacci(n)`: `n` itself when `n <= 1` (negative `n` included),
      otherwise the sum of the two preceding values. */
  function Fib(n: int): (r: int)
    ensures n <= 1 ==> r == n
    ensures n >= 0 ==> r >= 0
    decreases n
  {
    if n <= 1 then n else Fib(n - 1) + Fib(n - 2)
  }

  /** The values test_performance.py checks. */
  lemma FibKnownValues()
    ensures Fib(0) == 0 && Fib(1) == 1 && Fib(2) == 1 && Fib(3) == 2 && Fib(4) == 3
    ensures Fib(5) == 5 && Fib(6) == 8 && Fib(7) == 13 && Fib(8) == 21
    ensures Fib(9) == 34 && Fib(10) == 55
  {
    assert Fib(2) == 1;
    assert Fib(3) == 2;
    assert Fib(4) == 3;
    assert Fib(5) == 5;
    assert Fib(6) == 8;
    assert Fib(7) == 13;
    assert Fib(8) == 21;
    assert Fib(9) == 34;
  }

  // ---------------------------------------------------------------------
  // string_operations: repeated concatenation, then strip()

  /** Every word followed by one space, as the loop builds it. */
  function SpaceTerminated(words: seq<string>): string {
    if words == [] then "" else SpaceTerminated(words[..|words| - 1]) + words[|words| - 1] + " "
  }

  method StringOperations(words: seq<string>) returns (result: string)
    ensures result == Strip(SpaceTerminated(words))
    ensures words == [] ==> result == ""
  {
    result := "";
    var i := 0;
    while i < |words|
      invariant 0 <= i <= |words|
      invariant result == SpaceTerminated(words[..i])
    {
      assert words[..i + 1][..i] == words[..i];
      result := result + words[i] + " ";
      i := i + 1;
    }
    assert words[..|words|] == words;
    result := Strip(result);
  }

  // ---------------------------------------------------------------------
  // matrix_multiply: emptiness and dimension checks, then a triple loop

  const EmptyMessage := "Matrices cannot be empty"
  const DimensionMessage := "Matrix dimensions incompatible"
  const IndexMessage := "list index out of range"

  method MatrixMultiply(matrix1: Matrix, matrix2: Matrix) returns (r: Result<Matrix>)
    ensures (matrix1 == [] || matrix2 == [] || matrix1[0] == [] || matrix2[0] == [])
            ==> r == Err(ValueError(EmptyMessage))
    ensures matrix1 != [] && matrix2 != [] && matrix1[0] != [] && matrix2[0] != [] ==>
              if |matrix1[0]| != |matrix2| then r == Err(ValueError(DimensionMessage))
              else if !Multipliable(matrix1, matrix2) then r == Err(IndexError(IndexMessage))
              else r == Ok(Product(matrix1, matrix2))
  {
    if matrix1 == [] || matrix2 == [] || matrix1[0] == [] || matrix2[0] == [] {
      return Err(ValueError(EmptyMessage));
    }
    var rows1, cols1, rows2, cols2 := |matrix1|, |matrix1[0]|, |matrix2|, |matrix2[0]|;
    if cols1 != rows2 {
      return Err(ValueError(DimensionMessage));
    }
    var result: Matrix := [];
    var i := 0;
    while i < rows1
      invariant 0 <= i <= rows1
      invariant forall i' :: 0 <= i' < i ==> |matrix1[i']| >= cols1
      invariant i > 0 ==> forall k :: 0 <= k < rows2 ==> |matrix2[k]| >= cols2
      invariant |result| == i
      invariant forall i' :: 0 <= i' < i ==> |result[i']| == cols2
      invariant forall i', j :: 0 <= i' < i && 0 <= j < cols2 ==>
                  result[i'][j] == Dot(matrix1[i'], matrix2, j, cols1)
    {
      var row: seq<int> := [];
      var j := 0;
      while j < cols2
        invariant 0 <= j <= cols2
        invariant j > 0 ==> |matrix1[i]| >= cols1
        invariant forall k :: 0 <= k < rows2 ==> |matrix2[k]| >= j
        invariant |row| == j
        invariant forall j' :: 0 <= j' < j ==> row[j'] == Dot(matrix1[i], matrix2, j', cols1)
      {
        var value := 0;
        var k := 0;
        while k < cols1
          invariant 0 <= k <= cols1 && k <= |matrix1[i]|
          invariant forall k' :: 0 <= k' < k ==> j < |matrix2[k']|
          invariant value == Dot(matrix1[i], matrix2, j, k)
        {
          if k >= |matrix1[i]| || j >= |matrix2[k]| {
            return Err(IndexError(IndexMessage));
          }
          value := value + matrix1[i][k] * matrix2[k][j];
          k := k + 1;
        }
        row := row + [value];
        j := j + 1;
      }
      result := result + [row];
      i := i + 1;
    }
    assert Multipliable(matrix1, matrix2);
    var product := Product(matrix1, matrix2);
    forall i' | 0 <= i' < rows1
      ensures result[i'] == product[i']
    {
      assert |result[i']| == |product[i']|;
    }
    assert result == product;
    return Ok(result);
  }
}
