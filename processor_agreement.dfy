/** The slow `DataProcessor` and the `OptimizedDataProcessor` agree, in the
    sense test_performance.py checks: the same duplicate set, the same sorted
    squares, the same merged set, the same Fibonacci numbers, the same joined
    string for ordinary words, and the same result for matrices whose first
    rows are non-empty. For an empty matrix or an empty first row the
    difference is stated case by case. For words with whitespace at their
    ends, one example of the difference is given (an empty word). */
module ProcessorAgreement {
  import opened Wrappers
  import opened Sequences
  import opened Strings
  import opened Matrices
  import DataProcessor
  import DataProcessorOptimized

  /** The two `find_duplicates` return the same set of values, each once,
      so also the same number of values. */
  method FindDuplicatesAgree<T(==)>(items: seq<T>) returns (slow: seq<T>, fast: seq<T>)
    ensures Elems(slow) == Elems(fast) == DuplicatedValues(items)
    ensures |slow| == |fast|
  {
    slow := DataProcessor.FindDuplicates(items);
    fast := DataProcessorOptimized.FindDuplicates(items);
    DistinctCard(slow);
    DistinctCard(fast);
  }

  /** The insertion sort and the builtin sort return the same list. */
  method FilterAndTransformAgree(data: seq<int>, threshold: int) returns (slow: seq<int>, fast: seq<int>)
    ensures slow == fast
    ensures slow == [] <==> forall k :: 0 <= k < |data| ==> data[k] <= threshold
  {
    slow := DataProcessor.FilterAndTransform(data, threshold);
    fast := DataProcessorOptimized.FilterAndTransform(data, threshold);
  }

  /** Both merges hold the same distinct values; the slow one fixes their
      order to first occurrence. */
  method MergeDatasetsAgree<T(==)>(dataset1: seq<T>, dataset2: seq<T>) returns (slow: seq<T>, fast: seq<T>)
    ensures Elems(slow) == Elems(fast) == Elems(dataset1) + Elems(dataset2)
    ensures |slow| == |fast|
  {
    slow := DataProcessor.MergeDatasets(dataset1, dataset2);
    fast := DataProcessorOptimized.MergeDatasets(dataset1, dataset2);
    DistinctCard(slow);
    DistinctCard(fast);
  }

  /** Memoized Fibonacci on a fresh processor equals the plain recursion,
      and a repeated call is answered from the memo table with the same value. */
  method FibonacciAgree(n: int) returns (first: int, again: int)
    ensures first == again == DataProcessor.Fib(n)
  {
    var p := new DataProcessorOptimized.OptimizedDataProcessor();
    first := p.ComputeFibonacci(n);
    again := p.ComputeFibonacci(n);
  }

  // ---------------------------------------------------------------------
  // string_operations

  /** A word that is not empty and neither starts nor ends with whitespace. */
  predicate PlainWord(w: string) {
    w != [] && !IsSpace(w[0]) && !IsSpace(w[|w| - 1])
  }

  /** The concatenation loop yields the join followed by one trailing space. */
  lemma {:induction false} SpaceTerminatedIsJoinPlusSpace(words: seq<string>)
    requires words != []
    ensures DataProcessor.SpaceTerminated(words) == Join(words, " ") + " "
  {
    if |words| > 1 {
      var p := words[..|words| - 1];
      SpaceTerminatedIsJoinPlusSpace(p);
    }
  }

  /** Joining plain words starts with the first word's first character and
      ends with the last word's last character. */
  lemma {:induction false} JoinEnds(words: seq<string>)
    requires words != [] && forall k :: 0 <= k < |words| ==> PlainWord(words[k])
    ensures var j := Join(words, " ");
            PlainWord(words[0]) && PlainWord(words[|words| - 1])
            && j != [] && j[0] == words[0][0] && j[|j| - 1] == words[|words| - 1][|words[|words| - 1]| - 1]
  {
    if |words| > 1 {
      var p := words[..|words| - 1];
      JoinEnds(p);
      assert Join(words, " ") == Join(p, " ") + " " + words[|words| - 1];
    }
  }

  /** For plain words the slow `result + word + " "` loop followed by
      `strip()` gives exactly `" ".join(words)`. */
  lemma StringOperationsPlainWords(words: seq<string>)
    requires forall k :: 0 <= k < |words| ==> PlainWord(words[k])
    ensures Strip(DataProcessor.SpaceTerminated(words)) == DataProcessorOptimized.StringOperations(words)
  {
    if words != [] {
      SpaceTerminatedIsJoinPlusSpace(words);
      JoinEnds(words);
      StripTrailingSpace(Join(words, " "));
    }
  }

  /** `strip()` of a string with clean ends plus one trailing space gives
      the string back. */
  lemma StripTrailingSpace(j: string)
    requires j != [] && !IsSpace(j[0]) && !IsSpace(j[|j| - 1])
    ensures Strip(j + " ") == j
  {
    var s := j + " ";
    assert s[0] == j[0];
    assert StripLeft(s) == s;
    assert s[..|s| - 1] == j;
    assert StripRight(s) == StripRight(j);
    StripClean(j);
  }

  /** The two versions differ once a word is empty: `strip()` also removes
      the separator that the join keeps. */
  lemma StringOperationsDiffer()
    ensures Strip(DataProcessor.SpaceTerminated(["", "a"])) == "a"
    ensures DataProcessorOptimized.StringOperations(["", "a"]) == " a"
  {
    SlowOnEmptyWord();
    StripExample();
    JoinOnEmptyWord();
  }

  lemma SlowOnEmptyWord()
    ensures DataProcessor.SpaceTerminated(["", "a"]) == " a "
  {
    assert ["", "a"][..1] == [""];
    assert [""][..0] == [];
  }

  lemma StripExample()
    ensures Strip(" a ") == "a"
  {
    assert StripLeft(" a ") == "a " by {
      assert " a "[1..] == "a ";
    }
    assert StripRight("a ") == "a" by {
      assert "a "[..1] == "a";
    }
  }

  lemma JoinOnEmptyWord()
    ensures Join(["", "a"], " ") == " a"
  {
    assert ["", "a"][..1] == [""];
  }

  /** The slow and fast versions agree for plain words, and both give `""`
      for an empty list. */
  method StringOperationsAgree(words: seq<string>) returns (slow: string, fast: string)
    requires forall k :: 0 <= k < |words| ==> PlainWord(words[k])
    ensures slow == fast
    ensures words == [] ==> slow == ""
  {
    slow := DataProcessor.StringOperations(words);
    fast := DataProcessorOptimized.StringOperations(words);
    StringOperationsPlainWords(words);
  }

  // ---------------------------------------------------------------------
  // matrix_multiply

  /** For matrices with non-empty first rows both versions return the same
      result, error or product. An empty matrix is a ValueError in the slow
      version and an IndexError in the fast one. An empty first row is
      "Matrices cannot be empty" in the slow version; the fast one raises the
      dimension error when the first row of `matrix1` is empty, and when only
      the first row of `matrix2` is empty it either raises the dimension error
      or returns one empty row for each row of `matrix1`. */
  method MatrixMultiplyAgree(matrix1: Matrix, matrix2: Matrix) returns (slow: Result<Matrix>, fast: Result<Matrix>)
    ensures matrix1 != [] && matrix2 != [] && matrix1[0] != [] && matrix2[0] != [] ==> slow == fast
    ensures matrix1 == [] || matrix2 == [] ==>
              slow.Err? && slow.error.ValueError? && fast.Err? && fast.error.IndexError?
    ensures matrix1 != [] && matrix2 != [] && (matrix1[0] == [] || matrix2[0] == []) ==>
              slow == Err(ValueError(DataProcessor.EmptyMessage))
    ensures matrix1 != [] && matrix2 != [] && matrix1[0] == [] ==>
              fast == Err(ValueError(DataProcessor.DimensionMessage))
    ensures matrix1 != [] && matrix2 != [] && matrix1[0] != [] && matrix2[0] == [] ==>
              if |matrix1[0]| != |matrix2| then fast == Err(ValueError(DataProcessor.DimensionMessage))
              else fast.Ok? && |fast.value| == |matrix1| && forall i :: 0 <= i < |matrix1| ==> fast.value[i] == []
    ensures slow.Ok? ==> slow == fast
  {
    slow := DataProcessor.MatrixMultiply(matrix1, matrix2);
    fast := DataProcessorOptimized.MatrixMultiply(matrix1, matrix2);
    if matrix1 != [] && matrix2 != [] && matrix1[0] != [] && matrix2[0] == [] && |matrix1[0]| == |matrix2| {
      FastEmptyColumns(matrix1, matrix2);
    }
  }

  /** With no columns in `matrix2` the fast comprehension computes no entry,
      so it returns one empty row per row of `matrix1`, whatever the other
      rows hold. */
  lemma FastEmptyColumns(matrix1: Matrix, matrix2: Matrix)
    requires matrix1 != [] && matrix2 != [] && matrix2[0] == [] && |matrix1[0]| == |matrix2|
    ensures DataProcessorOptimized.MatrixMultiply(matrix1, matrix2).Ok?
    ensures |DataProcessorOptimized.MatrixMultiply(matrix1, matrix2).value| == |matrix1|
    ensures forall i :: 0 <= i < |matrix1| ==> DataProcessorOptimized.MatrixMultiply(matrix1, matrix2).value[i] == []
  {
    assert Multipliable(matrix1, matrix2);
  }

  /** `[[1]]` times `[[]]`: the fast version returns `[[]]`, where the slow
      version raises "Matrices cannot be empty". */
  lemma EmptyColumnsDiffer()
    ensures DataProcessorOptimized.MatrixMultiply([[1]], [[]]) == Ok([[]])
  {
    FastEmptyColumns([[1]], [[]]);
    var r := DataProcessorOptimized.MatrixMultiply([[1]], [[]]).value;
    assert |r| == 1 && r[0] == [];
    assert r == [[]];
  }

  /** The products test_performance.py checks. */
  lemma MatrixMultiplyExamples()
    ensures DataProcessorOptimized.MatrixMultiply([[1, 2], [3, 4]], [[5, 6], [7, 8]]) == Ok([[19, 22], [43, 50]])
    ensures DataProcessorOptimized.MatrixMultiply([[1, 2], [3, 4]], [[1, 0], [0, 1]]) == Ok([[1, 2], [3, 4]])
    ensures DataProcessorOptimized.MatrixMultiply([[1, 2, 3]], [[1, 2], [3, 4]]).Err?
    ensures DataProcessorOptimized.MatrixMultiply([[1, 2, 3]], [[1, 2], [3, 4]]).error.ValueError?
  {
    var a: Matrix := [[1, 2], [3, 4]];
    var b: Matrix := [[5, 6], [7, 8]];
    assert Multipliable(a, b);
    var p := Product(a, b);
    assert p[0][0] == Dot(a[0], b, 0, 2) == 19;
    assert p[0][1] == Dot(a[0], b, 1, 2) == 22;
    assert p[1][0] == Dot(a[1], b, 0, 2) == 43;
    assert p[1][1] == Dot(a[1], b, 1, 2) == 50;
    assert p[0] == [19, 22] && p[1] == [43, 50];
    assert p == [[19, 22], [43, 50]];
    ProductIdentity(a);
    var id := Identity(2);
    assert id[0] == [1, 0] && id[1] == [0, 1];
    assert id == [[1, 0], [0, 1]];
  }
}
