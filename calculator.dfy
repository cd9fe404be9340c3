/** Model of calculator.py. A Python argument is either a number or some
    other object (`isinstance(x, (int, float))` fails); numbers are integers
    here, and the true division `/` gives a real. */
module Calculator {
  import opened Wrappers
  import opened Sequences

  datatype Value = Number(n: int) | NotNumber

  const FirstNotNumber := "First argument must be a number"
  const SecondNotNumber := "Second argument must be a number"
  const DivideByZero := "Cannot divide by zero"
  const EmptyList := "List cannot be empty"
  const ElementNotNumber := "All elements must be numbers"

  /** The two type guards every binary operation starts with: the first
      argument is checked before the second. */
  function OperandError(a: Value, b: Value): (e: Option<Exception>)
    ensures e.None? <==> a.Number? && b.Number?
    ensures a.NotNumber? ==> e == Some(TypeError(FirstNotNumber))
    ensures a.Number? && b.NotNumber? ==> e == Some(TypeError(SecondNotNumber))
  {
    if a.NotNumber? then Some(TypeError(FirstNotNumber))
    else if b.NotNumber? then Some(TypeError(SecondNotNumber))
    else None
  }

  /** `add_numbers`. */
  function AddNumbers(a: Value, b: Value): (r: Result<int>)
    ensures r.Ok? <==> OperandError(a, b).None?
    ensures r.Err? ==> r.error == OperandError(a, b).value
  {
    if OperandError(a, b).Some? then Err(OperandError(a, b).value) else Ok(a.n + b.n)
  }

  /** `subtract_numbers`. */
  function SubtractNumbers(a: Value, b: Value): (r: Result<int>)
    ensures r.Ok? <==> OperandError(a, b).None?
    ensures r.Err? ==> r.error == OperandError(a, b).value
  {
    if OperandError(a, b).Some? then Err(OperandError(a, b).value) else Ok(a.n - b.n)
  }

  /** `multiply_numbers`. */
  function MultiplyNumbers(a: Value, b: Value): (r: Result<int>)
    ensures r.Ok? <==> OperandError(a, b).None?
    ensures r.Err? ==> r.error == OperandError(a, b).value
  {
    if OperandError(a, b).Some? then Err(OperandError(a, b).value) else Ok(a.n * b.n)
  }

  /** `divide_numbers`: the zero check comes only after both type checks,
      and the quotient multiplied back by the divisor gives the dividend. */
  function DivideNumbers(a: Value, b: Value): (r: Result<real>)
    ensures r.Ok? <==> a.Number? && b.Number? && b.n != 0
    ensures OperandError(a, b).Some? ==> r == Err(OperandError(a, b).value)
    ensures a.Number? && b == Number(0) ==> r == Err(ValueError(DivideByZero))
    ensures r.Ok? ==> r.value * b.n as real == a.n as real
  {
    if OperandError(a, b).Some? then Err(OperandError(a, b).value)
    else if b.n == 0 then Err(ValueError(DivideByZero))
    else Ok(a.n as real / b.n as real)
  }

  /** Subtraction undoes addition. */
  lemma SubtractUndoesAdd(x: int, y: int)
    ensures AddNumbers(Number(x), Number(y)).Ok?
    ensures SubtractNumbers(Number(AddNumbers(Number(x), Number(y)).value), Number(y)) == Ok(x)
  {
  }

  /** Addition and multiplication of two numbers do not depend on the
      order of the operands, while the error raised does. */
  lemma OperandOrder(x: int, y: int)
    ensures AddNumbers(Number(x), Number(y)) == AddNumbers(Number(y), Number(x))
    ensures MultiplyNumbers(Number(x), Number(y)) == MultiplyNumbers(Number(y), Number(x))
    ensures AddNumbers(NotNumber, Number(y)) != AddNumbers(Number(y), NotNumber)
  {
  }

  /** Division by a non-zero number undoes multiplication. */
  lemma DivideUndoesMultiply(x: int, y: int)
    requires y != 0
    ensures DivideNumbers(Number(MultiplyNumbers(Number(x), Number(y)).value), Number(y)) == Ok(x as real)
  {
    var q := DivideNumbers(Number(x * y), Number(y));
    RealProduct(x, y);
    CancelFactor(q.value, x as real, y as real);
  }

  /** The integer product as a real is the product of the reals. */
  lemma RealProduct(x: int, y: int)
    ensures (x * y) as real == x as real * y as real
  {
  }

  /** Two reals with the same multiple of a non-zero factor are equal. */
  lemma CancelFactor(q: real, x: real, y: real)
    requires y != 0.0 && q * y == x * y
    ensures q == x
  {
    assert (q - x) * y == 0.0;
  }

  /** The cases test_calculator.py checks on integers. */
  lemma BinaryExamples()
    ensures AddNumbers(Number(2), Number(3)) == Ok(5) && AddNumbers(Number(-1), Number(1)) == Ok(0)
    ensures SubtractNumbers(Number(5), Number(3)) == Ok(2) && SubtractNumbers(Number(1), Number(1)) == Ok(0)
    ensures MultiplyNumbers(Number(2), Number(3)) == Ok(6) && MultiplyNumbers(Number(-2), Number(3)) == Ok(-6)
    ensures DivideNumbers(Number(6), Number(3)) == Ok(2.0) && DivideNumbers(Number(5), Number(2)) == Ok(2.5)
    ensures DivideNumbers(Number(1), Number(4)) == Ok(0.25)
    ensures DivideNumbers(Number(5), Number(0)) == Err(ValueError(DivideByZero))
    ensures AddNumbers(NotNumber, Number(3)) == Err(TypeError(FirstNotNumber))
    ensures AddNumbers(Number(2), NotNumber) == Err(TypeError(SecondNotNumber))
    ensures DivideNumbers(Number(6), NotNumber) == Err(TypeError(SecondNotNumber))
  {
  }

  // ---------------------------------------------------------------------
  // calculate_sum and calculate_average

  predicate AllNumbers(values: seq<Value>) {
    forall k :: 0 <= k < |values| ==> values[k].Number?
  }

  /** The integers of a list that holds only numbers. */
  function Numbers(values: seq<Value>): (r: seq<int>)
    requires AllNumbers(values)
    ensures |r| == |values|
    ensures forall k :: 0 <= k < |r| ==> values[k] == Number(r[k])
  {
    seq(|values|, k requires 0 <= k < |values| => values[k].n)
  }

  /** `calculate_sum`: the empty list is refused before any element is
      looked at, then any non-number is refused, then the elements are
      added up. */
  method CalculateSum(numbers: seq<Value>) returns (r: Result<int>)
    ensures numbers == [] ==> r == Err(ValueError(EmptyList))
    ensures numbers != [] && !AllNumbers(numbers) ==> r == Err(TypeError(ElementNotNumber))
    ensures r.Ok? <==> numbers != [] && AllNumbers(numbers)
    ensures r.Ok? ==> r.value == Sum(Numbers(numbers))
  {
    if numbers == [] {
      return Err(ValueError(EmptyList));
    }
    var i := 0;
    while i < |numbers|
      invariant 0 <= i <= |numbers|
      invariant forall k :: 0 <= k < i ==> numbers[k].Number?
    {
      if numbers[i].NotNumber? {
        return Err(TypeError(ElementNotNumber));
      }
      i := i + 1;
    }
    ghost var ns := Numbers(numbers);
    var total := 0;
    i := 0;
    while i < |numbers|
      invariant 0 <= i <= |numbers|
      invariant total == Sum(ns[..i])
    {
      SplitAt(ns, i);
      SumSnoc(ns[..i], ns[i]);
      total := total + numbers[i].n;
      i := i + 1;
    }
    assert ns[..|numbers|] == ns;
    return Ok(total);
  }

  /** `calculate_average`: the same guards, then the sum divided by the
      length. */
  method CalculateAverage(numbers: seq<Value>) returns (r: Result<real>)
    ensures numbers == [] ==> r == Err(ValueError(EmptyList))
    ensures numbers != [] && !AllNumbers(numbers) ==> r == Err(TypeError(ElementNotNumber))
    ensures r.Ok? <==> numbers != [] && AllNumbers(numbers)
    ensures r.Ok? ==> r.value == Sum(Numbers(numbers)) as real / |numbers| as real
  {
    if numbers == [] {
      return Err(ValueError(EmptyList));
    }
    var i := 0;
    while i < |numbers|
      invariant 0 <= i <= |numbers|
      invariant forall k :: 0 <= k < i ==> numbers[k].Number?
    {
      if numbers[i].NotNumber? {
        return Err(TypeError(ElementNotNumber));
      }
      i := i + 1;
    }
    ghost var ns := Numbers(numbers);
    var total := 0;
    i := 0;
    while i < |numbers|
      invariant 0 <= i <= |numbers|
      invariant total == Sum(ns[..i])
    {
      SplitAt(ns, i);
      SumSnoc(ns[..i], ns[i]);
      total := total + numbers[i].n;
      i := i + 1;
    }
    assert ns[..|numbers|] == ns;
    return Ok(total as real / |numbers| as real);
  }

  /** A sum of values between `lo` and `hi` lies between `|s| * lo` and
      `|s| * hi`. */
  lemma {:induction false} SumBounds(s: seq<int>, lo: int, hi: int)
    requires forall k :: 0 <= k < |s| ==> lo <= s[k] <= hi
    ensures |s| * lo <= Sum(s) <= |s| * hi
  {
    if s != [] {
      var p := s[..|s| - 1];
      SumBounds(p, lo, hi);
      assert s == p + [s[|s| - 1]];
      SumSnoc(p, s[|s| - 1]);
      MultiplyOneMore(|p|, lo);
      MultiplyOneMore(|p|, hi);
    }
  }

  /** The average lies between the least and the greatest bound of the
      elements, and a list of equal numbers averages to that number. */
  lemma AverageWithinBounds(numbers: seq<Value>, lo: int, hi: int)
    requires numbers != [] && AllNumbers(numbers)
    requires forall k :: 0 <= k < |numbers| ==> lo <= numbers[k].n <= hi
    ensures lo as real <= Sum(Numbers(numbers)) as real / |numbers| as real <= hi as real
  {
    var ns := Numbers(numbers);
    forall k | 0 <= k < |ns|
      ensures lo <= ns[k] <= hi
    {
      assert numbers[k] == Number(ns[k]);
    }
    SumBounds(ns, lo, hi);
    var n, total := |ns|, Sum(ns);
    RealProduct(n, lo);
    RealProduct(n, hi);
    assert (n * lo) as real <= total as real <= (n * hi) as real;
    QuotientBounds(total as real, n as real, lo as real, hi as real);
  }

  /** Dividing by a positive `n` keeps a value between `n * lo` and `n * hi`
      between `lo` and `hi`. */
  lemma QuotientBounds(total: real, n: real, lo: real, hi: real)
    requires n > 0.0 && n * lo <= total <= n * hi
    ensures lo <= total / n <= hi
  {
    assert total / n * n == total;
  }

  /** The lists test_calculator.py checks: sums 15, 30, 5; averages 3.0, 15.0. */
  lemma AggregateExamples()
    ensures AllNumbers([Number(1), Number(2), Number(3), Number(4), Number(5)])
    ensures Sum(Numbers([Number(1), Number(2), Number(3), Number(4), Number(5)])) == 15
    ensures AllNumbers([Number(10), Number(20)]) && Sum(Numbers([Number(10), Number(20)])) == 30
    ensures AllNumbers([Number(5)]) && Sum(Numbers([Number(5)])) == 5
    ensures !AllNumbers([Number(1), Number(2), NotNumber])
  {
    var five := [Number(1), Number(2), Number(3), Number(4), Number(5)];
    assert Numbers(five) == [1, 2, 3, 4, 5];
    assert Sum([1, 2, 3, 4, 5]) == 15 by {
      assert [1, 2, 3, 4, 5][..4] == [1, 2, 3, 4];
      assert [1, 2, 3, 4][..3] == [1, 2, 3];
      assert [1, 2, 3][..2] == [1, 2];
      assert [1, 2][..1] == [1];
    }
    assert Numbers([Number(10), Number(20)]) == [10, 20];
    assert Sum([10, 20]) == 30 by {
      assert [10, 20][..1] == [10];
    }
    assert Numbers([Number(5)]) == [5];
    assert Sum([5]) == 5;
    assert [Number(1), Number(2), NotNumber][2].NotNumber?;
  }

  /** test_calculator.py through the methods: [1..5] sums to 15 and averages
      3.0, [10, 20] averages 15.0, and the empty and mixed lists are refused. */
  method AggregateScenario()
    returns (sum: Result<int>, average: Result<real>, pairAverage: Result<real>,
             empty: Result<int>, mixed: Result<real>)
    ensures sum == Ok(15) && average == Ok(3.0) && pairAverage == Ok(15.0)
    ensures empty == Err(ValueError(EmptyList))
    ensures mixed == Err(TypeError(ElementNotNumber))
  {
    AggregateExamples();
    var five := [Number(1), Number(2), Number(3), Number(4), Number(5)];
    sum := CalculateSum(five);
    average := CalculateAverage(five);
    pairAverage := CalculateAverage([Number(10), Number(20)]);
    empty := CalculateSum([]);
    mixed := CalculateAverage([Number(1), Number(2), NotNumber]);
  }
}
