/** mean, _ss and stddev of main.py (lines 33-60), over exact reals.
    The final `pvar**0.5` is kept symbolic: Stddev returns the Root whose
    square is the variance, and callers reason about that square. */
module Statistics {
  import opened Slots

  /** sum() of a list of numbers. */
  function Sum(xs: seq<real>): real {
    if xs == [] then 0.0 else xs[0] + Sum(xs[1..])
  }

  /** mean() of a list of floats: ValueError on an empty list, else sum/n. */
  function Average(xs: seq<real>): (r: Result<real>)
    ensures |xs| < 1 <==> r == Err(InsufficientData)
    ensures r.Ok? ==> r.value * (|xs| as real) == Sum(xs)
  {
    if |xs| < 1 then Err(InsufficientData) else Ok(Sum(xs) / |xs| as real)
  }

  lemma {:induction false} SumAtLeast(xs: seq<real>, lo: real)
    requires forall i :: 0 <= i < |xs| ==> lo <= xs[i]
    ensures (|xs| as real) * lo <= Sum(xs)
  {
    if xs != [] {
      SumAtLeast(xs[1..], lo);
      var n := |xs[1..]| as real;
      assert (n + 1.0) * lo == n * lo + lo;
    }
  }

  lemma {:induction false} SumAtMost(xs: seq<real>, hi: real)
    requires forall i :: 0 <= i < |xs| ==> xs[i] <= hi
    ensures Sum(xs) <= (|xs| as real) * hi
  {
    if xs != [] {
      SumAtMost(xs[1..], hi);
      var n := |xs[1..]| as real;
      assert (n + 1.0) * hi == n * hi + hi;
    }
  }

  lemma {:induction false} SumAppend(xs: seq<real>, y: real)
    ensures Sum(xs + [y]) == Sum(xs) + y
  {
    if xs != [] {
      assert (xs + [y])[1..] == xs[1..] + [y];
      SumAppend(xs[1..], y);
    }
  }

  /** The mean is at least any lower bound of the data. */
  lemma AverageAtLeast(xs: seq<real>, lo: real)
    requires |xs| >= 1
    requires forall i :: 0 <= i < |xs| ==> lo <= xs[i]
    ensures lo <= Average(xs).value
  {
    SumAtLeast(xs, lo);
    var n := |xs| as real;
    var m := Average(xs).value;
    assert m * n == Sum(xs);
  }

  /** The mean is at most any upper bound of the data. */
  lemma AverageAtMost(xs: seq<real>, hi: real)
    requires |xs| >= 1
    requires forall i :: 0 <= i < |xs| ==> xs[i] <= hi
    ensures Average(xs).value <= hi
  {
    SumAtMost(xs, hi);
    var n := |xs| as real;
    var m := Average(xs).value;
    assert m * n == Sum(xs);
  }

  /** The mean lies strictly below any strict upper bound of the data. */
  lemma AverageBelow(xs: seq<real>, hi: real)
    requires |xs| >= 1
    requires forall i :: 0 <= i < |xs| ==> xs[i] < hi
    ensures Average(xs).value < hi
  {
    SumAtMost(xs[1..], hi);
    var n := |xs| as real;
    assert Sum(xs) < n * hi by {
      assert (n - 1.0) * hi + hi == n * hi;
    }
    var m := Average(xs).value;
    assert (hi - m) * n == hi * n - Sum(xs);
    PositiveFactor(hi - m, n);
  }

  lemma PositiveFactor(x: real, n: real)
    requires n > 0.0 && x * n > 0.0
    ensures x > 0.0
  {
  }

  /** The data `mean(data, filter_data)` works on. */
  function Kept(data: seq<Slot>, filterData: bool): seq<Slot> {
    if filterData then Filter(data) else data
  }

  /** mean(data, filter_data): optionally drops None and the int markers,
      raises ValueError when nothing is left, TypeError when sum() meets a
      non-number, and otherwise returns the arithmetic mean. */
  function Mean(data: seq<Slot>, filterData: bool): (r: Result<real>)
    ensures var d := Kept(data, filterData);
      && (|d| < 1 ==> r == Err(InsufficientData))
      && (|d| >= 1 ==> (r.Ok? <==> Numbers(d).Ok?))
      && (|d| >= 1 && Numbers(d).Err? ==> r == Err(NotANumber))
      && (r.Ok? ==> r.value * (|d| as real) == Sum(Numbers(d).value))
  {
    var d := Kept(data, filterData);
    if |d| < 1 then Err(InsufficientData)
    else
      match Numbers(d)
      case Err(e) => Err(e)
      case Ok(xs) => Average(xs)
  }

  /** With filtering on, None and the int markers 0 and 1 anywhere around the
      data change nothing: the mean is that of the data alone. */
  lemma MeanIgnoresMarkers(before: seq<Slot>, data: seq<Slot>, after: seq<Slot>)
    requires forall i :: 0 <= i < |before| ==> !IsData(before[i])
    requires forall i :: 0 <= i < |after| ==> !IsData(after[i])
    ensures Mean(before + data + after, true) == Mean(data, true)
  {
    FilterAppend(before + data, after);
    FilterAppend(before, data);
    FilterDropsMarkers(before);
    FilterDropsMarkers(after);
    assert Filter(before + data + after) == Filter(data);
  }

  /** The sum of (x - c)**2 over xs. */
  function SquaredDeviations(xs: seq<real>, c: real): (r: real)
    ensures r >= 0.0
  {
    if xs == [] then 0.0
    else
      var d := xs[0] - c;
      assert d * d >= 0.0 by { if d < 0.0 { assert d * d == (-d) * (-d); } }
      d * d + SquaredDeviations(xs[1..], c)
  }

  lemma {:induction false} NoDeviationFromConstant(xs: seq<real>, c: real)
    requires forall i :: 0 <= i < |xs| ==> xs[i] == c
    ensures SquaredDeviations(xs, c) == 0.0
  {
    if xs != [] {
      NoDeviationFromConstant(xs[1..], c);
    }
  }

  /** _ss(data): the sum of squared deviations from mean(data); it raises
      whatever mean(data) raises. */
  function SumOfSquares(data: seq<Slot>): (r: Result<real>)
    ensures |data| < 1 ==> r == Err(InsufficientData)
    ensures |data| >= 1 ==> (r.Ok? <==> Numbers(data).Ok?)
    ensures r.Ok? ==> r.value >= 0.0
  {
    match Mean(data, false)
    case Err(e) => Err(e)
    case Ok(c) => Ok(SquaredDeviations(Numbers(data).value, c))
  }

  /** The non-negative square root of `square`, left symbolic. */
  datatype Root = Root(square: real)

  /** stddev(data, ddof): always filters out None and the int markers, raises
      ValueError when fewer than two values are left, and otherwise is the
      root of _ss / (n - ddof). */
  function Stddev(data: seq<Slot>, ddof: nat): (r: Result<Root>)
    requires ddof <= 1
    ensures |Filter(data)| < 2 ==> r == Err(InsufficientData)
    ensures |Filter(data)| >= 2 ==> (r.Ok? <==> Numbers(Filter(data)).Ok?)
    ensures r.Ok? ==> r.value.square >= 0.0
    ensures r.Ok? ==> r.value.square * ((|Filter(data)| - ddof) as real) == SumOfSquares(Filter(data)).value
  {
    var d := Filter(data);
    var n := |d|;
    if n < 2 then Err(InsufficientData)
    else
      match SumOfSquares(d)
      case Err(e) => Err(e)
      case Ok(ss) => Ok(Root(ss / (n - ddof) as real))
  }

  /** A value that differs from c makes the sum of squared deviations from c positive. */
  lemma {:induction false} DeviationPositive(xs: seq<real>, c: real, i: int)
    requires 0 <= i < |xs| && xs[i] != c
    ensures SquaredDeviations(xs, c) > 0.0
  {
    if i == 0 {
      var d := xs[0] - c;
      var rest := SquaredDeviations(xs[1..], c);
      calc {
        SquaredDeviations(xs, c);
      ==
        d * d + rest;
      >=
        d * d;
      >
        0.0;
      }
    } else {
      assert xs[1..][i - 1] == xs[i];
      DeviationPositive(xs[1..], c, i - 1);
      var d := xs[0] - c;
      assert d * d >= 0.0 by { if d < 0.0 { assert d * d == (-d) * (-d); } }
    }
  }

  /** A sum of squared deviations from c is nil only when every value is c. */
  lemma NoDeviationMeansConstant(xs: seq<real>, c: real)
    requires SquaredDeviations(xs, c) == 0.0
    ensures forall i :: 0 <= i < |xs| ==> xs[i] == c
  {
    forall i | 0 <= i < |xs|
      ensures xs[i] == c
    {
      if xs[i] != c {
        DeviationPositive(xs, c, i);
      }
    }
  }

  /** With ddof = 0 the variance is the mean of the squared deviations from
      the mean: stddev is the population standard deviation. */
  lemma PopulationVariance(data: seq<Slot>)
    requires Stddev(data, 0).Ok?
    ensures var xs := Numbers(Filter(data)).value;
      Stddev(data, 0).value.square == SquaredDeviations(xs, Average(xs).value) / (|xs| as real)
  {
  }

  /** No spread means no variation: when the variance is 0, every value left
      after the filter equals the mean. */
  lemma NoSpreadMeansConstant(data: seq<Slot>, ddof: nat)
    requires ddof <= 1 && Stddev(data, ddof) == Ok(Root(0.0))
    ensures var xs := Numbers(Filter(data)).value;
      forall i :: 0 <= i < |xs| ==> xs[i] == Average(xs).value
  {
    var d := Filter(data);
    var xs := Numbers(d).value;
    assert SumOfSquares(d).value == 0.0;
    NoDeviationMeansConstant(xs, Average(xs).value);
  }

  /** Data whose values are all the same number has no spread. */
  lemma ConstantDataHasNoSpread(data: seq<Slot>, ddof: nat, c: real)
    requires ddof <= 1
    requires |Filter(data)| >= 2 && Numbers(Filter(data)).Ok?
    requires forall i :: 0 <= i < |Filter(data)| ==> Numbers(Filter(data)).value[i] == c
    ensures Stddev(data, ddof) == Ok(Root(0.0))
  {
    var d := Filter(data);
    var xs := Numbers(d).value;
    AverageAtLeast(xs, c);
    AverageAtMost(xs, c);
    assert Mean(d, false) == Ok(c);
    NoDeviationFromConstant(xs, c);
  }
}
