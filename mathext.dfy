/** Calc.Clamp, the LinqExtension argmax/argmin folds, C#'s numeric
    conversions, and the transcendental functions the scores use. */
module MathExt {
  import opened Wrappers

  /** Math.Log(x, 2), Math.Sqrt, Math.Exp and Statistics.Correlation are
      floating-point library code; the model takes them as parameters and
      assumes nothing about them. */
  datatype Maths = Maths(
    log2: real -> real,
    sqrt: real -> real,
    exp: real -> real,
    correlation: (seq<real>, seq<real>) -> real)

  /** double.MinValue, the starting point of every maximum. */
  const MinValue: real := -179769313486231570814527423731704356798070567525844996598917476803157260780028538760589558632766878171540458953514382464234321326889464182768467546703537516986049910576551282076245490090389328944075868508455133942304583236903222948165808559332123348274797826204144723168738177180919299881250404026184124858368.0

  /** Calc.Clamp: the upper bound is checked first. */
  function Clamp(value: int, min: int, max: int): (r: int)
    ensures value > max ==> r == max
    ensures value <= max && value < min ==> r == min
    ensures min <= value <= max ==> r == value
    ensures min <= max ==> min <= r <= max
  {
    if value > max then max
    else if value < min then min
    else value
  }

  /** Math.Abs on int. */
  function Abs(x: int): nat
  {
    if x < 0 then -x else x
  }

  /** C#'s (int) cast of a double: truncation toward zero. */
  function Trunc(x: real): (n: int)
    ensures 0.0 <= x ==> n as real <= x < n as real + 1.0
    ensures x < 0.0 ==> n as real - 1.0 < x <= n as real
  {
    if x >= 0.0 then x.Floor else -((-x).Floor)
  }

  /** Math.Round(double): to the nearest integer, halves to the even one. */
  function RoundHalfEven(x: real): (n: int)
    ensures x - 0.5 <= n as real <= x + 0.5
    ensures x - n as real == 0.5 ==> n % 2 == 0
    ensures n as real - x == 0.5 ==> n % 2 == 0
  {
    var f := x.Floor;
    var d := x - f as real;
    if d < 0.5 then f
    else if d > 0.5 then f + 1
    else if f % 2 == 0 then f
    else f + 1
  }

  /** The Aggregate of MaxWithIndex: `best` indexes the first maximum of s[..i]. */
  function MaxFold(s: seq<real>, i: nat, best: nat): (k: nat)
    requires best < i <= |s|
    requires forall j :: 0 <= j < i ==> s[j] <= s[best]
    requires forall j :: 0 <= j < best ==> s[j] < s[best]
    ensures k < |s|
    ensures forall j :: 0 <= j < |s| ==> s[j] <= s[k]
    ensures forall j :: 0 <= j < k ==> s[j] < s[k]
    decreases |s| - i
  {
    if i == |s| then best
    else if s[i] > s[best] then MaxFold(s, i + 1, i)
    else MaxFold(s, i + 1, best)
  }

  /** LinqExtension.MaxWithIndex: the first index of a maximum and its value. */
  function MaxWithIndex(s: seq<real>): (r: Result<(nat, real)>)
    ensures r.Fail? <==> |s| == 0
    ensures r.Fail? ==> r.failure == ArgumentError
    ensures r.Ok? ==> r.value.0 < |s| && r.value.1 == s[r.value.0]
    ensures r.Ok? ==> forall j :: 0 <= j < |s| ==> s[j] <= r.value.1
    ensures r.Ok? ==> forall j :: 0 <= j < r.value.0 ==> s[j] < r.value.1
  {
    if |s| == 0 then Fail(ArgumentError)
    else var k := MaxFold(s, 1, 0); Ok((k, s[k]))
  }

  /** The Aggregate of MinWithIndex: `best` indexes the first minimum of s[..i]. */
  function MinFold(s: seq<real>, i: nat, best: nat): (k: nat)
    requires best < i <= |s|
    requires forall j :: 0 <= j < i ==> s[best] <= s[j]
    requires forall j :: 0 <= j < best ==> s[best] < s[j]
    ensures k < |s|
    ensures forall j :: 0 <= j < |s| ==> s[k] <= s[j]
    ensures forall j :: 0 <= j < k ==> s[k] < s[j]
    decreases |s| - i
  {
    if i == |s| then best
    else if s[i] < s[best] then MinFold(s, i + 1, i)
    else MinFold(s, i + 1, best)
  }

  /** LinqExtension.MinWithIndex: the first index of a minimum and its value. */
  function MinWithIndex(s: seq<real>): (r: Result<(nat, real)>)
    ensures r.Fail? <==> |s| == 0
    ensures r.Fail? ==> r.failure == ArgumentError
    ensures r.Ok? ==> r.value.0 < |s| && r.value.1 == s[r.value.0]
    ensures r.Ok? ==> forall j :: 0 <= j < |s| ==> r.value.1 <= s[j]
    ensures r.Ok? ==> forall j :: 0 <= j < r.value.0 ==> r.value.1 < s[j]
  {
    if |s| == 0 then Fail(ArgumentError)
    else var k := MinFold(s, 1, 0); Ok((k, s[k]))
  }

  lemma MulMonotone(d: int, m: int)
    requires m > 0
    ensures d >= 1 ==> d * m >= m
    ensures d <= -1 ==> d * m <= -m
  {
  }

  /** Euclidean division is determined by quotient and remainder. */
  lemma DivModUnique(v: int, m: int, q: int, r: int)
    requires m > 0 && 0 <= r < m && v == q * m + r
    ensures v / m == q && v % m == r
  {
    var q', r' := v / m, v % m;
    assert (q - q') * m == r' - r;
    MulMonotone(q - q', m);
  }

  /** Taking a byte and then its low 7 bits is taking the low 7 bits. */
  lemma LowBitsOfByte(x: nat)
    ensures (x % 0x100) % 0x80 == x % 0x80
  {
    DivModUnique(x, 0x80, (x / 0x100) * 2 + (x % 0x100) / 0x80, (x % 0x100) % 0x80);
  }

  /** The sum of a sequence of reals, element by element from the front, as
      LINQ's Sum and Average add them. */
  function Sum(xs: seq<real>): real
  {
    if xs == [] then 0.0 else Sum(xs[..|xs| - 1]) + xs[|xs| - 1]
  }

  /** n copies of c add up to n * c. */
  lemma {:induction false} SumConst(xs: seq<real>, c: real)
    requires forall k :: 0 <= k < |xs| ==> xs[k] == c
    ensures Sum(xs) == |xs| as real * c
  {
    if xs != [] {
      var n := |xs| - 1;
      SumConst(xs[..n], c);
      assert n as real * c + c == (n + 1) as real * c;
    }
  }

  /** The sum of two sequences end to end is the sum of their sums. */
  lemma {:induction false} SumAppend(xs: seq<real>, ys: seq<real>)
    ensures Sum(xs + ys) == Sum(xs) + Sum(ys)
  {
    if ys != [] {
      var n := |ys| - 1;
      SumAppend(xs, ys[..n]);
      assert (xs + ys)[..|xs + ys| - 1] == xs + ys[..n];
    } else {
      assert xs + ys == xs;
    }
  }

  /** Values in [0, 1] add up to at most their count. */
  lemma {:induction false} SumBounded(xs: seq<real>)
    requires forall k :: 0 <= k < |xs| ==> 0.0 <= xs[k] <= 1.0
    ensures 0.0 <= Sum(xs) <= |xs| as real
  {
    if xs != [] {
      SumBounded(xs[..|xs| - 1]);
    }
  }

  /** Non-negative values add up to a non-negative sum. */
  lemma {:induction false} SumNonNegative(xs: seq<real>)
    requires forall k :: 0 <= k < |xs| ==> xs[k] >= 0.0
    ensures Sum(xs) >= 0.0
  {
    if xs != [] {
      SumNonNegative(xs[..|xs| - 1]);
    }
  }

  /** C#'s integer division: the quotient truncated toward zero. */
  function TruncDiv(a: int, b: int): (q: int)
    requires b > 0
    ensures a >= 0 ==> q == a / b
    ensures a < 0 ==> q == -((-a) / b)
  {
    if a >= 0 then a / b else -((-a) / b)
  }

  /** C#'s %: the remainder takes the sign of the dividend, and
      a == TruncDiv(a, b) * b + TruncRem(a, b). */
  function TruncRem(a: int, b: int): (r: int)
    requires b > 0
    ensures a == TruncDiv(a, b) * b + r
    ensures a >= 0 ==> 0 <= r < b
    ensures a < 0 ==> -b < r <= 0
  {
    if a >= 0 then a % b else -((-a) % b)
  }
}
