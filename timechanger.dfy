/** TimeChanger.cs: how the gaps between note onsets sit against a grid of
    video frames. The gaps, in tenths of a millisecond, are counted in a
    histogram, the histogram is smoothed three times by a box blur, and its
    peak gives the most common gap or the smallest gap that matters; the
    relative time change stretches that gap onto the nearest whole number
    of frames. */
module TimeChanger {
  import opened Wrappers
  import opened MathExt
  import opened Events
  import opened Tracks
  import opened Ordering

  /** The half-width of each of the three blurs. */
  const BlurSize := 10

  // ---------------------------------------------------------------- onsets

  /** The real times of the sounding notes (NoteOn, volume above 0), in
      event order. */
  function SoundingTimes(es: seq<ControlEvent>): seq<real>
  {
    if es == [] then []
    else
      var n := |es| - 1;
      SoundingTimes(es[..n]) + if es[n].NoteOn? && es[n].volume > 0 then [es[n].time] else []
  }

  /** The onsets the Model overloads work on: the sounding notes ordered by
      real time. */
  function Onsets(m: Model): (starts: seq<real>)
    ensures |starts| == |SoundingTimes(ControlEvents(m))|
    ensures forall a, b :: 0 <= a < b < |starts| ==> starts[a] <= starts[b]
    ensures forall t :: t in SoundingTimes(ControlEvents(m)) ==> t in starts
  {
    var keys := SoundingTimes(ControlEvents(m));
    var order := StableSort(keys);
    var r := seq(|keys|, k requires 0 <= k < |keys| => keys[order[k]]);
    assert forall a, b :: 0 <= a < b < |r| ==> r[a] <= r[b] by {
      forall a, b | 0 <= a < b < |r|
        ensures r[a] <= r[b]
      {
        StableOrderMonotone(keys, order, a, b);
      }
    }
    assert forall t :: t in keys ==> t in r by {
      forall t | t in keys
        ensures t in r
      {
        var i :| 0 <= i < |keys| && keys[i] == t;
        assert i in order;
        var k :| 0 <= k < |order| && order[k] == i;
        assert r[k] == t;
      }
    }
    r
  }

  // ------------------------------------------------------------- histogram

  function Sum(s: seq<int>): int
  {
    if s == [] then 0 else Sum(s[..|s| - 1]) + s[|s| - 1]
  }

  lemma {:induction false} SumUpdate(s: seq<int>, d: nat, v: int)
    requires d < |s|
    ensures Sum(s[d := v]) == Sum(s) - s[d] + v
  {
    var n := |s| - 1;
    assert s[d := v][..n] == if d == n then s[..n] else s[..n][d := v];
    if d < n {
      SumUpdate(s[..n], d, v);
    }
  }

  lemma {:induction false} SumOfZeros(n: nat)
    ensures Sum(seq(n, _ => 0)) == 0
  {
    if n > 0 {
      assert seq(n, _ => 0)[..n - 1] == seq(n - 1, _ => 0);
      SumOfZeros(n - 1);
    }
  }

  lemma {:induction false} SumNonNegative(s: seq<int>)
    requires forall k :: 0 <= k < |s| ==> s[k] >= 0
    ensures Sum(s) >= 0
  {
    if s != [] {
      SumNonNegative(s[..|s| - 1]);
    }
  }

  /** The gap before onset i in tenths of a millisecond, rounded as
      Math.Round rounds (halves to even). */
  function Gap(starts: seq<real>, i: nat): int
    requires 1 <= i < |starts|
  {
    RoundHalfEven((starts[i] - starts[i - 1]) * 10.0)
  }

  /** How many of the gaps before onsets 1 .. i-1 equal d. */
  function GapCount(starts: seq<real>, d: int, i: nat): nat
    requires i <= |starts|
  {
    if i <= 1 then 0 else GapCount(starts, d, i - 1) + if Gap(starts, i - 1) == d then 1 else 0
  }

  /** A gap the minimum lets through that is still negative: incrementing
      its bin indexes the array below 0. */
  predicate BadGap(starts: seq<real>, minDifference: int, i: nat)
    requires 1 <= i < |starts|
  {
    minDifference <= Gap(starts, i) < 0
  }

  /** The histogram after the loop has visited onsets 1 .. i-1: a gap
      below the minimum or past the last bin is skipped, any other gap
      adds one to its bin. */
  function Counted(starts: seq<real>, maxDifference: nat, minDifference: int, i: nat): (r: Result<seq<int>>)
    requires i <= |starts|
    ensures r.Ok? ==> |r.value| == maxDifference
  {
    if i <= 1 then Ok(seq(maxDifference, _ => 0))
    else
      match Counted(starts, maxDifference, minDifference, i - 1)
      case Fail(f) => Fail(f)
      case Ok(h) =>
        var d := Gap(starts, i - 1);
        if d < minDifference || d >= maxDifference then Ok(h)
        else if d < 0 then Fail(IndexOutOfRange)
        else Ok(h[d := h[d] + 1])
  }

  /** GetNoteDifferences: `new int[maxDifference]` throws for a negative
      length; otherwise the histogram over all onsets. */
  function NoteDifferences(starts: seq<real>, maxDifference: int, minDifference: int): Result<seq<int>>
  {
    if maxDifference < 0 then Fail(Overflow)
    else Counted(starts, maxDifference, minDifference, |starts|)
  }

  /** The loop fails exactly when some gap is let through but negative. */
  lemma {:induction false} CountedFails(starts: seq<real>, maxDifference: nat, minDifference: int, i: nat)
    requires i <= |starts|
    ensures Counted(starts, maxDifference, minDifference, i).Fail? <==>
      exists k :: 1 <= k < i && BadGap(starts, minDifference, k)
    ensures Counted(starts, maxDifference, minDifference, i).Fail? ==>
      Counted(starts, maxDifference, minDifference, i).failure == IndexOutOfRange
  {
    if i > 1 {
      CountedFails(starts, maxDifference, minDifference, i - 1);
      if Counted(starts, maxDifference, minDifference, i - 1).Ok? && BadGap(starts, minDifference, i - 1) {
        assert Gap(starts, i - 1) < maxDifference;
      }
    }
  }

  /** Bin d counts the gaps equal to d, when d passes the minimum. */
  lemma {:induction false} CountedBins(starts: seq<real>, maxDifference: nat, minDifference: int, i: nat)
    requires i <= |starts| && Counted(starts, maxDifference, minDifference, i).Ok?
    ensures forall d :: 0 <= d < maxDifference ==>
      Counted(starts, maxDifference, minDifference, i).value[d] ==
        if d >= minDifference then GapCount(starts, d, i) else 0
  {
    if i > 1 {
      CountedBins(starts, maxDifference, minDifference, i - 1);
    }
  }

  /** No bin is negative, and the bins together count at most one entry per
      gap. */
  lemma {:induction false} CountedTotal(starts: seq<real>, maxDifference: nat, minDifference: int, i: nat)
    requires i <= |starts| && Counted(starts, maxDifference, minDifference, i).Ok?
    ensures forall d :: 0 <= d < maxDifference ==> Counted(starts, maxDifference, minDifference, i).value[d] >= 0
    ensures Sum(Counted(starts, maxDifference, minDifference, i).value) <= if i == 0 then 0 else i - 1
  {
    if i <= 1 {
      SumOfZeros(maxDifference);
    } else {
      CountedTotal(starts, maxDifference, minDifference, i - 1);
      var h := Counted(starts, maxDifference, minDifference, i - 1).value;
      var d := Gap(starts, i - 1);
      if !(d < minDifference || d >= maxDifference) {
        SumUpdate(h, d, h[d] + 1);
      }
    }
  }

  /** Once the loop has failed it stays failed. */
  lemma {:induction false} CountedFailStays(starts: seq<real>, maxDifference: nat, minDifference: int, i: nat, j: nat)
    requires i <= j <= |starts| && Counted(starts, maxDifference, minDifference, i).Fail?
    ensures Counted(starts, maxDifference, minDifference, j) == Counted(starts, maxDifference, minDifference, i)
    decreases j
  {
    if j > i {
      CountedFailStays(starts, maxDifference, minDifference, i, j - 1);
    }
  }

  /** GetNoteDifferences: the loop over the onsets, leaving at the first bin
      index below 0. */
  method GetNoteDifferences(starts: seq<real>, maxDifference: int, minDifference: int) returns (r: Result<seq<int>>)
    ensures r == NoteDifferences(starts, maxDifference, minDifference)
  {
    if maxDifference < 0 {
      return Fail(Overflow);
    }
    var histogram := seq(maxDifference, _ => 0);
    var i := 1;
    while i < |starts|
      invariant 1 <= i
      invariant |starts| >= 1 ==> i <= |starts| && Counted(starts, maxDifference, minDifference, i) == Ok(histogram)
      invariant |starts| == 0 ==> histogram == seq(maxDifference, _ => 0)
    {
      var diff := RoundHalfEven((starts[i] - starts[i - 1]) * 10.0);
      if diff < minDifference || diff >= |histogram| {
        i := i + 1;
        continue;
      }
      if diff < 0 {
        CountedFailStays(starts, maxDifference, minDifference, i + 1, |starts|);
        return Fail(IndexOutOfRange);
      }
      histogram := histogram[diff := histogram[diff] + 1];
      i := i + 1;
    }
    r := Ok(histogram);
  }

  /** A minimum of 0 or more lets no negative gap through: only a negative
      length makes GetNoteDifferences throw. */
  lemma NoteDifferencesFailure(starts: seq<real>, maxDifference: int, minDifference: int)
    requires minDifference >= 0
    ensures NoteDifferences(starts, maxDifference, minDifference).Fail? <==> maxDifference < 0
    ensures NoteDifferences(starts, maxDifference, minDifference).Ok? ==>
      |NoteDifferences(starts, maxDifference, minDifference).value| == maxDifference
  {
    if maxDifference >= 0 {
      CountedFails(starts, maxDifference, minDifference, |starts|);
    }
  }

  // ------------------------------------------------------------------ blur

  /** The sum of the entries of `a` at indices lo .. hi-1, skipping the
      indices outside the array. */
  function WindowSum(a: seq<int>, lo: int, hi: int): int
    decreases hi - lo
  {
    if hi <= lo then 0 else WindowSum(a, lo, hi - 1) + if 0 <= hi - 1 < |a| then a[hi - 1] else 0
  }

  /** BoxBlur's result: entry i sums the inputs from i - size to i + size. */
  function Blurred(a: seq<int>, size: int): (r: seq<int>)
    ensures |r| == |a|
  {
    seq(|a|, i requires 0 <= i < |a| => WindowSum(a, i - size, i + size + 1))
  }

  /** A blur of width 0 changes nothing. */
  lemma BlurOfZeroIsIdentity(a: seq<int>)
    ensures Blurred(a, 0) == a
  {
    forall i | 0 <= i < |a|
      ensures Blurred(a, 0)[i] == a[i]
    {
      assert WindowSum(a, i, i + 1) == WindowSum(a, i, i) + a[i];
    }
  }

  /** A blur of negative width sums empty windows: every bin becomes 0. */
  lemma BlurOfNegativeWidth(a: seq<int>, size: int)
    requires size < 0
    ensures forall i :: 0 <= i < |a| ==> Blurred(a, size)[i] == 0
  {
    forall i | 0 <= i < |a|
      ensures Blurred(a, size)[i] == 0
    {
      assert i + size + 1 <= i - size;
      assert WindowSum(a, i - size, i + size + 1) == 0;
    }
  }

  lemma {:induction false} WindowNonNegative(a: seq<int>, lo: int, hi: int)
    requires forall k :: 0 <= k < |a| ==> a[k] >= 0
    ensures WindowSum(a, lo, hi) >= 0
    decreases hi - lo
  {
    if hi > lo {
      WindowNonNegative(a, lo, hi - 1);
    }
  }

  lemma {:induction false} WindowCovers(a: seq<int>, lo: int, hi: int, i: nat)
    requires forall k :: 0 <= k < |a| ==> a[k] >= 0
    requires lo <= i < hi && i < |a|
    ensures WindowSum(a, lo, hi) >= a[i]
    decreases hi - lo
  {
    if hi - 1 == i {
      WindowNonNegative(a, lo, hi - 1);
    } else {
      WindowCovers(a, lo, hi - 1, i);
    }
  }

  /** On counts, a blur of width 0 or more keeps every bin at least as high
      as it was and never goes negative. */
  lemma BlurDominates(a: seq<int>, size: int)
    requires size >= 0 && forall k :: 0 <= k < |a| ==> a[k] >= 0
    ensures forall i :: 0 <= i < |a| ==> Blurred(a, size)[i] >= a[i] >= 0
  {
    forall i | 0 <= i < |a|
      ensures Blurred(a, size)[i] >= a[i]
    {
      WindowCovers(a, i - size, i + size + 1, i);
    }
  }

  /** BoxBlur: for each output index, the window loop from i - size to
      i + size, skipping indices outside the array. */
  method BoxBlur(a: seq<int>, size: int) returns (r: seq<int>)
    ensures r == Blurred(a, size)
  {
    var output := new int[|a|];
    for i := 0 to |a|
      invariant forall k :: 0 <= k < i ==> output[k] == WindowSum(a, k - size, k + size + 1)
    {
      var sum := 0;
      var j := i - size;
      while j <= i + size
        invariant i - size <= j && (j <= i + size + 1 || j == i - size)
        invariant sum == WindowSum(a, i - size, j)
        decreases i + size + 1 - j
      {
        if 0 <= j < |a| {
          sum := sum + a[j];
        }
        j := j + 1;
      }
      output[i] := sum;
    }
    r := output[..];
  }

  /** The three blurs both callers apply. */
  function Smoothed(h: seq<int>): (r: seq<int>)
    ensures |r| == |h|
  {
    Blurred(Blurred(Blurred(h, BlurSize), BlurSize), BlurSize)
  }

  lemma SmoothedCounts(h: seq<int>)
    requires forall k :: 0 <= k < |h| ==> h[k] >= 0
    ensures forall k :: 0 <= k < |h| ==> Smoothed(h)[k] >= h[k]
    ensures Sum(Smoothed(h)) >= 0
  {
    BlurDominates(h, BlurSize);
    BlurDominates(Blurred(h, BlurSize), BlurSize);
    BlurDominates(Blurred(Blurred(h, BlurSize), BlurSize), BlurSize);
    SumNonNegative(Smoothed(h));
  }

  method Smooth(h: seq<int>) returns (r: seq<int>)
    ensures r == Smoothed(h)
  {
    r := BoxBlur(h, BlurSize);
    r := BoxBlur(r, BlurSize);
    r := BoxBlur(r, BlurSize);
  }

  // ------------------------------------------------------ most common gap

  /** The (value, index) pair of the peak loop after h[..n]: it starts at
      (0, 0) and is replaced only by a strictly larger value, so it ends at
      the first maximum, or stays at (0, 0) when nothing is positive. */
  function Peak(h: seq<int>, n: nat): (p: (int, nat))
    requires n <= |h|
    ensures p.0 >= 0 && forall k :: 0 <= k < n ==> h[k] <= p.0
    ensures p.0 > 0 ==> p.1 < n && h[p.1] == p.0 && forall k :: 0 <= k < p.1 ==> h[k] < p.0
    ensures p.0 == 0 ==> p.1 == 0
  {
    if n == 0 then (0, 0)
    else
      var p := Peak(h, n - 1);
      if p.0 < h[n - 1] then (h[n - 1], n - 1) else p
  }

  /** GetMostCommonDifference: the index of the smoothed histogram's first
      maximum, in milliseconds. */
  function MostCommonDifference(starts: seq<real>, frameRateMillis: int): (r: Result<real>)
  {
    match NoteDifferences(starts, frameRateMillis * 100, 1)
    case Fail(f) => Fail(f)
    case Ok(h) =>
      var smooth := Smoothed(h);
      Ok(Peak(smooth, |smooth|).1 as real / 10.0)
  }

  /** The most common gap fails only for a negative frame rate, and lies
      between 0 and the histogram's last bin. */
  lemma MostCommonDifferenceRange(starts: seq<real>, frameRateMillis: int)
    ensures MostCommonDifference(starts, frameRateMillis).Fail? <==> frameRateMillis < 0
    ensures MostCommonDifference(starts, frameRateMillis).Ok? ==>
      var v := MostCommonDifference(starts, frameRateMillis).value;
      0.0 <= v && (frameRateMillis > 0 ==> v * 10.0 < (frameRateMillis * 100) as real)
  {
    NoteDifferencesFailure(starts, frameRateMillis * 100, 1);
  }

  method GetMostCommonDifference(starts: seq<real>, frameRateMillis: int) returns (r: Result<real>)
    ensures r == MostCommonDifference(starts, frameRateMillis)
  {
    var histogram := GetNoteDifferences(starts, frameRateMillis * 100, 1);
    if histogram.Fail? {
      return Fail(histogram.failure);
    }
    var h := Smooth(histogram.value);
    var max: (int, nat) := (0, 0);
    for i := 0 to |h|
      invariant max == Peak(h, i)
    {
      if max.0 < h[i] {
        max := (h[i], i);
      }
    }
    r := Ok(max.1 as real / 10.0);
  }

  // -------------------------------------------------- smallest important gap

  /** The break loop of GetSmallestImportantDifference from index i on, with
      the running sum and the best (value, index) so far: a larger value
      takes over, and a smaller value once the running sum has passed the
      median ends the scan. */
  function Scan(h: seq<int>, median: int, i: nat, sum: int, best: (int, nat)): (p: (int, nat))
    requires i <= |h|
    ensures p == best || (i <= p.1 < |h| && p.0 == h[p.1])
    decreases |h| - i
  {
    if i == |h| then best
    else
      var s := sum + h[i];
      if best.0 < h[i] then Scan(h, median, i + 1, s, (h[i], i))
      else if best.0 > h[i] && s > median then best
      else Scan(h, median, i + 1, s, best)
  }

  /** (int)((index + 0.5) / d): the float cast lands on the integer
      quotient. */
  function Fraction(index: nat, d: int): (k: nat)
    requires d >= 1
    ensures k == index / d && k <= index
  {
    HalfStep(index, d);
    QuotientBounds(index, d);
    Trunc((index as real + 0.5) / d as real)
  }

  lemma QuotientBounds(index: nat, d: int)
    requires d >= 1
    ensures 0 <= index / d <= index
  {
  }

  lemma HalfStep(index: nat, d: int)
    requires d >= 1
    ensures Trunc((index as real + 0.5) / d as real) == index / d
  {
    var q := index / d;
    FrameStep(q, d);
    assert Frames(q, d) <= index < Frames(q + 1, d);
    assert (q * d) as real == q as real * d as real;
    assert ((q + 1) * d) as real == (q as real + 1.0) * d as real;
    LeDiv(q as real, d as real, index as real + 0.5);
    DivLt(q as real + 1.0, d as real, index as real + 0.5);
  }

  lemma LeDiv(a: real, b: real, c: real)
    requires b > 0.0 && a * b <= c
    ensures a <= c / b
  {
  }

  lemma DivLt(a: real, b: real, c: real)
    requires b > 0.0 && c < a * b
    ensures c / b < a
  {
  }

  /** If x divides m and y divides n, then x * y divides m * n. */
  lemma ProductDivides(x: nat, y: nat, m: nat, n: nat)
    requires x >= 1 && y >= 1 && m % x == 0 && n % y == 0
    ensures x * y >= 1 && (m * n) % (x * y) == 0
  {
    var i, j := m / x, n / y;
    assert m * n == (x * y) * (i * j) by {
      assert m == x * i && n == y * j;
    }
    DivModUnique(m * n, x * y, i * j, 0);
  }

  /** Bin index/d holds more than a quarter of the peak value. */
  predicate Strong(h: seq<int>, p: (int, nat), d: int)
    requires p.1 < |h| && d >= 1
  {
    h[Fraction(p.1, d)] * 4 > p.0
  }

  /** The factor of the group 8/4/2: the first whose bin is strong, else 1. */
  function TwosFactor(h: seq<int>, p: (int, nat)): (f: nat)
    requires p.1 < |h|
    ensures f == 1 || f == 2 || f == 4 || f == 8
  {
    if Strong(h, p, 8) then 8 else if Strong(h, p, 4) then 4 else if Strong(h, p, 2) then 2 else 1
  }

  /** The factor of the group 9/3. */
  function ThreesFactor(h: seq<int>, p: (int, nat)): (f: nat)
    requires p.1 < |h|
    ensures f == 1 || f == 3 || f == 9
  {
    if Strong(h, p, 9) then 9 else if Strong(h, p, 3) then 3 else 1
  }

  /** The factor of a group with the one prime q. */
  function PrimeFactor(h: seq<int>, p: (int, nat), q: nat): (f: nat)
    requires p.1 < |h| && q >= 1
    ensures f == 1 || f == q
  {
    if Strong(h, p, q) then q else 1
  }

  /** The divisor GetSmallestImportantDifference applies: one factor from
      each of the groups 8/4/2, 9/3, 5 and 7, the first of its group whose
      sub-multiple bin is strong. */
  function Divisor(h: seq<int>, p: (int, nat)): (div: nat)
    requires p.1 < |h|
    ensures div >= 1 && 2520 % div == 0
  {
    var a, b, c, e := TwosFactor(h, p), ThreesFactor(h, p), PrimeFactor(h, p, 5), PrimeFactor(h, p, 7);
    assert 8 % a == 0 && 9 % b == 0 && 5 % c == 0 && 7 % e == 0;
    ProductDivides(a, b, 8, 9);
    ProductDivides(a * b, c, 72, 5);
    ProductDivides(a * b * c, e, 360, 7);
    a * b * c * e
  }

  /** GetSmallestImportantDifference(notes, frameRateMillis). */
  function SmallestDifference(starts: seq<real>, frameRateMillis: int): (r: Result<real>)
  {
    match NoteDifferences(starts, frameRateMillis * 100, frameRateMillis * 10)
    case Fail(f) => Fail(f)
    case Ok(h0) =>
      var h := Smoothed(h0);
      var median := Sum(h) / 2;
      if median == 0 then Ok(0.0)
      else
        var p := Scan(h, median, 0, 0, (0, 0));
        Ok(Tenths(p.1, Divisor(h, p)))
  }

  /** index / 10f / div. */
  function Tenths(index: nat, div: nat): (r: real)
    requires div >= 1
    ensures r >= 0.0 && (r == 0.0 <==> index == 0)
  {
    index as real / 10.0 / div as real
  }

  /** The smallest important gap fails only for a negative frame rate, is
      never negative, is the peak's index over ten over a divisor of 2520,
      and is 0 unless the frame rate is positive. */
  lemma SmallestDifferenceRange(starts: seq<real>, frameRateMillis: int)
    ensures SmallestDifference(starts, frameRateMillis).Fail? <==> frameRateMillis < 0
    ensures SmallestDifference(starts, frameRateMillis).Ok? ==>
      var v := SmallestDifference(starts, frameRateMillis).value;
      v >= 0.0 && (v != 0.0 ==> frameRateMillis > 0) &&
      exists index: nat, div: nat :: div >= 1 && 2520 % div == 0 && v == Tenths(index, div)
  {
    if frameRateMillis >= 0 {
      NoteDifferencesFailure(starts, frameRateMillis * 100, frameRateMillis * 10);
      var h0 := NoteDifferences(starts, frameRateMillis * 100, frameRateMillis * 10).value;
      var h := Smoothed(h0);
      var v := SmallestDifference(starts, frameRateMillis).value;
      if Sum(h) / 2 == 0 {
        assert v == 0.0 == Tenths(0, 1);
      } else {
        assert h != [];
        assert |h0| == frameRateMillis * 100 > 0;
        var p := Scan(h, Sum(h) / 2, 0, 0, (0, 0));
        var div := Divisor(h, p);
        assert v == Tenths(p.1, div);
      }
    }
  }

  /** GetSmallestImportantDifference on a list of notes. */
  method GetSmallestImportantDifference(starts: seq<real>, frameRateMillis: int) returns (r: Result<real>)
    ensures r == SmallestDifference(starts, frameRateMillis)
  {
    var histogram := GetNoteDifferences(starts, frameRateMillis * 100, frameRateMillis * 10);
    if histogram.Fail? {
      return Fail(histogram.failure);
    }
    var h := Smooth(histogram.value);
    var median := Sum(h) / 2;
    if median == 0 {
      return Ok(0.0);
    }
    var max := ScanPeak(h, median);
    var div := PeakDivisor(h, max);
    r := Ok(Tenths(max.1, div));
  }

  /** The break loop: the running sum and the peak so far. */
  method ScanPeak(h: seq<int>, median: int) returns (max: (int, nat))
    requires h != []
    ensures max == Scan(h, median, 0, 0, (0, 0)) && max.1 < |h|
  {
    ghost var final := Scan(h, median, 0, 0, (0, 0));
    max := (0, 0);
    var sum := 0;
    var i := 0;
    while i < |h|
      invariant i <= |h|
      invariant Scan(h, median, i, sum, max) == final
      invariant max.1 < |h|
    {
      sum := sum + h[i];
      if max.0 < h[i] {
        max := (h[i], i);
      } else if max.0 > h[i] && sum > median {
        break;
      }
      i := i + 1;
    }
  }

  /** The four divisor tests, at the bins index/8, index/4, ... */
  method PeakDivisor(h: seq<int>, max: (int, nat)) returns (div: nat)
    requires max.1 < |h|
    ensures div == Divisor(h, max)
  {
    div := 1;
    if h[Fraction(max.1, 8)] * 4 > max.0 {
      div := div * 8;
    } else if h[Fraction(max.1, 4)] * 4 > max.0 {
      div := div * 4;
    } else if h[Fraction(max.1, 2)] * 4 > max.0 {
      div := div * 2;
    }
    assert div == TwosFactor(h, max);
    if h[Fraction(max.1, 9)] * 4 > max.0 {
      div := div * 9;
    } else if h[Fraction(max.1, 3)] * 4 > max.0 {
      div := div * 3;
    }
    assert div == TwosFactor(h, max) * ThreesFactor(h, max);
    if h[Fraction(max.1, 5)] * 4 > max.0 {
      div := div * 5;
    }
    assert div == TwosFactor(h, max) * ThreesFactor(h, max) * PrimeFactor(h, max, 5);
    if h[Fraction(max.1, 7)] * 4 > max.0 {
      div := div * 7;
    }
  }

  /** GetSmallestImportantDifference(midi, frameRateMillis). */
  method SmallestImportantDifferenceOf(m: Model, frameRateMillis: int) returns (r: Result<real>)
    ensures r == SmallestDifference(Onsets(m), frameRateMillis)
  {
    r := GetSmallestImportantDifference(Onsets(m), frameRateMillis);
  }

  // ---------------------------------------------------- relative time change

  function RealAbs(x: real): real
  {
    if x < 0.0 then -x else x
  }

  /** k frames of `rate` milliseconds. */
  function Frames(k: int, rate: int): int
  {
    k * rate
  }

  lemma FrameStep(k: int, rate: int)
    ensures Frames(k + 1, rate) == Frames(k, rate) + rate
  {
  }

  lemma FramesMonotone(j: int, k: int, rate: int)
    requires rate > 0 && j <= k
    ensures Frames(j, rate) <= Frames(k, rate)
  {
    assert Frames(k, rate) - Frames(j, rate) == (k - j) * rate;
    if j < k {
      MulMonotone(k - j, rate);
    }
  }

  /** The whole number of frames closer to the gap, between the multiple at
      or below its integer part and the one above; 0 frames are never
      chosen, and a tie goes to the lower one. */
  function Closer(diff: real, rate: int): (c: int)
    requires diff > 0.0 && rate > 0
  {
    var low := Frames(Trunc(diff) / rate, rate);
    var high := Frames(Trunc(diff) / rate + 1, rate);
    if low == 0 || high as real - diff < diff - low as real then high else low
  }

  /** The chosen length is the positive whole number of frames nearest to
      the gap. */
  lemma CloserIsNearest(diff: real, rate: int)
    requires diff > 0.0 && rate > 0
    ensures Closer(diff, rate) > 0 && Closer(diff, rate) % rate == 0
    ensures forall k :: k >= 1 ==>
      RealAbs(Closer(diff, rate) as real - diff) <= RealAbs(Frames(k, rate) as real - diff)
  {
    var q := Trunc(diff) / rate;
    var low, high := Frames(q, rate), Frames(q + 1, rate);
    FrameStep(q, rate);
    assert low <= Trunc(diff) < high;
    assert low as real <= diff < high as real;
    FramesMonotone(0, q, rate);
    DivModUnique(low, rate, q, 0);
    DivModUnique(high, rate, q + 1, 0);
    forall k | k >= 1
      ensures RealAbs(Closer(diff, rate) as real - diff) <= RealAbs(Frames(k, rate) as real - diff)
    {
      if k <= q {
        FramesMonotone(k, q, rate);
      } else {
        FramesMonotone(q + 1, k, rate);
      }
    }
  }

  /** GetRelativeTimeChange(midi, frameRateMillis): 1 when the smallest
      important gap is 0, otherwise the nearest whole number of frames over
      the gap. */
  function RelativeTimeChange(starts: seq<real>, frameRateMillis: int): (r: Result<real>)
  {
    match SmallestDifference(starts, frameRateMillis)
    case Fail(f) => Fail(f)
    case Ok(diff) =>
      if diff == 0.0 then Ok(1.0)
      else
        SmallestDifferenceRange(starts, frameRateMillis);
        Ok(Closer(diff, frameRateMillis) as real / diff)
  }

  /** The change fails only for a negative frame rate and is always
      positive: exactly 1 when there is no important gap. */
  lemma RelativeTimeChangeRange(starts: seq<real>, frameRateMillis: int)
    ensures RelativeTimeChange(starts, frameRateMillis).Fail? <==> frameRateMillis < 0
    ensures SmallestDifference(starts, frameRateMillis) == Ok(0.0) ==> RelativeTimeChange(starts, frameRateMillis) == Ok(1.0)
    ensures RelativeTimeChange(starts, frameRateMillis).Ok? ==> RelativeTimeChange(starts, frameRateMillis).value > 0.0
  {
    SmallestDifferenceRange(starts, frameRateMillis);
    var s := SmallestDifference(starts, frameRateMillis);
    if s.Ok? && s.value != 0.0 {
      CloserIsNearest(s.value, frameRateMillis);
      DivPositive(Closer(s.value, frameRateMillis) as real, s.value);
    }
  }

  lemma DivPositive(a: real, b: real)
    requires a > 0.0 && b > 0.0
    ensures a / b > 0.0
  {
  }

  /** The low and high multiples of the frame rate around the gap, and
      the closer of the two. */
  method NearestFrames(diff: real, rate: int) returns (closer: int)
    requires diff > 0.0 && rate > 0
    ensures closer == Closer(diff, rate)
  {
    var low := (Trunc(diff) / rate) * rate;
    var high := (Trunc(diff) / rate + 1) * rate;
    closer := if low == 0 || high as real - diff < diff - low as real then high else low;
  }

  method GetRelativeTimeChange(m: Model, frameRateMillis: int) returns (r: Result<real>)
    ensures r == RelativeTimeChange(Onsets(m), frameRateMillis)
  {
    var starts := Onsets(m);
    var rate := frameRateMillis;
    var d := GetSmallestImportantDifference(starts, frameRateMillis);
    if d.Fail? {
      return Fail(d.failure);
    }
    var diff := d.value;
    if diff == 0.0 {
      return Ok(1.0);
    }
    SmallestDifferenceRange(starts, frameRateMillis);
    var closer := NearestFrames(diff, rate);
    r := Ok(closer as real / diff);
  }
}
