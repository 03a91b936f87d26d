/** Normalizer.cs: decides where the beats come from and creates them. A
    file whose notes fit its own tick grid well keeps that grid (one beat
    per denominator note of each time signature); otherwise the detected
    tactus is laid out from time 0 and the beat strengths are analysed. */
module Normalizer {
  import opened Wrappers
  import opened MathExt
  import opened Ordering
  import opened BeatStrength

  /** A time signature of the file: its tick and the two fields the grid
      uses. The denominator is the byte the parser stored (1 << n). */
  datatype Signature = Signature(tick: nat, numerator: nat, denominator: nat)

  /** A beat of the embedded grid: its tick and its level. */
  datatype GridBeat = GridBeat(tick: nat, level: int)

  /** The level of the beat with bar counter c in a bar of n beats: the bar
      start is strong (0); the third beat of four and the fourth of six are
      medium (1); every other beat is weak (2). */
  function BeatLevel(c: nat, n: nat): (l: int)
    requires n > 0
    ensures 0 <= l <= 2
  {
    if c % n == 0 then 0
    else if (n == 4 && c % n == 2) || (n == 6 && c % n == 3) then 1
    else 2
  }

  /** Levels repeat bar by bar; a bar starts strong and only its start is. */
  lemma BeatLevelPeriodic(c: nat, n: nat)
    requires n > 0
    ensures BeatLevel(c + n, n) == BeatLevel(c, n)
    ensures BeatLevel(c * n, n) == 0
    ensures 0 < c < n ==> BeatLevel(c, n) != 0
  {
    DivModUnique(c + n, n, c / n + 1, c % n);
    DivModUnique(c * n, n, c, 0);
    if c < n {
      DivModUnique(c, n, 0, c);
    }
  }

  /** The levels of one bar of 4/4, 6/8 and 3/4. */
  lemma BarPatterns()
    ensures seq(4, c requires 0 <= c => BeatLevel(c, 4)) == [0, 2, 1, 2]
    ensures seq(6, c requires 0 <= c => BeatLevel(c, 6)) == [0, 2, 2, 1, 2, 2]
    ensures seq(3, c requires 0 <= c => BeatLevel(c, 3)) == [0, 2, 2]
  {
  }

  /** How far `time` still is from passing `end`. */
  function Gap(end: nat, time: nat): nat
  {
    if time > end then 0 else end + 1 - time
  }

  /** The grid loop of CalculateImplicitMetre from tick `time` on, with the
      signatures not yet reached in `queue`, the bar length `numerator`, the
      bar counter and the step in ticks. At each beat a signature whose tick
      has been reached is taken (one per beat), which restarts the bar and
      sets the step to baseTick * 4 / denominator. A zero denominator or
      numerator divides by zero; a zero step with no signature left to
      change it never ends. */
  function Grid(baseTick: nat, end: nat, time: nat, queue: seq<Signature>, numerator: nat, counter: nat, step: nat): (r: Result<seq<GridBeat>>)
    decreases Gap(end, time), |queue|
  {
    if time > end then Ok([])
    else
      var change := queue != [] && queue[0].tick <= time;
      var rest := if change then queue[1..] else queue;
      if change && queue[0].denominator == 0 then Fail(DivideByZero)
      else
        var n := if change then queue[0].numerator else numerator;
        var c := if change then 0 else counter;
        var s := if change then StepOf(baseTick, queue[0].denominator) else step;
        if n == 0 then Fail(DivideByZero)
        else if s == 0 && !(rest != [] && rest[0].tick <= time) then Fail(Diverges)
        else
          var tail := Grid(baseTick, end, time + s, rest, n, c + 1, s);
          if tail.Fail? then tail else Ok([GridBeat(time, BeatLevel(c, n))] + tail.value)
  }

  /** The step of a signature with this denominator: baseTick ticks are a
      quarter note, so a denominator d steps 4 / d quarters. */
  function StepOf(baseTick: nat, denominator: nat): nat
    requires denominator > 0
  {
    baseTick * 4 / denominator
  }

  /** Beats found so far followed by the rest of the grid. */
  function Then(done: seq<GridBeat>, rest: Result<seq<GridBeat>>): Result<seq<GridBeat>>
  {
    if rest.Fail? then rest else Ok(done + rest.value)
  }

  lemma ThenAssoc(a: seq<GridBeat>, b: seq<GridBeat>, rest: Result<seq<GridBeat>>)
    ensures Then(a, Then(b, rest)) == Then(a + b, rest)
  {
    if rest.Ok? {
      assert a + (b + rest.value) == a + b + rest.value;
    }
  }

  /** Without signature changes the grid is evenly spaced: beat j is at
      time + j * step with the level of bar counter counter + j, up to end. */
  lemma {:induction false} SteadyGrid(baseTick: nat, end: nat, time: nat, numerator: nat, counter: nat, step: nat)
    requires numerator > 0 && step > 0
    ensures Grid(baseTick, end, time, [], numerator, counter, step).Ok?
    ensures var g := Grid(baseTick, end, time, [], numerator, counter, step).value;
      |g| == (if time > end then 0 else (end - time) / step + 1) &&
      forall j :: 0 <= j < |g| ==> g[j] == GridBeat(time + j * step, BeatLevel(counter + j, numerator))
    decreases Gap(end, time)
  {
    if time <= end {
      SteadyGrid(baseTick, end, time + step, numerator, counter + 1, step);
      var g := Grid(baseTick, end, time, [], numerator, counter, step).value;
      var t := Grid(baseTick, end, time + step, [], numerator, counter + 1, step).value;
      assert g == [GridBeat(time, BeatLevel(counter, numerator))] + t;
      if time + step > end {
        assert (end - time) / step == 0;
      } else {
        DivStep(end - time, step);
      }
      forall j | 0 <= j < |g|
        ensures g[j] == GridBeat(time + j * step, BeatLevel(counter + j, numerator))
      {
        if j > 0 {
          assert g[j] == t[j - 1];
          assert time + step + (j - 1) * step == time + j * step;
        }
      }
    }
  }

  /** Taking one step off the distance takes one off the quotient. */
  lemma DivStep(d: nat, step: nat)
    requires 0 < step <= d
    ensures (d - step) / step + 1 == d / step
  {
    DivModUnique(d, step, (d - step) / step + 1, (d - step) % step);
  }

  /** A time signature that has been reached starts a new bar: the next beat
      is strong. */
  lemma ChangeStartsBar(baseTick: nat, end: nat, time: nat, queue: seq<Signature>, numerator: nat, counter: nat, step: nat)
    requires queue != [] && queue[0].tick <= time <= end
    requires Grid(baseTick, end, time, queue, numerator, counter, step).Ok?
    ensures Grid(baseTick, end, time, queue, numerator, counter, step).value[0] == GridBeat(time, 0)
  {
  }

  /** Every grid beat lies between the start and the end of the piece, in
      order of ticks. */
  lemma {:induction false} GridInRange(baseTick: nat, end: nat, time: nat, queue: seq<Signature>, numerator: nat, counter: nat, step: nat)
    requires Grid(baseTick, end, time, queue, numerator, counter, step).Ok?
    ensures var g := Grid(baseTick, end, time, queue, numerator, counter, step).value;
      (forall j :: 0 <= j < |g| ==> time <= g[j].tick <= end) &&
      (forall i, j :: 0 <= i < j < |g| ==> g[i].tick <= g[j].tick)
    decreases Gap(end, time), |queue|
  {
    if time <= end {
      var change := queue != [] && queue[0].tick <= time;
      var rest := if change then queue[1..] else queue;
      var n := if change then queue[0].numerator else numerator;
      var c := if change then 0 else counter;
      var s := if change then StepOf(baseTick, queue[0].denominator) else step;
      GridInRange(baseTick, end, time + s, rest, n, c + 1, s);
    }
  }

  /** The signature ticks, the key CalculateImplicitMetre orders them by. */
  function SignatureTicks(sigs: seq<Signature>): (r: seq<real>)
    ensures |r| == |sigs|
  {
    seq(|sigs|, k requires 0 <= k < |sigs| => sigs[k].tick as real)
  }

  /** The embedded grid from `offset`: a level-2 beat at tick 0 first when
      the offset is positive, then the grid in the initial 4/4 with a step of
      one quarter note (baseTick ticks). */
  function ImplicitGrid(baseTick: nat, end: nat, offset: nat, sigs: seq<Signature>): Result<seq<GridBeat>>
  {
    Then(if offset > 0 then [GridBeat(0, 2)] else [],
      Grid(baseTick, end, offset, Arranged(sigs, StableSort(SignatureTicks(sigs))), 4, 0, StepOf(baseTick, 4)))
  }

  /** The queue of time signatures, ordered by tick. */
  method SignaturesInTickOrder(sigs: seq<Signature>) returns (queue: seq<Signature>)
    ensures queue == Arranged(sigs, StableSort(SignatureTicks(sigs)))
  {
    var order := OrderBy(SignatureTicks(sigs));
    StableOrderUnique(SignatureTicks(sigs), order, StableSort(SignatureTicks(sigs)));
    queue := Arranged(sigs, order);
  }

  /** The beat-adding part of CalculateImplicitMetre, on ticks. */
  method ImplicitBeats(baseTick: nat, end: nat, offset: nat, sigs: seq<Signature>) returns (r: Result<seq<GridBeat>>)
    ensures r == ImplicitGrid(baseTick, end, offset, sigs)
  {
    var queue := SignaturesInTickOrder(sigs);
    var start := if offset > 0 then [GridBeat(0, 2)] else [];
    r := GridLoop(baseTick, end, start, offset, queue, 4, 0, StepOf(baseTick, 4));
  }

  /** The grid loop of CalculateImplicitMetre, appending to `start` the
      beats from tick `time` on. */
  method GridLoop(baseTick: nat, end: nat, start: seq<GridBeat>, time: nat, queue: seq<Signature>, numerator: nat, counter: nat, step: nat)
    returns (r: Result<seq<GridBeat>>)
    ensures r == Then(start, Grid(baseTick, end, time, queue, numerator, counter, step))
  {
    var beats := start;
    var time: nat, queue: seq<Signature>, numerator: nat, counter: nat, step: nat := time, queue, numerator, counter, step;
    ghost var target := Then(start, Grid(baseTick, end, time, queue, numerator, counter, step));
    while time <= end
      invariant Then(beats, Grid(baseTick, end, time, queue, numerator, counter, step)) == target
      decreases Gap(end, time), |queue|
    {
      var change := queue != [] && queue[0].tick <= time;
      var rest := if change then queue[1..] else queue;
      if change && queue[0].denominator == 0 {
        return Fail(DivideByZero);
      }
      var n: nat := if change then queue[0].numerator else numerator;
      var c: nat := if change then 0 else counter;
      var s: nat := if change then StepOf(baseTick, queue[0].denominator) else step;
      if n == 0 {
        return Fail(DivideByZero);
      }
      if s == 0 && !(rest != [] && rest[0].tick <= time) {
        return Fail(Diverges);
      }
      ThenAssoc(beats, [GridBeat(time, BeatLevel(c, n))], Grid(baseTick, end, time + s, rest, n, c + 1, s));
      beats := beats + [GridBeat(time, BeatLevel(c, n))];
      queue, numerator, counter, step := rest, n, c + 1, s;
      time := time + s;
    }
    assert beats + [] == beats;
    r := Ok(beats);
  }

  /** The lengths CalculateBeatLengths gives beats already in time order:
      each beat lasts until the next one starts and the last beat copies the
      length of the one before it. With fewer than two beats the copy reads
      index -1. */
  function WithLengths(sorted: seq<Beat>): (r: Result<seq<Beat>>)
  {
    if |sorted| < 2 then Fail(IndexOutOfRange)
    else Ok(seq(|sorted|, k requires 0 <= k < |sorted| => Measured(sorted, k)))
  }

  /** Beat k of at least two beats in time order, with its length set. */
  function Measured(sorted: seq<Beat>, k: nat): Beat
    requires 2 <= |sorted| && k < |sorted|
  {
    var n := |sorted|;
    sorted[k].(length := if k < n - 1 then sorted[k + 1].time - sorted[k].time
                         else sorted[n - 1].time - sorted[n - 2].time)
  }

  /** The beats keep their onsets and levels; each one but the last ends
      where the next begins, and the last is as long as the one before. */
  lemma LengthsTile(sorted: seq<Beat>)
    requires |sorted| >= 2
    ensures var r := WithLengths(sorted).value;
      |r| == |sorted| &&
      (forall k :: 0 <= k < |r| ==> r[k].time == sorted[k].time && r[k].level == sorted[k].level) &&
      (forall k :: 0 <= k < |r| - 1 ==> r[k].time + r[k].length == r[k + 1].time) &&
      r[|r| - 1].length == r[|r| - 2].length
  {
  }

  /** The lengths of the beats. */
  function Lengths(beats: seq<Beat>): (r: seq<real>)
    ensures |r| == |beats|
  {
    seq(|beats|, k requires 0 <= k < |beats| => beats[k].length)
  }

  /** Chained beats span from the first onset to the onset of beat k: the
      lengths before it add up to the distance. */
  lemma {:induction false} ChainSpans(beats: seq<Beat>, k: nat)
    requires k < |beats|
    requires forall j :: 0 <= j < |beats| - 1 ==> beats[j].time + beats[j].length == beats[j + 1].time
    ensures Sum(Lengths(beats)[..k]) == beats[k].time - beats[0].time
  {
    if k > 0 {
      ChainSpans(beats, k - 1);
      assert Lengths(beats)[..k][..k - 1] == Lengths(beats)[..k - 1];
    }
  }

  /** CalculateBeatLengths: the beats ordered by onset, their lengths written
      in place. */
  method CalculateBeatLengths(beats: seq<Beat>) returns (r: Result<seq<Beat>>)
    ensures r == WithLengths(InTimeOrder(beats))
  {
    var order := OrderBy(BeatTimes(beats));
    StableOrderUnique(BeatTimes(beats), order, StableSort(BeatTimes(beats)));
    var sorted := Arranged(beats, order);
    assert sorted == InTimeOrder(beats);
    if |sorted| < 2 {
      return Fail(IndexOutOfRange);
    }
    var measured := MeasureInPlace(sorted);
    r := Ok(measured);
  }

  /** The loop of CalculateBeatLengths over the ordered beats. */
  method MeasureInPlace(sorted: seq<Beat>) returns (measured: seq<Beat>)
    requires |sorted| >= 2
    ensures Ok(measured) == WithLengths(sorted)
  {
    var n := |sorted|;
    var a := new Beat[n](k requires 0 <= k < n reads {} => sorted[k]);
    for i := 0 to n - 1
      invariant forall k :: 0 <= k < i ==> a[k] == Measured(sorted, k)
      invariant forall k :: i <= k < n ==> a[k] == sorted[k]
    {
      var next := a[i + 1].time;
      a[i] := a[i].(length := next - a[i].time);
      assert a[i] == Measured(sorted, i);
    }
    a[n - 1] := a[n - 1].(length := a[n - 2].length);
    measured := a[..];
    assert forall k :: 0 <= k < n ==> measured[k] == Measured(sorted, k);
    assert measured == WithLengths(sorted).value;
  }

  /** The beats CreateBeatEvents lays out: beat k starts where the lengths
      before it add up to, lasts metre[k] and is strong. */
  function Tiling(metre: seq<real>): (r: seq<Beat>)
    ensures |r| == |metre|
  {
    seq(|metre|, k requires 0 <= k < |metre| => Beat(Sum(metre[..k]), metre[k], 0))
  }

  /** The tiling starts at 0 and each beat starts where the previous ends. */
  lemma TilingTiles(metre: seq<real>)
    ensures var r := Tiling(metre);
      (r != [] ==> r[0].time == 0.0) &&
      (forall k :: 0 <= k < |r| ==> r[k].length == metre[k] && r[k].level == 0) &&
      (forall k :: 0 <= k < |r| - 1 ==> r[k].time + r[k].length == r[k + 1].time)
  {
    forall k | 0 <= k < |metre| - 1
      ensures Sum(metre[..k]) + metre[k] == Sum(metre[..k + 1])
    {
      assert metre[..k + 1][..k] == metre[..k];
    }
  }

  /** CreateBeatEvents: one strong beat per metre entry, from time 0. */
  method CreateBeatEvents(metre: seq<real>) returns (beats: seq<Beat>)
    ensures beats == Tiling(metre)
  {
    var time := 0.0;
    beats := [];
    for i := 0 to |metre|
      invariant beats == Tiling(metre[..i])
      invariant time == Sum(metre[..i])
    {
      assert metre[..i + 1][..i] == metre[..i];
      beats := beats + [Beat(time, metre[i], 0)];
      time := time + metre[i];
      assert beats == Tiling(metre[..i + 1]) by {
        forall k | 0 <= k < i
          ensures metre[..i + 1][..k] == metre[..i][..k]
        {
        }
      }
    }
    assert metre[..|metre|] == metre;
  }

  /** x repeated k times. */
  function Repeat(x: real, k: nat): (r: seq<real>)
    ensures |r| == k
  {
    seq(k, _ => x)
  }

  lemma SumRepeat(xs: seq<real>, x: real, k: nat)
    ensures Sum(xs + Repeat(x, k)) == Sum(xs) + k as real * x
  {
    var r := Repeat(x, k);
    SumAppend(xs, r);
    assert forall j :: 0 <= j < |r| ==> r[j] == x;
    SumConst(r, x);
    assert |r| == k;
  }

  /** How many copies of the last beat length the extension loop of
      CalculateMetre appends to a metre of total length `total` to get past
      `length`. */
  function Copies(total: real, length: real, last: real): nat
    requires last > 0.0
  {
    if total > length then 0
    else
      QuotientNonNegative(length - total, last);
      ((length - total) / last).Floor + 1
  }

  lemma QuotientNonNegative(a: real, b: real)
    requires a >= 0.0 && b > 0.0
    ensures a / b >= 0.0
  {
  }

  /** After j copies the loop goes on exactly while j is below Copies. */
  lemma CopiesExact(total: real, length: real, last: real, j: nat)
    requires last > 0.0
    ensures total + j as real * last <= length <==> j < Copies(total, length, last)
  {
    if total <= length {
      var q := (length - total) / last;
      assert q * last == length - total;
      if j as real <= q {
        assert j as real * last <= q * last;
      } else {
        assert j as real * last > q * last;
      }
    }
  }

  /** The metre CalculateMetre lays out: the detected beat lengths, and then
      copies of the last one until they reach past the length of the piece.
      An empty metre fails at its last element; a last length that is not
      positive never gets there. */
  function Extended(metre: seq<real>, length: real): (r: Result<seq<real>>)
  {
    if Sum(metre) > length then Ok(metre)
    else if metre == [] then Fail(InvalidOperation)
    else
      var last := metre[|metre| - 1];
      if last <= 0.0 then Fail(Diverges)
      else Ok(metre + Repeat(last, Copies(Sum(metre), length, last)))
  }

  /** The extended metre reaches past the length of the piece, keeps the
      detected lengths in front, and stops at the first copy that does. */
  lemma ExtendedCovers(metre: seq<real>, length: real)
    requires Extended(metre, length).Ok?
    ensures var r := Extended(metre, length).value;
      Sum(r) > length && r[..|metre|] == metre &&
      (|r| > |metre| ==> Sum(r[..|r| - 1]) <= length)
  {
    if Sum(metre) <= length {
      var last := metre[|metre| - 1];
      var k := Copies(Sum(metre), length, last);
      assert Extended(metre, length).value == metre + Repeat(last, k);
      CopiesReach(metre, length, last, k);
      CopiesStop(metre, length, last, k);
    }
  }

  /** k copies of last reach past the length, the metre still in front. */
  lemma CopiesReach(metre: seq<real>, length: real, last: real, k: nat)
    requires last > 0.0 && k == Copies(Sum(metre), length, last)
    ensures Sum(metre + Repeat(last, k)) > length && (metre + Repeat(last, k))[..|metre|] == metre
  {
    SumRepeat(metre, last, k);
    CopiesExact(Sum(metre), length, last, k);
  }

  /** One copy fewer does not reach past the length. */
  lemma CopiesStop(metre: seq<real>, length: real, last: real, k: nat)
    requires last > 0.0 && k == Copies(Sum(metre), length, last) && k > 0
    ensures Sum((metre + Repeat(last, k))[..|metre| + k - 1]) <= length
  {
    var j: nat := k - 1;
    CopiesExact(Sum(metre), length, last, j);
    assert Sum(metre) + j as real * last <= length;
    SumRepeat(metre, last, j);
    RepeatPrefix(metre, last, k);
  }

  /** All copies but the last. */
  lemma RepeatPrefix(xs: seq<real>, x: real, k: nat)
    requires k > 0
    ensures (xs + Repeat(x, k))[..|xs| + k - 1] == xs + Repeat(x, k - 1)
  {
    var a := (xs + Repeat(x, k))[..|xs| + k - 1];
    var b := xs + Repeat(x, k - 1);
    assert |a| == |b|;
    forall i | 0 <= i < |a|
      ensures a[i] == b[i]
    {
      if i >= |xs| {
        assert a[i] == Repeat(x, k)[i - |xs|] == x;
      }
    }
  }

  /** The extension loop of CalculateMetre. */
  method ExtendMetre(metre: seq<real>, length: real) returns (r: Result<seq<real>>)
    ensures r == Extended(metre, length)
  {
    var out := metre;
    var i := Sum(metre);
    if i <= length && metre == [] {
      return Fail(InvalidOperation);
    }
    if i <= length && metre[|metre| - 1] <= 0.0 {
      return Fail(Diverges);
    }
    ghost var last := if metre == [] || metre[|metre| - 1] <= 0.0 then 1.0 else metre[|metre| - 1];
    ghost var k := Copies(Sum(metre), length, last);
    while i <= length
      invariant |out| >= |metre| && out == metre + Repeat(last, |out| - |metre|)
      invariant i == Sum(metre) + (|out| - |metre|) as real * last
      invariant |out| - |metre| <= k
      decreases k - (|out| - |metre|)
    {
      CopiesExact(Sum(metre), length, last, |out| - |metre|);
      out := out + [out[|out| - 1]];
      i := i + out[|out| - 1];
    }
    CopiesExact(Sum(metre), length, last, |out| - |metre|);
    r := Ok(out);
  }

  /** The beats the halving loop of CalculateImplicitMetre adds: one weak
      beat in the middle of each beat, its length not set yet. */
  function Midpoints(beats: seq<Beat>): (r: seq<Beat>)
    ensures |r| == |beats|
  {
    seq(|beats|, k requires 0 <= k < |beats| => Beat(beats[k].time + beats[k].length / 2.0, 0.0, 2))
  }

  /** One round of the halving loop: the midpoints added and the lengths
      calculated again. */
  function Halved(beats: seq<Beat>): Result<seq<Beat>>
  {
    WithLengths(InTimeOrder(beats + Midpoints(beats)))
  }

  /** A round of halving doubles the number of beats, keeping every beat
      that was there. */
  lemma HalvedDoubles(beats: seq<Beat>)
    requires beats != []
    ensures Halved(beats).Ok? && |Halved(beats).value| == 2 * |beats|
  {
    assert |InTimeOrder(beats + Midpoints(beats))| == 2 * |beats|;
  }

  lemma HalfFloor(avg: real)
    requires avg > 1000.0
    ensures 0 <= (avg / 2.0).Floor < avg.Floor
  {
  }

  /** The number of rounds: the average beat length is halved until it is
      at most one second. */
  function Halvings(avg: real): nat
    decreases avg.Floor
  {
    if avg > 1000.0 then HalfFloor(avg); 1 + Halvings(avg / 2.0) else 0
  }

  /** The average length the loop ends with. */
  function Shrunk(avg: real): real
    decreases avg.Floor
  {
    if avg > 1000.0 then HalfFloor(avg); Shrunk(avg / 2.0) else avg
  }

  function Pow2(n: nat): (r: nat)
    ensures r >= 1
  {
    if n == 0 then 1 else 2 * Pow2(n - 1)
  }

  /** The loop ends with an average of at most a second, which is the
      starting average divided by 2 once per round, and more than half a
      second unless no round ran. */
  lemma {:induction false} ShrunkIsHalved(avg: real)
    ensures Shrunk(avg) <= 1000.0
    ensures Shrunk(avg) * Pow2(Halvings(avg)) as real == avg
    ensures Halvings(avg) > 0 ==> Shrunk(avg) > 500.0
    decreases avg.Floor
  {
    if avg > 1000.0 {
      HalfFloor(avg);
      ShrunkIsHalved(avg / 2.0);
      var h := Halvings(avg / 2.0);
      assert Pow2(h + 1) as real == 2.0 * Pow2(h) as real;
      assert Shrunk(avg) * Pow2(h + 1) as real == 2.0 * (Shrunk(avg / 2.0) * Pow2(h) as real);
    }
  }

  /** The halving loop on beats whose average length is avg, with `round`
      the work of one round. */
  function Rounds(round: seq<Beat> -> Result<seq<Beat>>, beats: seq<Beat>, avg: real): Result<seq<Beat>>
    decreases avg.Floor
  {
    if avg <= 1000.0 then Ok(beats)
    else
      HalfFloor(avg);
      var h := round(beats);
      if h.Fail? then h else Rounds(round, h.value, avg / 2.0)
  }

  /** n doubled h times. */
  function Doubled(n: nat, h: nat): nat
    decreases h
  {
    if h == 0 then n else Doubled(2 * n, h - 1)
  }

  /** When every round doubles the beats, 2^Halvings(avg) beats come from
      each original one. */
  lemma {:induction false} RoundsCount(round: seq<Beat> -> Result<seq<Beat>>, beats: seq<Beat>, avg: real)
    requires forall b :: b != [] ==> round(b).Ok? && |round(b).value| == 2 * |b|
    requires beats != []
    ensures Rounds(round, beats, avg).Ok?
    ensures |Rounds(round, beats, avg).value| == Doubled(|beats|, Halvings(avg))
    decreases avg.Floor
  {
    if avg > 1000.0 {
      HalfFloor(avg);
      RoundsCount(round, round(beats).value, avg / 2.0);
    }
  }

  /** The halving loop of CalculateImplicitMetre keeps 2^Halvings(avg) beats
      for every beat it started with. */
  lemma SubdividedCount(beats: seq<Beat>, avg: real)
    requires beats != []
    ensures Rounds(Halved, beats, avg).Ok?
    ensures |Rounds(Halved, beats, avg).value| == Doubled(|beats|, Halvings(avg))
  {
    forall b | b != []
      ensures Halved(b).Ok? && |Halved(b).value| == 2 * |b|
    {
      HalvedDoubles(b);
    }
    RoundsCount(Halved, beats, avg);
  }

  /** The mean of a non-empty sequence. */
  function Mean(xs: seq<real>): real
    requires xs != []
  {
    Sum(xs) / |xs| as real
  }

  /** The halving loop after the average beat length is taken, which fails
      on no beats. */
  function Shortened(beats: seq<Beat>): Result<seq<Beat>>
  {
    if beats == [] then Fail(InvalidOperation) else Rounds(Halved, beats, Mean(Lengths(beats)))
  }

  /** One round of the halving loop: a midpoint beat appended for every beat,
      then the lengths calculated again. */
  method HalveOnce(beats: seq<Beat>) returns (r: Result<seq<Beat>>)
    ensures r == Halved(beats)
  {
    var added := beats;
    for k := 0 to |beats|
      invariant added == beats + Midpoints(beats)[..k]
    {
      added := added + [Beat(beats[k].time + beats[k].length / 2.0, 0.0, 2)];
    }
    assert Midpoints(beats)[..|beats|] == Midpoints(beats);
    r := CalculateBeatLengths(added);
  }

  /** The halving loop of CalculateImplicitMetre: while the average beat
      length exceeds a second, a round runs and the average is halved. */
  method RepeatRounds(round: seq<Beat> -> Result<seq<Beat>>, beats: seq<Beat>, avg: real)
    returns (r: Result<seq<Beat>>)
    ensures r == Rounds(round, beats, avg)
  {
    var average := avg;
    var current := beats;
    while average > 1000.0
      invariant Rounds(round, current, average) == Rounds(round, beats, avg)
      decreases average.Floor
    {
      HalfFloor(average);
      var next := round(current);
      if next.Fail? {
        return next;
      }
      current := next.value;
      average := average / 2.0;
    }
    r := Ok(current);
  }

  /** CalculateImplicitMetre from the average beat length on: the halving
      loop with Halved, the round HalveOnce computes. */
  method HalveLongBeats(beats: seq<Beat>) returns (r: Result<seq<Beat>>)
    ensures r == Shortened(beats)
  {
    if beats == [] {
      return Fail(InvalidOperation);
    }
    r := RepeatRounds(Halved, beats, Mean(Lengths(beats)));
  }

  /** The first-beat step of CalculateMetre: when the earliest beat is not at
      time 0 a weak beat from 0 up to it is added. With no beats the
      minimum fails. */
  function WithFirstBeat(beats: seq<Beat>): (r: Result<seq<Beat>>)
  {
    if beats == [] then Fail(InvalidOperation)
    else
      var first := MinWithIndex(BeatTimes(beats)).value.1;
      if first != 0.0 then Ok(beats + [Beat(0.0, first, 2)]) else Ok(beats)
  }

  /** Afterwards some beat starts at 0, and an added beat lasts exactly until
      the earliest of the others. */
  lemma FirstBeatAtZero(beats: seq<Beat>)
    requires beats != []
    ensures var r := WithFirstBeat(beats);
      r.Ok? && r.value[..|beats|] == beats &&
      (exists k :: 0 <= k < |r.value| && r.value[k].time == 0.0) &&
      (|r.value| > |beats| ==>
         |r.value| == |beats| + 1 && r.value[|beats|].level == 2 &&
         (forall k :: 0 <= k < |beats| ==> r.value[|beats|].length <= beats[k].time) &&
         (exists k :: 0 <= k < |beats| && r.value[|beats|].length == beats[k].time))
  {
    var m := MinWithIndex(BeatTimes(beats)).value;
    var r := WithFirstBeat(beats).value;
    if m.1 == 0.0 {
      assert r[m.0].time == 0.0;
    } else {
      assert r[|beats|].time == 0.0;
      assert r[|beats|].length == beats[m.0].time;
    }
  }
}
