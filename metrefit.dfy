/** Normalizer.GetTicksPerBeat and Normalizer.CalculateMeterFitnessMetric:
    how well the loud notes sit on the beat grid the file's own time
    division gives, once from tick 0 and once from the first note. */
module MetreFit {
  import opened Wrappers
  import opened MathExt
  import opened Events
  import opened Tracks

  /** GetTicksPerBeat: the clock ticks of a ticks-per-beat division, or the
      ticks per frame of a frames-per-second one. */
  function TicksPerBeatOf(d: TimeDivision): nat
  {
    match d
    case TicksPerBeat(clockTicks) => clockTicks
    case FramesPerSecond(_, ticksPerFrame) => ticksPerFrame
  }

  // ------------------------------------------------------- one note's fit

  /** Where a note `time` ticks into its beat of `tick` ticks lies: the
      nearest of the five quarter points 0, 1/4, ..., 4/4 of the beat (the
      cast of the double to int truncates) ... */
  function Portion(time: nat, tick: nat): int
    requires tick > 0
  {
    Trunc(time as real * 4.0 / tick as real + 0.5)
  }

  /** ... and how far the note is from that point, in eighths of a beat. */
  function Deviation(time: nat, tick: nat): real
    requires tick > 0
  {
    (time as real - Portion(time, tick) as real / 4.0 * tick as real) * 8.0 / tick as real
  }

  /** The weight of a quarter point: the beat itself counts fully, its
      middle half and the other quarter points a quarter. */
  function Multiple(portion: int): (w: real)
    ensures w == 1.0 || w == 0.5 || w == 0.25
  {
    if portion % 4 == 0 then 1.0 else if portion % 2 == 0 then 0.5 else 0.25
  }

  /** Within a beat the portion is one of the quarter points 0..4 and the
      deviation lies in [-1, 1); it is 0 exactly on a quarter point. */
  lemma PlacementBounds(time: nat, tick: nat)
    requires tick > 0 && time < tick
    ensures 0 <= Portion(time, tick) <= 4
    ensures -1.0 <= Deviation(time, tick) < 1.0
    ensures Deviation(time, tick) == 0.0 <==> 4 * time == Portion(time, tick) * tick
  {
    PortionBounds(time, tick);
    DeviationIsTwiceTheRest(time, tick);
    OnQuarterPoint(time, tick);
  }

  lemma PortionBounds(time: nat, tick: nat)
    requires tick > 0 && time < tick
    ensures 0 <= Portion(time, tick) <= 4
  {
    var t := tick as real;
    QuotientBelow(time as real * 4.0, t * 4.0, t);
    assert t * 4.0 / t == 4.0;
  }

  lemma OnQuarterPoint(time: nat, tick: nat)
    requires tick > 0
    ensures Deviation(time, tick) == 0.0 <==> 4 * time == Portion(time, tick) * tick
  {
    var t := tick as real;
    var x := time as real * 4.0 / t;
    var n := Portion(time, tick);
    DeviationIsTwiceTheRest(time, tick);
    calc <==> {
      Deviation(time, tick) == 0.0;
      x == n as real;
      { assert x * t == (4 * time) as real; }
      (4 * time) as real == n as real * t;
      4 * time == n * tick;
    }
  }

  lemma QuotientBelow(a: real, b: real, t: real)
    requires 0.0 <= a < b && t > 0.0
    ensures 0.0 <= a / t < b / t
  {
  }

  /** The deviation is twice the distance from the portion, counted in
      quarters of a beat. */
  lemma DeviationIsTwiceTheRest(time: nat, tick: nat)
    requires tick > 0
    ensures Deviation(time, tick) == 2.0 * (time as real * 4.0 / tick as real - Portion(time, tick) as real)
    ensures -1.0 <= Deviation(time, tick) < 1.0
  {
    var t := tick as real;
    var n := Portion(time, tick) as real;
    calc {
      Deviation(time, tick);
      (time as real - n / 4.0 * t) * 8.0 / t;
      time as real * 8.0 / t - n * 2.0;
      2.0 * (time as real * 4.0 / t - n);
    }
  }

  /** GoodnessOfNote for a note at tick t with the grid shifted by
      `offset`: the exponential of -16 times the squared deviation, times
      the weight of the quarter point. */
  function Goodness(maths: Maths, tick: nat, offset: nat, t: nat): real
    requires tick > 0 && offset <= t
  {
    var time := (t - offset) % tick;
    var d := Deviation(time, tick);
    maths.exp(-d * d * 4.0 * 4.0) * Multiple(Portion(time, tick))
  }

  /** A note on a beat scores exp(0); one on the half beat exp(0) / 2. */
  lemma OnGridGoodness(maths: Maths, tick: nat, offset: nat, t: nat)
    requires tick > 0 && offset <= t
    ensures (t - offset) % tick == 0 ==> Goodness(maths, tick, offset, t) == maths.exp(0.0)
    ensures 2 * ((t - offset) % tick) == tick ==> Goodness(maths, tick, offset, t) == maths.exp(0.0) * 0.5
  {
    var time := (t - offset) % tick;
    PlacementBounds(time, tick);
    if time == 0 {
      assert Portion(time, tick) == 0;
    }
    if 2 * time == tick {
      assert time as real * 4.0 / tick as real == 2.0;
      assert Portion(time, tick) == 2;
    }
  }

  /** When exp maps the non-positive reals into [0, 1], every note scores
      in [0, 1]. */
  lemma GoodnessBounded(maths: Maths, tick: nat, offset: nat, t: nat)
    requires tick > 0 && offset <= t
    requires forall x :: x <= 0.0 ==> 0.0 <= maths.exp(x) <= 1.0
    ensures 0.0 <= Goodness(maths, tick, offset, t) <= 1.0
  {
    var d := Deviation((t - offset) % tick, tick);
    assert -d * d * 4.0 * 4.0 <= 0.0;
  }

  // ------------------------------------------------------ the average fit

  /** The goodness of each note, in order. */
  function Goodnesses(maths: Maths, tick: nat, offset: nat, ts: seq<nat>): (gs: seq<real>)
    requires tick > 0 && forall k :: 0 <= k < |ts| ==> offset <= ts[k]
    ensures |gs| == |ts|
  {
    seq(|ts|, k requires 0 <= k < |ts| => Goodness(maths, tick, offset, ts[k]))
  }

  /** Average(n => GoodnessOfNote(n, offset)) over the loud notes. */
  function MeanGoodness(maths: Maths, tick: nat, offset: nat, ts: seq<nat>): real
    requires tick > 0 && ts != [] && forall k :: 0 <= k < |ts| ==> offset <= ts[k]
  {
    Sum(Goodnesses(maths, tick, offset, ts)) / |ts| as real
  }

  /** When exp maps the non-positive reals into [0, 1], so does the
      average. */
  lemma MeanGoodnessBounded(maths: Maths, tick: nat, offset: nat, ts: seq<nat>)
    requires tick > 0 && ts != [] && forall k :: 0 <= k < |ts| ==> offset <= ts[k]
    requires forall x :: x <= 0.0 ==> 0.0 <= maths.exp(x) <= 1.0
    ensures 0.0 <= MeanGoodness(maths, tick, offset, ts) <= 1.0
  {
    var gs := Goodnesses(maths, tick, offset, ts);
    forall k | 0 <= k < |gs|
      ensures 0.0 <= gs[k] <= 1.0
    {
      GoodnessBounded(maths, tick, offset, ts[k]);
    }
    SumBounded(gs);
    MeanBounded(Sum(gs), |gs|);
  }

  lemma MeanBounded(s: real, n: nat)
    requires n > 0 && 0.0 <= s <= n as real
    ensures 0.0 <= s / n as real <= 1.0
  {
  }

  /** Notes all on beats average exp(0). */
  lemma MeanGoodnessOnBeats(maths: Maths, tick: nat, offset: nat, ts: seq<nat>)
    requires tick > 0 && ts != []
    requires forall k :: 0 <= k < |ts| ==> offset <= ts[k] && (ts[k] - offset) % tick == 0
    ensures MeanGoodness(maths, tick, offset, ts) == maths.exp(0.0)
  {
    var gs := Goodnesses(maths, tick, offset, ts);
    forall k | 0 <= k < |gs|
      ensures gs[k] == maths.exp(0.0)
    {
      OnGridGoodness(maths, tick, offset, ts[k]);
    }
    SumConst(gs, maths.exp(0.0));
    MeanOfConst(Sum(gs), |gs|, maths.exp(0.0));
  }

  lemma MeanOfConst(s: real, n: nat, c: real)
    requires n > 0 && s == n as real * c
    ensures s / n as real == c
  {
  }

  // ------------------------------------------------------------ the model

  /** The ticks of every NoteOn of the model, in LinqToMidi order. */
  function NoteTicks(es: seq<ControlEvent>): (ts: seq<nat>)
    ensures |ts| <= |es|
  {
    if es == [] then []
    else NoteTicks(es[..|es| - 1]) + if es[|es| - 1].NoteOn? then [es[|es| - 1].tick] else []
  }

  /** The ticks of the NoteOns with a volume above 0. */
  function LoudTicks(es: seq<ControlEvent>): (ts: seq<nat>)
    ensures |ts| <= |es|
  {
    if es == [] then []
    else LoudTicks(es[..|es| - 1]) + if es[|es| - 1].NoteOn? && es[|es| - 1].volume > 0 then [es[|es| - 1].tick] else []
  }

  /** Every loud note is a note; so without notes there are no loud ones. */
  lemma {:induction false} LoudAreNotes(es: seq<ControlEvent>)
    ensures forall t :: t in LoudTicks(es) ==> t in NoteTicks(es)
  {
    if es != [] {
      LoudAreNotes(es[..|es| - 1]);
    }
  }

  /** No loud note comes before the first note. */
  lemma LoudAfterFirst(es: seq<ControlEvent>)
    requires NoteTicks(es) != []
    ensures forall k :: 0 <= k < |LoudTicks(es)| ==> FirstTick(NoteTicks(es)) <= LoudTicks(es)[k]
  {
    LoudAreNotes(es);
    var notes := NoteTicks(es);
    forall k | 0 <= k < |LoudTicks(es)|
      ensures FirstTick(notes) <= LoudTicks(es)[k]
    {
      assert LoudTicks(es)[k] in notes;
      var j :| 0 <= j < |notes| && notes[j] == LoudTicks(es)[k];
    }
  }

  /** Min(n => n.AbsoluteTime) of a non-empty list. */
  function FirstTick(ts: seq<nat>): (m: nat)
    requires ts != []
    ensures m in ts && forall k :: 0 <= k < |ts| ==> m <= ts[k]
  {
    if |ts| == 1 then ts[0]
    else
      var rest := FirstTick(ts[..|ts| - 1]);
      assert forall k :: 0 <= k < |ts| - 1 ==> ts[..|ts| - 1][k] == ts[k];
      if ts[|ts| - 1] < rest then ts[|ts| - 1] else rest
  }

  /** CalculateMeterFitnessMetric: with no notes the offset is 0 and the
      model is left as it is. Otherwise the average goodness of the loud
      notes is taken from tick 0 and from the first note's tick (an empty
      average throws InvalidOperationException, a zero tick count divides by
      zero); offset 0 wins only when it fits strictly better, and the
      winning average is stored as GoodnessOfMetreFit. */
  function MeterFitness(maths: Maths, m: Model): (r: Result<(nat, Model)>)
  {
    var es := ControlEvents(m);
    var notes := NoteTicks(es);
    if notes == [] then Ok((0, m))
    else
      var tick := TicksPerBeatOf(m.division);
      var first := FirstTick(notes);
      var loud := LoudTicks(es);
      if loud == [] then Fail(InvalidOperation)
      else if tick == 0 then Fail(DivideByZero)
      else
        LoudAfterFirst(es);
        var zeroFit := MeanGoodness(maths, tick, 0, loud);
        var firstFit := MeanGoodness(maths, tick, first, loud);
        if zeroFit > firstFit then Ok((0, m.(goodnessOfFit := zeroFit)))
        else Ok((first, m.(goodnessOfFit := firstFit)))
  }

  /** The error cases: the metric fails exactly when there are notes but no
      loud one, or a zero tick count; without notes it changes nothing. */
  lemma FitnessFails(maths: Maths, m: Model)
    ensures var es := ControlEvents(m);
      MeterFitness(maths, m).Fail? <==>
        NoteTicks(es) != [] && (LoudTicks(es) == [] || TicksPerBeatOf(m.division) == 0)
    ensures NoteTicks(ControlEvents(m)) == [] ==> MeterFitness(maths, m) == Ok((0, m))
    ensures var es := ControlEvents(m);
      NoteTicks(es) != [] && LoudTicks(es) == [] ==> MeterFitness(maths, m) == Fail(InvalidOperation)
  {
  }

  /** The chosen offset is 0 or the first note's tick; the stored fit is the
      larger of the two averages; offset 0 is kept only when it is strictly
      better, so a tie goes to the first-note offset; nothing else in the
      model changes. */
  lemma FitnessChoice(maths: Maths, m: Model)
    requires MeterFitness(maths, m).Ok? && NoteTicks(ControlEvents(m)) != []
    ensures var es := ControlEvents(m);
      var tick := TicksPerBeatOf(m.division);
      var first := FirstTick(NoteTicks(es));
      var loud := LoudTicks(es);
      var (offset, r) := MeterFitness(maths, m).value;
      tick > 0 && loud != [] && (forall k :: 0 <= k < |loud| ==> first <= loud[k]) &&
      var zeroFit := MeanGoodness(maths, tick, 0, loud);
      var firstFit := MeanGoodness(maths, tick, first, loud);
      (offset == 0 || offset == first) &&
      r.goodnessOfFit >= zeroFit && r.goodnessOfFit >= firstFit &&
      (r.goodnessOfFit == zeroFit || r.goodnessOfFit == firstFit) &&
      (offset != first ==> zeroFit > firstFit) &&
      r == m.(goodnessOfFit := r.goodnessOfFit)
  {
    LoudAfterFirst(ControlEvents(m));
  }

  /** When exp maps the non-positive reals into [0, 1] the stored fit lies
      in [0, 1]. */
  lemma FitnessBounded(maths: Maths, m: Model)
    requires MeterFitness(maths, m).Ok? && NoteTicks(ControlEvents(m)) != []
    requires forall x :: x <= 0.0 ==> 0.0 <= maths.exp(x) <= 1.0
    ensures 0.0 <= MeterFitness(maths, m).value.1.goodnessOfFit <= 1.0
  {
    var es := ControlEvents(m);
    var tick := TicksPerBeatOf(m.division);
    FitnessChoice(maths, m);
    MeanGoodnessBounded(maths, tick, 0, LoudTicks(es));
    MeanGoodnessBounded(maths, tick, FirstTick(NoteTicks(es)), LoudTicks(es));
  }

  /** A piece whose loud notes all fall on beats counted from tick 0 fits
      its own grid with at least exp(0); with exp(0) = 1 that is above the
      0.4 the embedded grid needs. */
  lemma OnBeatPieceFits(maths: Maths, m: Model)
    requires MeterFitness(maths, m).Ok? && NoteTicks(ControlEvents(m)) != []
    requires TicksPerBeatOf(m.division) > 0
    requires var loud := LoudTicks(ControlEvents(m));
      forall k :: 0 <= k < |loud| ==> loud[k] % TicksPerBeatOf(m.division) == 0
    ensures MeterFitness(maths, m).value.1.goodnessOfFit >= maths.exp(0.0)
  {
    FitnessChoice(maths, m);
    MeanGoodnessOnBeats(maths, TicksPerBeatOf(m.division), 0, LoudTicks(ControlEvents(m)));
  }
}
