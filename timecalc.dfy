/** TimeCalculator.cs: tick times to real times (milliseconds), and note
    lengths from the matching note-off. */
module TimeCalculator {
  import opened Wrappers
  import opened Events
  import opened Tracks
  import opened Ordering

  // ---------------------------------------------------------------- real times

  /** What ComputeRealTimes needs of an event: its tick and, for SetTempo,
      the beat length it sets, in milliseconds. */
  datatype Stamp = Stamp(tick: nat, beat: Option<real>)

  function ControlStamp(e: ControlEvent): Stamp
  {
    Stamp(e.tick, None)
  }

  function MetaStamp(e: MetaEvent): Stamp
  {
    Stamp(e.tick, if e.SetTempo? then Some(e.microseconds as real / 1000.0) else None)
  }

  /** midi.Events(): the control events, then the meta events. */
  function Stamps(m: Model): (st: seq<Stamp>)
    ensures |st| == |ControlEvents(m)| + |MetaEvents(m)|
  {
    var cs := ControlEvents(m);
    var ms := MetaEvents(m);
    seq(|cs|, i requires 0 <= i < |cs| => ControlStamp(cs[i])) +
    seq(|ms|, i requires 0 <= i < |ms| => MetaStamp(ms[i]))
  }

  function Ticks(st: seq<Stamp>): (keys: seq<real>)
    ensures |keys| == |st| && forall i :: 0 <= i < |st| ==> keys[i] == st[i].tick as real
  {
    seq(|st|, i requires 0 <= i < |st| => st[i].tick as real)
  }

  /** The starting rate: 0.5 s per beat of NumberOfClockTicks ticks, or one
      frame (29 meaning 29.97 frames per second) per TicksPerFrame ticks. */
  datatype Rate = Rate(msPerBeat: real, ticksPerBeat: nat)

  function DefaultRate(d: TimeDivision): (r: Rate)
    requires d.FramesPerSecond? ==> d.frames > 0
    ensures r.msPerBeat > 0.0
  {
    match d
    case TicksPerBeat(t) => Rate(500.0, t)
    case FramesPerSecond(f, tpf) => Rate(1000.0 / (if f == 29 then 29.97 else f as real), tpf)
  }

  /** Among the events before index n at or before tick x, the SetTempo that
      is processed last: the one at the latest tick, and among those the
      last in event order. */
  function LastTempo(st: seq<Stamp>, x: nat, n: nat): (r: Option<nat>)
    requires n <= |st|
    ensures r.Some? ==> r.value < n && st[r.value].beat.Some? && st[r.value].tick <= x
    ensures r.Some? ==> forall i :: 0 <= i < n && st[i].beat.Some? && st[i].tick <= x ==>
      st[i].tick < st[r.value].tick || (st[i].tick == st[r.value].tick && i <= r.value)
    ensures r.None? ==> forall i :: 0 <= i < n ==> st[i].beat.None? || st[i].tick > x
  {
    if n == 0 then None
    else
      var r := LastTempo(st, x, n - 1);
      var i := n - 1;
      if st[i].beat.Some? && st[i].tick <= x && (r.None? || st[r.value].tick <= st[i].tick) then Some(i)
      else r
  }

  /** The beat length in force for the tick after x. */
  function BeatAfter(st: seq<Stamp>, default: real, x: nat): real
  {
    match LastTempo(st, x, |st|)
    case None => default
    case Some(j) => st[j].beat.value
  }

  /** The time after t ticks when tick x lasts beatAt(x) / ticksPerBeat. */
  function Elapsed(beatAt: nat -> real, ticksPerBeat: nat, t: nat): real
    requires ticksPerBeat > 0
  {
    if t == 0 then 0.0
    else Elapsed(beatAt, ticksPerBeat, t - 1) + beatAt(t - 1) / ticksPerBeat as real
  }

  /** The beat length in force after each tick. */
  function BeatFn(st: seq<Stamp>, default: real): nat -> real
  {
    (x: nat) => BeatAfter(st, default, x)
  }

  /** The real time of tick t: every tick before t lasts the beat length in
      force after it, divided by the ticks per beat. */
  function TimeAt(st: seq<Stamp>, rate: Rate, t: nat): real
    requires rate.ticksPerBeat > 0
  {
    Elapsed(BeatFn(st, rate.msPerBeat), rate.ticksPerBeat, t)
  }

  /** Over ticks where the beat length does not change, time grows linearly:
      the gap in beats times the beat length. */
  lemma {:induction false} ElapsedLinear(beatAt: nat -> real, ticksPerBeat: nat, from: nat, t: nat, beat: real)
    requires ticksPerBeat > 0 && from <= t
    requires forall x: nat :: from <= x < t ==> beatAt(x) == beat
    ensures Elapsed(beatAt, ticksPerBeat, t) ==
      Elapsed(beatAt, ticksPerBeat, from) + (t - from) as real / ticksPerBeat as real * beat
  {
    if t > from {
      ElapsedLinear(beatAt, ticksPerBeat, from, t - 1, beat);
      AddOneBeat((t - 1 - from) as real, ticksPerBeat as real, beat);
    }
  }

  /** One tick more adds one tick's share of the beat. */
  lemma AddOneBeat(a: real, d: real, b: real)
    requires d > 0.0
    ensures (a + 1.0) / d * b == a / d * b + b / d
  {
    assert (a + 1.0) / d == a / d + 1.0 / d;
    assert (a / d + 1.0 / d) * b == a / d * b + 1.0 / d * b;
  }

  /** Over ticks where no SetTempo takes effect, real time grows linearly. */
  lemma TimeAtLinear(st: seq<Stamp>, rate: Rate, from: nat, t: nat, beat: real)
    requires rate.ticksPerBeat > 0 && from <= t
    requires forall x: nat :: from <= x < t ==> BeatAfter(st, rate.msPerBeat, x) == beat
    ensures TimeAt(st, rate, t) == TimeAt(st, rate, from) + (t - from) as real / rate.ticksPerBeat as real * beat
  {
    ElapsedLinear(BeatFn(st, rate.msPerBeat), rate.ticksPerBeat, from, t, beat);
  }

  /** Elapsed time never decreases when no tick has a negative length. */
  lemma {:induction false} ElapsedMonotone(beatAt: nat -> real, ticksPerBeat: nat, a: nat, b: nat)
    requires ticksPerBeat > 0 && a <= b
    requires forall x: nat :: a <= x < b ==> beatAt(x) >= 0.0
    ensures Elapsed(beatAt, ticksPerBeat, a) <= Elapsed(beatAt, ticksPerBeat, b)
  {
    if a < b {
      ElapsedMonotone(beatAt, ticksPerBeat, a, b - 1);
      assert beatAt(b - 1) >= 0.0;
    }
  }

  /** Real time never decreases as the tick grows (tempos are not negative). */
  lemma TimeAtMonotone(st: seq<Stamp>, rate: Rate, a: nat, b: nat)
    requires rate.ticksPerBeat > 0 && rate.msPerBeat >= 0.0 && a <= b
    requires forall i :: 0 <= i < |st| && st[i].beat.Some? ==> st[i].beat.value >= 0.0
    ensures TimeAt(st, rate, a) <= TimeAt(st, rate, b)
  {
    forall x: nat | a <= x < b
      ensures BeatFn(st, rate.msPerBeat)(x) >= 0.0
    {
      assert BeatFn(st, rate.msPerBeat)(x) == BeatAfter(st, rate.msPerBeat, x);
    }
    ElapsedMonotone(BeatFn(st, rate.msPerBeat), rate.ticksPerBeat, a, b);
  }

  /** Elapsed time up to t depends only on the lengths of the ticks before t. */
  lemma {:induction false} ElapsedAgree(f: nat -> real, g: nat -> real, ticksPerBeat: nat, t: nat)
    requires ticksPerBeat > 0
    requires forall x: nat :: x < t ==> f(x) == g(x)
    ensures Elapsed(f, ticksPerBeat, t) == Elapsed(g, ticksPerBeat, t)
  {
    if t > 0 {
      ElapsedAgree(f, g, ticksPerBeat, t - 1);
    }
  }

  /** With no SetTempo, tick t is at t / ticksPerBeat beats of the default length. */
  lemma ConstantTempo(st: seq<Stamp>, rate: Rate, t: nat)
    requires rate.ticksPerBeat > 0
    requires forall i :: 0 <= i < |st| ==> st[i].beat.None?
    ensures TimeAt(st, rate, t) == t as real / rate.ticksPerBeat as real * rate.msPerBeat
  {
    TimeAtLinear(st, rate, 0, t, rate.msPerBeat);
  }

  /** A SetTempo only changes the length of the ticks after it: the time of
      every tick up to its own does not depend on the beat it sets. */
  lemma TempoAffectsOnlyLater(st: seq<Stamp>, rate: Rate, i: nat, beat: real, t: nat)
    requires rate.ticksPerBeat > 0 && i < |st| && st[i].beat.Some? && t <= st[i].tick
    ensures TimeAt(st[i := Stamp(st[i].tick, Some(beat))], rate, t) == TimeAt(st, rate, t)
  {
    var st' := st[i := Stamp(st[i].tick, Some(beat))];
    forall x: nat | x < t
      ensures BeatFn(st', rate.msPerBeat)(x) == BeatFn(st, rate.msPerBeat)(x)
    {
      LastTempoIgnoresLater(st, st', x, |st|, i);
    }
    ElapsedAgree(BeatFn(st', rate.msPerBeat), BeatFn(st, rate.msPerBeat), rate.ticksPerBeat, t);
  }

  lemma {:induction false} LastTempoIgnoresLater(st: seq<Stamp>, st': seq<Stamp>, x: nat, n: nat, i: nat)
    requires |st| == |st'| && n <= |st| && i < |st| && x < st[i].tick
    requires st'[i].tick == st[i].tick && st'[i].beat.Some? && st[i].beat.Some?
    requires forall j :: 0 <= j < |st| && j != i ==> st'[j] == st[j]
    ensures LastTempo(st', x, n) == LastTempo(st, x, n)
  {
    if n > 0 {
      LastTempoIgnoresLater(st, st', x, n - 1, i);
    }
  }

  /** `last` is the SetTempo visited last among the first k events of the
      order, if any was visited. */
  ghost predicate LastVisitedTempo(st: seq<Stamp>, order: seq<nat>, k: nat, last: Option<nat>)
    requires k <= |order| && forall p :: 0 <= p < |order| ==> order[p] < |st|
  {
    (last.None? ==> forall p :: 0 <= p < k ==> st[order[p]].beat.None?) &&
    (last.Some? ==> last.value < |st| && st[last.value].beat.Some? && exists p :: LastVisitedAt(st, order, k, last.value, p))
  }

  ghost predicate LastVisitedAt(st: seq<Stamp>, order: seq<nat>, k: nat, j: nat, p: nat)
    requires k <= |order| && forall p :: 0 <= p < |order| ==> order[p] < |st|
  {
    p < k && order[p] == j && forall q :: p < q < k ==> st[order[q]].beat.None?
  }

  lemma VisitStep(st: seq<Stamp>, order: seq<nat>, k: nat, last: Option<nat>)
    requires k < |order| && forall p :: 0 <= p < |order| ==> order[p] < |st|
    requires LastVisitedTempo(st, order, k, last)
    ensures LastVisitedTempo(st, order, k + 1, if st[order[k]].beat.Some? then Some(order[k]) else last)
  {
    if st[order[k]].beat.Some? {
      assert LastVisitedAt(st, order, k + 1, order[k], k);
    } else if last.Some? {
      var p: nat :| LastVisitedAt(st, order, k, last.value, p);
      assert LastVisitedAt(st, order, k + 1, last.value, p);
    }
  }

  /** Between the tick of the last visited event and the tick of the next,
      the SetTempo in force is the last one visited. */
  lemma VisitedTempoInForce(st: seq<Stamp>, order: seq<nat>, k: nat, lastTick: nat, x: nat, last: Option<nat>)
    requires StableOrder(Ticks(st), order) && k < |order|
    requires LastVisitedTempo(st, order, k, last)
    requires k > 0 ==> lastTick == st[order[k - 1]].tick
    requires lastTick <= x < st[order[k]].tick
    ensures LastTempo(st, x, |st|) == last
  {
    var keys := Ticks(st);
    var r := LastTempo(st, x, |st|);
    SmallerKeysFirst(keys, order, k, x as real);
    // every event at or before x has been visited
    forall i | 0 <= i < |st| && st[i].tick <= x
      ensures exists q :: 0 <= q < k && order[q] == i
    {
      assert i in order;
      var q :| 0 <= q < |order| && order[q] == i;
      assert keys[order[q]] <= x as real;
    }
    if last.None? {
      forall i | 0 <= i < |st| && st[i].tick <= x
        ensures st[i].beat.None?
      {
        var q :| 0 <= q < k && order[q] == i;
      }
      assert r.None?;
    } else {
      var j := last.value;
      var p: nat :| LastVisitedAt(st, order, k, j, p);
      StableOrderMonotone(keys, order, p, k - 1);
      assert st[j].tick <= x;
      assert r.Some?;
      var q :| 0 <= q < k && order[q] == r.value;
      assert q <= p;
      assert st[j].tick < st[r.value].tick || (st[j].tick == st[r.value].tick && j <= r.value);
      VisitedInKeyOrder(keys, order, p, q);
    }
  }

  lemma TempoBetween(st: seq<Stamp>, default: real, order: seq<nat>, k: nat, lastTick: nat, beat: real, last: Option<nat>)
    requires StableOrder(Ticks(st), order) && k < |order|
    requires k > 0 ==> lastTick == st[order[k - 1]].tick
    requires LastVisitedTempo(st, order, k, last)
    requires beat == if last.Some? then st[last.value].beat.value else default
    ensures forall x: nat :: lastTick <= x < st[order[k]].tick ==> BeatAfter(st, default, x) == beat
  {
    forall x: nat | lastTick <= x < st[order[k]].tick
      ensures BeatAfter(st, default, x) == beat
    {
      VisitedTempoInForce(st, order, k, lastTick, x, last);
    }
  }

  lemma TickNotSmaller(st: seq<Stamp>, order: seq<nat>, k: nat, lastTick: nat)
    requires StableOrder(Ticks(st), order) && k < |order|
    requires k > 0 ==> lastTick == st[order[k - 1]].tick
    requires k == 0 ==> lastTick == 0
    ensures lastTick <= st[order[k]].tick
  {
    if k > 0 {
      StableOrderMonotone(Ticks(st), order, k - 1, k);
    }
  }

  /** One step of the walk: the next event's tick is not smaller, and its
      time is the last time plus the gap, in beats, times the beat length
      in force. */
  lemma StepTime(st: seq<Stamp>, rate: Rate, order: seq<nat>, k: nat, tick: nat, lastTick: nat, beat: real, last: Option<nat>)
    requires rate.ticksPerBeat > 0 && StableOrder(Ticks(st), order) && k < |order| && tick == st[order[k]].tick
    requires k > 0 ==> lastTick == st[order[k - 1]].tick
    requires k == 0 ==> lastTick == 0
    requires LastVisitedTempo(st, order, k, last)
    requires beat == if last.Some? then st[last.value].beat.value else rate.msPerBeat
    ensures lastTick <= tick
    ensures TimeAt(st, rate, tick) == TimeAt(st, rate, lastTick) + (tick - lastTick) as real / rate.ticksPerBeat as real * beat
  {
    TickNotSmaller(st, order, k, lastTick);
    TempoBetween(st, rate.msPerBeat, order, k, lastTick, beat, last);
    TimeAtLinear(st, rate, lastTick, tick, beat);
  }

  /** The real times ComputeRealTimes assigns, in midi.Events() order: it
      walks the events stably sorted by tick, adding each gap at the beat
      length in force, where a SetTempo takes effect after its own event.
      Every event gets the time of its tick. */
  method RealTimes(st: seq<Stamp>, rate: Rate) returns (times: seq<real>)
    requires rate.ticksPerBeat > 0
    ensures |times| == |st|
    ensures forall i :: 0 <= i < |st| ==> times[i] == TimeAt(st, rate, st[i].tick)
  {
    var keys := Ticks(st);
    var order := OrderBy(keys);
    times := seq(|st|, _ => 0.0);
    var lastTick: nat := 0;
    var time := 0.0;
    var beat := rate.msPerBeat;
    ghost var last: Option<nat> := None;
    assert TimeAt(st, rate, 0) == 0.0;
    var k := 0;
    while k < |order|
      invariant 0 <= k <= |order| && |times| == |st|
      invariant k > 0 ==> lastTick == st[order[k - 1]].tick
      invariant k == 0 ==> lastTick == 0
      invariant time == TimeAt(st, rate, lastTick)
      invariant forall p :: 0 <= p < k ==> times[order[p]] == TimeAt(st, rate, st[order[p]].tick)
      invariant LastVisitedTempo(st, order, k, last)
      invariant beat == if last.Some? then st[last.value].beat.value else rate.msPerBeat
    {
      var i := order[k];
      var tick := st[i].tick;
      StepTime(st, rate, order, k, tick, lastTick, beat, last);
      VisitStep(st, order, k, last);
      time := time + (tick - lastTick) as real / rate.ticksPerBeat as real * beat;
      lastTick := tick;
      times := times[i := time];
      if st[i].beat.Some? {
        beat := st[i].beat.value;
        last := Some(i);
      }
      k := k + 1;
    }
    forall i | 0 <= i < |st|
      ensures times[i] == TimeAt(st, rate, st[i].tick)
    {
      assert i in order;
    }
  }

  /** A division whose beat has no length or no ticks: the source's double
      arithmetic then yields an infinite or undefined time. */
  predicate ZeroRate(d: TimeDivision)
  {
    match d
    case TicksPerBeat(t) => t == 0
    case FramesPerSecond(f, tpf) => f == 0 || tpf == 0
  }

  /** ComputeRealTimes: every event, control and meta, gets the real time of
      its tick. With a zero rate the first gap is 0/0 (a NaN, which
      TimeSpan.FromSeconds rejects with an ArgumentException) when some event
      sits at tick 0, and infinite (an OverflowException) otherwise. */
  method ComputeRealTimes(m: Model) returns (r: Result<Model>)
    requires WellFormed(m)
    ensures r.Fail? <==> |Stamps(m)| > 0 && ZeroRate(m.division)
    ensures r.Fail? ==>
      r.failure == if exists i :: 0 <= i < |Stamps(m)| && Stamps(m)[i].tick == 0 then ArgumentError else Overflow
    ensures r.Ok? ==> WellFormed(r.value) && r.value == m.(tracks := r.value.tracks)
    ensures r.Ok? && ZeroRate(m.division) ==> r.value == m
    ensures r.Ok? && !ZeroRate(m.division) ==>
      |ControlEvents(r.value)| == |ControlEvents(m)| &&
      forall i :: 0 <= i < |ControlEvents(m)| ==>
        ControlEvents(r.value)[i] ==
          ControlEvents(m)[i].(time := TimeAt(Stamps(m), DefaultRate(m.division), ControlEvents(m)[i].tick))
    ensures r.Ok? && !ZeroRate(m.division) ==>
      |MetaEvents(r.value)| == |MetaEvents(m)| &&
      forall i :: 0 <= i < |MetaEvents(m)| ==>
        MetaEvents(r.value)[i] ==
          MetaEvents(m)[i].(time := TimeAt(Stamps(m), DefaultRate(m.division), MetaEvents(m)[i].tick))
  {
    var st := Stamps(m);
    if ZeroRate(m.division) {
      if |st| == 0 {
        return Ok(m);
      }
      var atZero := exists i :: 0 <= i < |st| && st[i].tick == 0;
      return Fail(if atZero then ArgumentError else Overflow);
    }
    var retimed := Retime(m, DefaultRate(m.division));
    return Ok(retimed);
  }

  /** The loop of ComputeRealTimes with a usable rate: control events first,
      then meta events, each given the real time of its tick. */
  method Retime(m: Model, rate: Rate) returns (r: Model)
    requires WellFormed(m) && rate.ticksPerBeat > 0
    ensures WellFormed(r) && r == m.(tracks := r.tracks)
    ensures |ControlEvents(r)| == |ControlEvents(m)| &&
      forall i :: 0 <= i < |ControlEvents(m)| ==>
        ControlEvents(r)[i] == ControlEvents(m)[i].(time := TimeAt(Stamps(m), rate, ControlEvents(m)[i].tick))
    ensures |MetaEvents(r)| == |MetaEvents(m)| &&
      forall i :: 0 <= i < |MetaEvents(m)| ==>
        MetaEvents(r)[i] == MetaEvents(m)[i].(time := TimeAt(Stamps(m), rate, MetaEvents(m)[i].tick))
  {
    var st := Stamps(m);
    var times := RealTimes(st, rate);
    var cs := ControlEvents(m);
    var ms := MetaEvents(m);
    var cs' := seq(|cs|, i requires 0 <= i < |cs| => cs[i].(time := times[i]));
    var ms' := seq(|ms|, i requires 0 <= i < |ms| => ms[i].(time := times[|cs| + i]));
    var m1 := ReplaceEvents(m, cs');
    r := ReplaceMeta(m1, ms');
  }

  // ---------------------------------------------------------------- note lengths

  /** Event b ends note a: a NoteOff of the same pitch, or a NoteOn of the
      same pitch with volume 0. */
  predicate Ends(a: ControlEvent, b: ControlEvent)
    requires a.NoteOn?
  {
    (b.NoteOff? && b.note == a.note) || (b.NoteOn? && b.note == a.note && b.volume == 0)
  }

  /** Among the events before index n, the first one after note i in time
      order (by time, then by position) that ends it. */
  function FirstEnd(es: seq<ControlEvent>, i: nat, n: nat): (r: Option<nat>)
    requires i < |es| && n <= |es| && es[i].NoteOn?
    ensures r.Some? ==> r.value < n && Ends(es[i], es[r.value]) && Before(TimesOf(es), i, r.value)
    ensures r.Some? ==> forall j :: 0 <= j < n && Ends(es[i], es[j]) && Before(TimesOf(es), i, j) ==>
      j == r.value || Before(TimesOf(es), r.value, j)
    ensures r.None? ==> forall j :: 0 <= j < n && Ends(es[i], es[j]) ==> !Before(TimesOf(es), i, j)
  {
    if n == 0 then None
    else
      var r := FirstEnd(es, i, n - 1);
      var j := n - 1;
      var keys := TimesOf(es);
      if Ends(es[i], es[j]) && Before(keys, i, j) && (r.None? || Before(keys, j, r.value)) then Some(j)
      else r
  }

  /** Event i after CreateNoteLengths: a sounding note that something ends
      gets the tick distance (unsigned, so modulo 2^32), the real length and
      the end time of that event; every other event is left as it was. */
  function Lengthened(es: seq<ControlEvent>, i: nat): ControlEvent
    requires i < |es|
  {
    var e := es[i];
    if e.NoteOn? && e.volume > 0 then
      match FirstEnd(es, i, |es|)
      case Some(j) => e.(length := (es[j].tick - e.tick) % U32, realLength := es[j].time - e.time, end := es[j].time)
      case None => e
    else e
  }

  /** The first event after position p of the visit that ends its note is
      the note's first end. */
  lemma FirstEndIsNext(es: seq<ControlEvent>, order: seq<nat>, p: nat, q: nat)
    requires StableOrder(TimesOf(es), order) && p < q < |order|
    requires es[order[p]].NoteOn? && Ends(es[order[p]], es[order[q]])
    requires forall q' :: p < q' < q ==> !Ends(es[order[p]], es[order[q']])
    ensures FirstEnd(es, order[p], |es|) == Some(order[q])
  {
    var keys := TimesOf(es);
    var i := order[p];
    assert Before(keys, i, order[q]);
    var f := FirstEnd(es, i, |es|);
    assert f.Some?;
    assert f.value in order;
    var c :| 0 <= c < |order| && order[c] == f.value;
    assert Ends(es[i], es[order[c]]) && Before(keys, i, order[c]);
    VisitedInKeyOrder(keys, order, p, c);
    assert order[q] == f.value || Before(keys, f.value, order[q]);
    VisitedInKeyOrder(keys, order, c, q);
    assert c != p;
    assert !(p < c < q);
    assert c == q;
    assert f == Some(order[q]);
  }

  /** When nothing after position p of the visit ends its note, the note
      has no end. */
  lemma NoEndAfter(es: seq<ControlEvent>, order: seq<nat>, p: nat)
    requires StableOrder(TimesOf(es), order) && p < |order| && es[order[p]].NoteOn?
    requires forall q :: p < q < |order| ==> !Ends(es[order[p]], es[order[q]])
    ensures FirstEnd(es, order[p], |es|).None?
  {
    var keys := TimesOf(es);
    var i := order[p];
    forall j | 0 <= j < |es| && Ends(es[i], es[j])
      ensures !Before(keys, i, j)
    {
      assert j in order;
      var c :| 0 <= c < |order| && order[c] == j;
      assert c <= p;
      if c < p {
        assert Before(keys, j, i);
      }
    }
  }

  /** CreateNoteLengths on one channel: the events are visited stably sorted
      by real time, and each sounding note is ended by the first later event
      that ends it. */
  method NoteLengths(es: seq<ControlEvent>) returns (r: seq<ControlEvent>)
    ensures |r| == |es|
    ensures forall i :: 0 <= i < |es| ==> r[i] == Lengthened(es, i)
  {
    var order := OrderBy(TimesOf(es));
    StableOrderDistinct(TimesOf(es), order);
    r := es;
    var p := 0;
    while p < |order|
      invariant 0 <= p <= |order| && |r| == |es|
      invariant forall q :: 0 <= q < p ==> r[order[q]] == Lengthened(es, order[q])
      invariant forall q :: p <= q < |order| ==> r[order[q]] == es[order[q]]
    {
      var e := LengthenAt(es, order, p);
      r := r[order[p] := e];
      p := p + 1;
    }
    forall i | 0 <= i < |es|
      ensures r[i] == Lengthened(es, i)
    {
      assert i in order;
    }
  }

  /** The body of CreateNoteLengths' outer loop for the event at position p
      of the visit: scan forward for the first event that ends it. */
  method LengthenAt(es: seq<ControlEvent>, order: seq<nat>, p: nat) returns (e: ControlEvent)
    requires StableOrder(TimesOf(es), order) && p < |order|
    ensures e == Lengthened(es, order[p])
  {
    var i := order[p];
    e := es[i];
    if es[i].NoteOn? && es[i].volume > 0 {
      var q := p + 1;
      while q < |order| && !Ends(es[i], es[order[q]])
        invariant p + 1 <= q <= |order|
        invariant forall q' :: p < q' < q ==> !Ends(es[i], es[order[q']])
      {
        q := q + 1;
      }
      if q < |order| {
        FirstEndIsNext(es, order, p, q);
        var j := order[q];
        e := es[i].(length := (es[j].tick - es[i].tick) % U32, realLength := es[j].time - es[i].time, end := es[j].time);
      } else {
        NoEndAfter(es, order, p);
      }
    }
  }

  /** A channel after CreateNoteLengths. */
  function ChannelWithLengths(c: Channel): (r: Channel)
    ensures r.number == c.number && |r.events| == |c.events|
    ensures forall i :: 0 <= i < |c.events| ==> r.events[i] == Lengthened(c.events, i)
  {
    c.(events := seq(|c.events|, i requires 0 <= i < |c.events| => Lengthened(c.events, i)))
  }

  /** CreateNoteLengths: every channel of every track, one at a time; meta
      events and everything outside the channels are untouched. */
  method CreateNoteLengths(m: Model) returns (r: Model)
    requires WellFormed(m)
    ensures WellFormed(r) && r == m.(tracks := r.tracks) && |r.tracks| == |m.tracks|
    ensures forall t :: 0 <= t < |m.tracks| ==>
      r.tracks[t].meta == m.tracks[t].meta && |r.tracks[t].channels| == |m.tracks[t].channels|
    ensures forall t, c :: 0 <= t < |m.tracks| && 0 <= c < |m.tracks[t].channels| ==>
      r.tracks[t].channels[c] == ChannelWithLengths(m.tracks[t].channels[c])
  {
    var tracks: seq<Track> := [];
    var t := 0;
    while t < |m.tracks|
      invariant 0 <= t <= |m.tracks| && |tracks| == t
      invariant forall k :: 0 <= k < t ==> tracks[k].meta == m.tracks[k].meta
      invariant forall k :: 0 <= k < t ==> |tracks[k].channels| == |m.tracks[k].channels|
      invariant forall k, c :: 0 <= k < t && 0 <= c < |m.tracks[k].channels| ==>
        tracks[k].channels[c] == ChannelWithLengths(m.tracks[k].channels[c])
    {
      var source := m.tracks[t];
      var channels: seq<Channel> := [];
      var c := 0;
      while c < |source.channels|
        invariant 0 <= c <= |source.channels| && |channels| == c
        invariant forall k :: 0 <= k < c ==> channels[k] == ChannelWithLengths(source.channels[k])
      {
        var events := NoteLengths(source.channels[c].events);
        channels := channels + [source.channels[c].(events := events)];
        c := c + 1;
      }
      tracks := tracks + [source.(channels := channels)];
      t := t + 1;
    }
    r := m.(tracks := tracks);
    forall tr | tr in r.tracks
      ensures WellFormedTrack(tr)
    {
      var k :| 0 <= k < |tracks| && tracks[k] == tr;
      assert m.tracks[k] in m.tracks;
    }
  }
}
