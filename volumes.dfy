/** VolumeChangeCollector.cs: the volume (CC7) and expression (CC11)
    controllers bucketed by channel, and each note's loudness from the
    controller values in force while it sounds. */
module VolumeChangeCollector {
  import opened Wrappers
  import opened Events
  import opened Tracks
  import opened Latest

  /** The value a controller is assumed to have when none was sent. */
  const DefaultValue := 96.0

  predicate IsChange(e: ControlEvent, c: Control)
  {
    e.Controller? && NumberToControl(e.number) == Some(c)
  }

  /** The controllers of kind c on channel ch, in event order. */
  function ChangesOf(es: seq<ControlEvent>, c: Control, ch: ChannelNumber): (r: seq<ControlEvent>)
    ensures |r| <= |es|
  {
    if es == [] then []
    else
      var e := es[|es| - 1];
      ChangesOf(es[..|es| - 1], c, ch) + (if IsChange(e, c) && e.channel == ch then [e] else [])
  }

  /** The list of channel ch holds exactly the controllers of kind c sent
      on ch: each of them, and nothing else. */
  lemma {:induction false} ChangesOfExactly(es: seq<ControlEvent>, c: Control, ch: ChannelNumber)
    ensures forall e :: e in ChangesOf(es, c, ch) ==> e in es && IsChange(e, c) && e.channel == ch
    ensures forall e :: e in es && IsChange(e, c) && e.channel == ch ==> e in ChangesOf(es, c, ch)
  {
    if es != [] {
      var front := es[..|es| - 1];
      ChangesOfExactly(front, c, ch);
      assert es == front + [es[|es| - 1]];
    }
  }

  /** Every list of changes holds controllers only. */
  lemma ChangesAreControllers(es: seq<ControlEvent>)
    ensures forall c, ch: ChannelNumber, x :: x in ChangesOf(es, c, ch) ==> x.Controller?
  {
    forall c, ch: ChannelNumber {
      ChangesOfExactly(es, c, ch);
    }
  }

  /** The collector's two arrays of sixteen lists. */
  datatype Collector = Collector(volumeChanges: seq<seq<ControlEvent>>, expressionChanges: seq<seq<ControlEvent>>)

  predicate Collected(col: Collector, es: seq<ControlEvent>)
  {
    |col.volumeChanges| == NumberOfChannels && |col.expressionChanges| == NumberOfChannels &&
    (forall ch: ChannelNumber :: col.volumeChanges[ch] == ChangesOf(es, Volume, ch)) &&
    (forall ch: ChannelNumber :: col.expressionChanges[ch] == ChangesOf(es, Expression, ch)) &&
    (forall ch: ChannelNumber, x :: x in col.volumeChanges[ch] ==> x.Controller?) &&
    (forall ch: ChannelNumber, x :: x in col.expressionChanges[ch] ==> x.Controller?)
  }

  /** The constructor: every volume and every expression controller of the
      model is appended to the list of its channel, in event order. */
  method NewCollector(m: Model) returns (col: Collector)
    ensures Collected(col, ControlEvents(m))
  {
    var es := ControlEvents(m);
    var volume := Bucket(es, Volume);
    var expression := Bucket(es, Expression);
    col := Collector(volume, expression);
    ChangesAreControllers(es);
  }

  /** One bucketing loop of the constructor. */
  method Bucket(es: seq<ControlEvent>, c: Control) returns (lists: seq<seq<ControlEvent>>)
    ensures |lists| == NumberOfChannels
    ensures forall ch: ChannelNumber :: lists[ch] == ChangesOf(es, c, ch)
  {
    lists := seq(NumberOfChannels, _ => []);
    for i := 0 to |es|
      invariant |lists| == NumberOfChannels
      invariant forall ch: ChannelNumber :: lists[ch] == ChangesOf(es[..i], c, ch)
    {
      var e := es[i];
      ChangesOfStep(es, c, i);
      if IsChange(e, c) {
        lists := lists[e.channel := lists[e.channel] + [e]];
      }
    }
    assert es[..|es|] == es;
  }

  /** One more event extends the list of its own channel, if it is a change
      of kind c, and no other. */
  lemma ChangesOfStep(es: seq<ControlEvent>, c: Control, i: nat)
    requires i < |es|
    ensures forall ch: ChannelNumber ::
      ChangesOf(es[..i + 1], c, ch) == ChangesOf(es[..i], c, ch) + if IsChange(es[i], c) && es[i].channel == ch then [es[i]] else []
  {
    assert es[..i + 1][..i] == es[..i];
  }

  /** The controllers sent while the note sounds: from its start (inclusive)
      to its end (exclusive). */
  function During(changes: seq<ControlEvent>, start: real, end: real): (r: seq<ControlEvent>)
    ensures |r| <= |changes|
    ensures forall e :: e in r <==> e in changes && start <= e.time < end
  {
    if changes == [] then []
    else
      var e := changes[|changes| - 1];
      During(changes[..|changes| - 1], start, end) + (if start <= e.time < end then [e] else [])
  }

  function SumOfValues(cs: seq<ControlEvent>): real
    requires forall e :: e in cs ==> e.Controller?
  {
    if cs == [] then 0.0 else SumOfValues(cs[..|cs| - 1]) + cs[|cs| - 1].value as real
  }

  /** The controller values add up to at most the count times the largest
      value allowed. */
  lemma {:induction false} SumOfValuesBounds(cs: seq<ControlEvent>, bound: real)
    requires forall e :: e in cs ==> e.Controller? && e.value as real <= bound
    ensures 0.0 <= SumOfValues(cs) <= |cs| as real * bound
  {
    if cs != [] {
      var n := |cs| - 1;
      var init := cs[..n];
      PrefixMembers(cs, n);
      SumOfValuesBounds(init, bound);
      assert cs[n] in cs;
      var v := cs[n].value as real;
      assert SumOfValues(cs) == SumOfValues(init) + v;
      AddOneBound(SumOfValues(init), v, |init| as real, |cs| as real, bound);
    }
  }

  lemma PrefixMembers<T>(xs: seq<T>, n: nat)
    requires n <= |xs|
    ensures forall e :: e in xs[..n] ==> e in xs
  {
  }

  lemma AddOneBound(s: real, v: real, n: real, m: real, bound: real)
    requires 0.0 <= s <= n * bound && 0.0 <= v <= bound && m == n + 1.0
    ensures 0.0 <= s + v <= m * bound
  {
  }

  /** Enumerable.Average of the controller values. */
  function Mean(cs: seq<ControlEvent>): (r: real)
    requires |cs| > 0 && forall e :: e in cs ==> e.Controller?
    ensures r * |cs| as real == SumOfValues(cs)
    ensures (forall e :: e in cs ==> e.value <= 127) ==> 0.0 <= r <= 127.0
  {
    var n := |cs| as real;
    DivideBack(SumOfValues(cs), n);
    assert (forall e :: e in cs ==> e.value <= 127) ==> 0.0 <= SumOfValues(cs) / n <= 127.0 by {
      if forall e :: e in cs ==> e.value <= 127 {
        SumOfValuesBounds(cs, 127.0);
        DivideBounds(SumOfValues(cs), n, 127.0);
      }
    }
    SumOfValues(cs) / n
  }

  lemma DivideBack(a: real, n: real)
    requires n > 0.0
    ensures (a / n) * n == a
  {
  }

  lemma DivideBounds(a: real, n: real, bound: real)
    requires n > 0.0 && 0.0 <= a <= n * bound
    ensures 0.0 <= a / n <= bound
  {
  }

  /** The latest value at or before t, as a controller value. */
  function LatestValue(changes: seq<ControlEvent>, t: real, default: real): (r: real)
    requires forall e :: e in changes ==> e.Controller?
    ensures r == ValueAtOrBefore(TimesOf(changes), ValuesOf(changes), t, default)
    ensures 0.0 <= default <= 127.0 && (forall e :: e in changes ==> e.value <= 127) ==> 0.0 <= r <= 127.0
  {
    var r := ValueAtOrBefore(TimesOf(changes), ValuesOf(changes), t, default);
    assert r == default || exists k :: 0 <= k < |changes| && r == changes[k].value as real;
    r
  }

  /** The values of the controllers, in order. */
  function ValuesOf(cs: seq<ControlEvent>): (vs: seq<real>)
    requires forall e :: e in cs ==> e.Controller?
    ensures |vs| == |cs| && forall i :: 0 <= i < |cs| ==> vs[i] == cs[i].value as real
  {
    seq(|cs|, i requires 0 <= i < |cs| => cs[i].value as real)
  }

  /** ControllerValueDuringNote: the mean value of the controllers sent while
      the note sounds; failing that the value of the latest one sent at or
      before its start (the first of equal times); failing that the default.
      The result stays in the range the values and the default lie in. */
  function ValueDuringNote(changes: seq<ControlEvent>, note: ControlEvent, default: real): (r: real)
    requires note.NoteOn? && forall e :: e in changes ==> e.Controller?
    ensures |During(changes, note.time, note.time + note.realLength)| > 0 ==>
      r == Mean(During(changes, note.time, note.time + note.realLength))
    ensures (forall e :: e in changes ==> !(note.time <= e.time < note.time + note.realLength)) ==>
      r == ValueAtOrBefore(TimesOf(changes), ValuesOf(changes), note.time, default)
    ensures 0.0 <= default <= 127.0 && (forall e :: e in changes ==> e.value <= 127) ==> 0.0 <= r <= 127.0
  {
    var during := During(changes, note.time, note.time + note.realLength);
    if |during| > 0 then
      assert during[0] in during;
      Mean(during)
    else
      assert during == [];
      LatestValue(changes, note.time, default)
  }

  /** RealVolume: the note's velocity scaled by the channel volume and the
      expression, each out of 127. */
  function RealVolume(velocity: byte, volume: real, expression: real): (r: real)
    ensures velocity == 0 || volume == 0.0 || expression == 0.0 ==> r == 0.0
    ensures volume == 127.0 && expression == 127.0 ==> r == velocity as real / 127.0
  {
    velocity as real / 127.0 * volume / 127.0 * expression / 127.0
  }

  /** With every factor at most 127 the loudness lies in [0, 1]. */
  lemma RealVolumeBounds(velocity: byte, volume: real, expression: real)
    requires velocity <= 127 && 0.0 <= volume <= 127.0 && 0.0 <= expression <= 127.0
    ensures 0.0 <= RealVolume(velocity, volume, expression) <= 1.0
  {
    var a := velocity as real / 127.0;
    var b := volume / 127.0;
    var c := expression / 127.0;
    UnitProduct(a, b);
    UnitProduct(a * b, c);
  }

  lemma UnitProduct(a: real, b: real)
    requires 0.0 <= a <= 1.0 && 0.0 <= b <= 1.0
    ensures 0.0 <= a * b <= 1.0
  {
    NonNegativeProduct(a, b);
    NonNegativeProduct(a, 1.0 - b);
    assert a * (1.0 - b) == a - a * b;
  }

  lemma NonNegativeProduct(x: real, y: real)
    requires x >= 0.0 && y >= 0.0
    ensures x * y >= 0.0
  {
  }

  /** A control event after DetermineVolumes: a note gets the loudness from
      its channel's controllers (96 when there are none); everything else is
      unchanged. */
  function Loud(col: Collector, e: ControlEvent): ControlEvent
    requires |col.volumeChanges| == NumberOfChannels && |col.expressionChanges| == NumberOfChannels
    requires forall ch: ChannelNumber, c :: c in col.volumeChanges[ch] ==> c.Controller?
    requires forall ch: ChannelNumber, c :: c in col.expressionChanges[ch] ==> c.Controller?
  {
    if e.NoteOn? then
      var volume := ValueDuringNote(col.volumeChanges[e.channel], e, DefaultValue);
      var expression := ValueDuringNote(col.expressionChanges[e.channel], e, DefaultValue);
      e.(realVolume := RealVolume(e.volume, volume, expression))
    else e
  }

  /** When controller values and velocities are MIDI data bytes (at most
      127), every loudness lies in [0, 1]. */
  lemma LoudInUnitRange(col: Collector, e: ControlEvent)
    requires |col.volumeChanges| == NumberOfChannels && |col.expressionChanges| == NumberOfChannels
    requires forall ch: ChannelNumber, c :: c in col.volumeChanges[ch] ==> c.Controller? && c.value <= 127
    requires forall ch: ChannelNumber, c :: c in col.expressionChanges[ch] ==> c.Controller? && c.value <= 127
    requires e.NoteOn? && e.volume <= 127
    ensures 0.0 <= Loud(col, e).realVolume <= 1.0
  {
    var vs := col.volumeChanges[e.channel];
    var xs := col.expressionChanges[e.channel];
    assert forall c :: c in vs ==> c.Controller? && c.value <= 127;
    assert forall c :: c in xs ==> c.Controller? && c.value <= 127;
    var volume := ValueDuringNote(vs, e, DefaultValue);
    var expression := ValueDuringNote(xs, e, DefaultValue);
    RealVolumeBounds(e.volume, volume, expression);
  }

  /** The collector the constructor builds for the events es. */
  function CollectorOf(es: seq<ControlEvent>): (col: Collector)
    ensures Collected(col, es)
  {
    ChangesAreControllers(es);
    Collector(seq(NumberOfChannels, (ch: int) requires 0 <= ch < NumberOfChannels => ChangesOf(es, Volume, ch)),
              seq(NumberOfChannels, (ch: int) requires 0 <= ch < NumberOfChannels => ChangesOf(es, Expression, ch)))
  }

  /** Collected pins the collector down: it is the one the constructor builds. */
  lemma CollectedIsCollectorOf(col: Collector, es: seq<ControlEvent>)
    requires Collected(col, es)
    ensures col == CollectorOf(es)
  {
    var other := CollectorOf(es);
    assert col.volumeChanges == other.volumeChanges;
    assert col.expressionChanges == other.expressionChanges;
  }

  /** The running maximum of DetermineVolumes: the largest loudness of a
      note, or 0 when there is none (or none is louder than 0). */
  function Loudest(es: seq<ControlEvent>): (r: real)
    ensures r >= 0.0
  {
    if es == [] then 0.0
    else
      var e := es[|es| - 1];
      var rest := Loudest(es[..|es| - 1]);
      if e.NoteOn? && e.realVolume > rest then e.realVolume else rest
  }

  /** Loudest is the maximum: no note is louder, and unless it is 0 some
      note has exactly that loudness. */
  lemma {:induction false} LoudestIsMax(es: seq<ControlEvent>)
    ensures forall e :: e in es && e.NoteOn? ==> e.realVolume <= Loudest(es)
    ensures Loudest(es) == 0.0 || exists e :: e in es && e.NoteOn? && e.realVolume == Loudest(es)
  {
    if es != [] {
      var front := es[..|es| - 1];
      var e := es[|es| - 1];
      LoudestIsMax(front);
      assert es == front + [e];
      if Loudest(es) != 0.0 && Loudest(es) == Loudest(front) {
        var w :| w in front && w.NoteOn? && w.realVolume == Loudest(front);
        assert w in es;
      }
    }
  }

  /** One more event moves the running maximum only when it is a louder note. */
  lemma LoudestStep(es: seq<ControlEvent>, e: ControlEvent)
    ensures Loudest(es + [e]) == if e.NoteOn? && e.realVolume > Loudest(es) then e.realVolume else Loudest(es)
  {
    assert (es + [e])[..|es|] == es;
  }

  /** The model after DetermineVolumes with the collector of its own
      events: every event replaced by its loud form, and MaxRealVolume the
      loudest note. */
  function Loudened(m: Model): (r: Model)
    requires WellFormed(m)
    ensures WellFormed(r) && MetaEvents(r) == MetaEvents(m)
    ensures |ControlEvents(r)| == |ControlEvents(m)|
    ensures forall i :: 0 <= i < |ControlEvents(m)| ==> ControlEvents(r)[i] == Loud(CollectorOf(ControlEvents(m)), ControlEvents(m)[i])
    ensures forall e :: e in ControlEvents(r) && e.NoteOn? ==> e.realVolume <= r.maxRealVolume
  {
    var es := ControlEvents(m);
    var col := CollectorOf(es);
    var out := seq(|es|, k requires 0 <= k < |es| => Loud(col, es[k]));
    var replaced := ReplaceEvents(m, out);
    assert ControlEvents(replaced) == out;
    LoudestIsMax(out);
    replaced.(maxRealVolume := Loudest(out))
  }

  /** DetermineVolumes: every note gets its loudness, and MaxRealVolume
      becomes the largest loudness, or 0 when there are no notes. */
  method DetermineVolumes(col: Collector, m: Model) returns (r: Model)
    requires WellFormed(m) && Collected(col, ControlEvents(m))
    ensures WellFormed(r) && r == m.(tracks := r.tracks, maxRealVolume := r.maxRealVolume)
    ensures MetaEvents(r) == MetaEvents(m) && |ControlEvents(r)| == |ControlEvents(m)|
    ensures forall i :: 0 <= i < |ControlEvents(m)| ==> ControlEvents(r)[i] == Loud(col, ControlEvents(m)[i])
    ensures r.maxRealVolume >= 0.0
    ensures forall e :: e in ControlEvents(r) && e.NoteOn? ==> e.realVolume <= r.maxRealVolume
    ensures r.maxRealVolume == 0.0 || exists e :: e in ControlEvents(r) && e.NoteOn? && e.realVolume == r.maxRealVolume
    ensures r == Loudened(m)
  {
    var out, max := LoudNotes(col, ControlEvents(m));
    LoudestIsMax(out);
    var replaced := ReplaceEvents(m, out);
    r := replaced.(maxRealVolume := max);
    assert ControlEvents(r) == out;
    CollectedIsCollectorOf(col, ControlEvents(m));
    assert out == seq(|out|, k requires 0 <= k < |out| => Loud(col, ControlEvents(m)[k]));
  }

  /** The loop over the notes: each gets its loudness, and the running
      maximum ends as the largest loudness, or 0 when there are no notes. */
  method LoudNotes(col: Collector, es: seq<ControlEvent>) returns (out: seq<ControlEvent>, max: real)
    requires |col.volumeChanges| == NumberOfChannels && |col.expressionChanges| == NumberOfChannels
    requires forall ch: ChannelNumber, c :: c in col.volumeChanges[ch] ==> c.Controller?
    requires forall ch: ChannelNumber, c :: c in col.expressionChanges[ch] ==> c.Controller?
    ensures |out| == |es| && forall k :: 0 <= k < |es| ==> out[k] == Loud(col, es[k])
    ensures max == Loudest(out)
  {
    out, max := UpdateNotes(e => Loud(col, e), es);
  }

  /** The shape of that loop for any per-event update f: every event is
      replaced by its update, in place, while the maximum is kept. */
  method UpdateNotes(f: ControlEvent -> ControlEvent, es: seq<ControlEvent>) returns (out: seq<ControlEvent>, max: real)
    ensures |out| == |es| && forall k :: 0 <= k < |es| ==> out[k] == f(es[k])
    ensures max == Loudest(out)
  {
    out := es;
    max := 0.0;
    for i := 0 to |es|
      invariant |out| == |es|
      invariant forall k :: 0 <= k < i ==> out[k] == f(es[k])
      invariant forall k :: i <= k < |es| ==> out[k] == es[k]
      invariant max == Loudest(out[..i])
    {
      var note := f(es[i]);
      LoudestStep(out[..i], note);
      if note.NoteOn? && note.realVolume > max {
        max := note.realVolume;
      }
      ghost var done := out[..i];
      out := out[i := note];
      assert out[..i + 1] == done + [note];
    }
    assert out[..|es|] == out;
  }
}
