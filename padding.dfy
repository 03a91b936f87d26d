/** Normalizer.PadNotesToZero: every event of the model, control and meta
    alike, is moved earlier by the time of the first sounding note, and an
    event that would land before 0 is put at 0. Only the onset moves: a
    note's End and length are left as they were. */
module Padding {
  import opened Wrappers
  import opened MathExt
  import opened Events
  import opened Tracks
  import TimeChanger

  /** The new onset of an event at t when the first sounding note is at
      `first`. */
  function Shifted(t: real, first: real): real
  {
    if t < first then 0.0 else t - first
  }

  /** No onset is negative afterwards, the order of onsets is kept, the
      first note lands on 0, and distances between events at or after the
      first note are kept. */
  lemma ShiftedProperties(a: real, b: real, first: real)
    ensures Shifted(a, first) >= 0.0
    ensures a <= b ==> Shifted(a, first) <= Shifted(b, first)
    ensures Shifted(first, first) == 0.0
    ensures first <= a && first <= b ==> Shifted(b, first) - Shifted(a, first) == b - a
  {
  }

  function PaddedEvents(es: seq<ControlEvent>, first: real): (r: seq<ControlEvent>)
    ensures |r| == |es|
  {
    seq(|es|, i requires 0 <= i < |es| => es[i].(time := Shifted(es[i].time, first)))
  }

  function PaddedMeta(ms: seq<MetaEvent>, first: real): (r: seq<MetaEvent>)
    ensures |r| == |ms|
  {
    seq(|ms|, i requires 0 <= i < |ms| => ms[i].(time := Shifted(ms[i].time, first)))
  }

  /** The onset of the first sounding note; Min of no notes throws
      InvalidOperationException. */
  function FirstSounding(es: seq<ControlEvent>): (r: Result<real>)
    ensures r.Fail? <==> TimeChanger.SoundingTimes(es) == []
  {
    var times := TimeChanger.SoundingTimes(es);
    if times == [] then Fail(InvalidOperation) else Ok(MinWithIndex(times).value.1)
  }

  /** The model PadNotesToZero leaves: every onset shifted by the first
      sounding note's. */
  function Padded(m: Model): Result<Model>
  {
    match FirstSounding(ControlEvents(m))
    case Fail(f) => Fail(f)
    case Ok(first) =>
      Ok(ReplaceMeta(ReplaceEvents(m, PaddedEvents(ControlEvents(m), first)), PaddedMeta(MetaEvents(m), first)))
  }

  /** PadNotesToZero on the model. */
  method PadNotesToZero(m: Model) returns (r: Result<Model>)
    ensures r == Padded(m)
    ensures r.Fail? <==> FirstSounding(ControlEvents(m)).Fail?
    ensures r.Fail? ==> r.failure == InvalidOperation
    ensures r.Ok? ==>
      var first := FirstSounding(ControlEvents(m)).value;
      ControlEvents(r.value) == PaddedEvents(ControlEvents(m), first) &&
      MetaEvents(r.value) == PaddedMeta(MetaEvents(m), first) &&
      r.value == m.(tracks := r.value.tracks) &&
      (WellFormed(m) ==> WellFormed(r.value))
  {
    var es := ControlEvents(m);
    var found := FirstSounding(es);
    if found.Fail? {
      return Fail(InvalidOperation);
    }
    var first := found.value;
    var out := PadEvents(es, first);
    var metaOut := PadMeta(MetaEvents(m), first);
    r := Ok(ReplaceMeta(ReplaceEvents(m, out), metaOut));
  }

  /** The loop over the control events. */
  method PadEvents(es: seq<ControlEvent>, first: real) returns (out: seq<ControlEvent>)
    ensures out == PaddedEvents(es, first)
  {
    out := es;
    for i := 0 to |es|
      invariant |out| == |es|
      invariant forall k :: 0 <= k < i ==> out[k] == es[k].(time := Shifted(es[k].time, first))
      invariant forall k :: i <= k < |es| ==> out[k] == es[k]
    {
      if es[i].time < first {
        out := out[i := es[i].(time := 0.0)];
      } else {
        out := out[i := es[i].(time := es[i].time - first)];
      }
    }
  }

  /** The loop over the meta events. */
  method PadMeta(ms: seq<MetaEvent>, first: real) returns (out: seq<MetaEvent>)
    ensures out == PaddedMeta(ms, first)
  {
    out := ms;
    for i := 0 to |ms|
      invariant |out| == |ms|
      invariant forall k :: 0 <= k < i ==> out[k] == ms[k].(time := Shifted(ms[k].time, first))
      invariant forall k :: i <= k < |ms| ==> out[k] == ms[k]
    {
      if ms[i].time < first {
        out := out[i := ms[i].(time := 0.0)];
      } else {
        out := out[i := ms[i].(time := ms[i].time - first)];
      }
    }
  }

  /** The sounding notes after padding are the same notes, each moved by
      Shifted. */
  lemma {:induction false} SoundingPadded(es: seq<ControlEvent>, first: real)
    ensures var before := TimeChanger.SoundingTimes(es);
      var after := TimeChanger.SoundingTimes(PaddedEvents(es, first));
      |after| == |before| && forall k :: 0 <= k < |before| ==> after[k] == Shifted(before[k], first)
  {
    if es != [] {
      var n := |es| - 1;
      assert PaddedEvents(es, first)[..n] == PaddedEvents(es[..n], first);
      SoundingPadded(es[..n], first);
    }
  }

  /** After padding the first sounding note starts at 0 and no sounding
      note starts before it. */
  lemma PaddedStartsAtZero(es: seq<ControlEvent>)
    requires FirstSounding(es).Ok?
    ensures var after := TimeChanger.SoundingTimes(PaddedEvents(es, FirstSounding(es).value));
      FirstSounding(PaddedEvents(es, FirstSounding(es).value)) == Ok(0.0) &&
      forall k :: 0 <= k < |after| ==> after[k] >= 0.0
  {
    var first := FirstSounding(es).value;
    var before := TimeChanger.SoundingTimes(es);
    var after := TimeChanger.SoundingTimes(PaddedEvents(es, first));
    SoundingPadded(es, first);
    var j := MinWithIndex(before).value.0;
    assert after[j] == 0.0;
    forall k | 0 <= k < |after|
      ensures after[k] >= 0.0
    {
      ShiftedProperties(before[k], before[k], first);
    }
    var low := MinWithIndex(after).value.1;
    assert low <= after[j];
    assert low in after;
  }
}
