/** Sustainer.cs: prolongs notes held by the sustain pedal (CC64). The
    pedal changes and the onsets and ends of the sounding notes are merged
    into one stream by time; each channel keeps a slot per pitch for the
    note still tracked there and a flag for the pedal. Notes are referred
    to by their index in the model's control events. */
module Sustainer {
  import opened Wrappers
  import opened Events
  import opened Tracks
  import opened Ordering

  /** Each channel's slot array has 128 entries, one per pitch. */
  const PitchCount := 128

  /** A CC64 value at or above this holds the pedal down. */
  const PedalDown := 64

  /** A stream entry: a note's onset, its end, or a pedal change. */
  datatype SustainEvent =
    | OnEvent(time: real, note: nat)
    | OffEvent(time: real, note: nat)
    | ChangeEvent(time: real, controller: nat)

  /** A tracked note and whether its key is already released. */
  datatype Slot = Slot(note: nat, released: bool)

  /** The notes (the model's control events), the slots of every channel
      and the pedal flag of every channel. */
  datatype State = State(events: seq<ControlEvent>, slots: seq<seq<Option<Slot>>>, sustained: seq<bool>)

  /** A controller the source reads as Control.SustainPedal. */
  predicate IsPedal(e: ControlEvent)
  {
    e.Controller? && NumberToControl(e.number) == Some(SustainPedal)
  }

  /** A note the stream follows: one with a non-zero volume. */
  predicate Sounding(e: ControlEvent)
  {
    e.NoteOn? && e.volume > 0
  }

  /** The pedal changes, in event order, each at its controller's time. */
  function PedalEvents(es: seq<ControlEvent>): seq<SustainEvent>
  {
    if es == [] then []
    else
      var n := |es| - 1;
      PedalEvents(es[..n]) + if IsPedal(es[n]) then [ChangeEvent(es[n].time, n)] else []
  }

  /** An onset at the start and an end at End for every sounding note, in
      event order. */
  function NoteEvents(es: seq<ControlEvent>): seq<SustainEvent>
  {
    if es == [] then []
    else
      var n := |es| - 1;
      NoteEvents(es[..n]) + if Sounding(es[n]) then [OnEvent(es[n].time, n), OffEvent(es[n].end, n)] else []
  }

  /** One more event adds its own entries at the end of either list. */
  lemma StreamStep(es: seq<ControlEvent>, i: nat)
    requires i < |es|
    ensures PedalEvents(es[..i + 1]) == PedalEvents(es[..i]) + if IsPedal(es[i]) then [ChangeEvent(es[i].time, i)] else []
    ensures NoteEvents(es[..i + 1]) ==
      NoteEvents(es[..i]) + if Sounding(es[i]) then [OnEvent(es[i].time, i), OffEvent(es[i].end, i)] else []
  {
    assert es[..i + 1][..i] == es[..i];
  }

  /** The pedal entries are exactly the CC64 controllers, at their times. */
  lemma {:induction false} PedalEventsExact(es: seq<ControlEvent>)
    ensures forall x :: x in PedalEvents(es) ==>
      x.ChangeEvent? && x.controller < |es| && IsPedal(es[x.controller]) && x.time == es[x.controller].time
    ensures forall i :: 0 <= i < |es| && IsPedal(es[i]) ==> ChangeEvent(es[i].time, i) in PedalEvents(es)
  {
    if es != [] {
      var n := |es| - 1;
      PedalEventsExact(es[..n]);
      assert forall i :: 0 <= i < n ==> es[..n][i] == es[i];
    }
  }

  /** The note entries are exactly an onset and an end per sounding note. */
  lemma {:induction false} NoteEventsExact(es: seq<ControlEvent>)
    ensures forall x :: x in NoteEvents(es) ==>
      (x.OnEvent? || x.OffEvent?) && x.note < |es| && Sounding(es[x.note]) &&
      x.time == if x.OnEvent? then es[x.note].time else es[x.note].end
    ensures forall i :: 0 <= i < |es| && Sounding(es[i]) ==>
      OnEvent(es[i].time, i) in NoteEvents(es) && OffEvent(es[i].end, i) in NoteEvents(es)
  {
    if es != [] {
      var n := |es| - 1;
      NoteEventsExact(es[..n]);
      assert forall i :: 0 <= i < n ==> es[..n][i] == es[i];
    }
  }

  /** The stream before sorting: the pedal changes, then the note events. */
  function Unsorted(es: seq<ControlEvent>): seq<SustainEvent>
  {
    PedalEvents(es) + NoteEvents(es)
  }

  function EventTimes(qs: seq<SustainEvent>): (keys: seq<real>)
    ensures |keys| == |qs| && forall k :: 0 <= k < |qs| ==> keys[k] == qs[k].time
  {
    seq(|qs|, k requires 0 <= k < |qs| => qs[k].time)
  }

  /** Every note event names a note, every change a controller. */
  predicate Fits(es: seq<ControlEvent>, q: SustainEvent)
  {
    match q
    case OnEvent(_, n) => n < |es| && es[n].NoteOn?
    case OffEvent(_, n) => n < |es| && es[n].NoteOn?
    case ChangeEvent(_, i) => i < |es| && es[i].Controller?
  }

  /** A stream stably sorted by time: OrderBy(e => e.Time). */
  function ByTime(u: seq<SustainEvent>): (r: seq<SustainEvent>)
    ensures |r| == |u|
    ensures forall a, b :: 0 <= a < b < |r| ==> r[a].time <= r[b].time
    ensures forall x :: x in r <==> x in u
  {
    var keys := EventTimes(u);
    var order := StableSort(keys);
    var r := seq(|u|, k requires 0 <= k < |u| => u[order[k]]);
    assert forall a, b :: 0 <= a < b < |r| ==> r[a].time <= r[b].time by {
      forall a, b | 0 <= a < b < |r|
        ensures r[a].time <= r[b].time
      {
        StableOrderMonotone(keys, order, a, b);
      }
    }
    assert forall x :: x in u ==> x in r by {
      forall x | x in u
        ensures x in r
      {
        var i :| 0 <= i < |u| && u[i] == x;
        assert i in order;
        var k :| 0 <= k < |order| && order[k] == i;
        assert r[k] == x;
      }
    }
    r
  }

  /** The stream the constructor builds: the unsorted stream stably sorted
      by time, so equal times keep pedal changes first and each note's
      onset before its end. */
  function Queue(es: seq<ControlEvent>): seq<SustainEvent>
  {
    ByTime(Unsorted(es))
  }

  /** Every entry of the stream names a note or a controller. */
  lemma QueueFits(es: seq<ControlEvent>)
    ensures forall x :: x in Queue(es) ==> Fits(es, x)
  {
    PedalEventsExact(es);
    NoteEventsExact(es);
    forall x | x in Queue(es)
      ensures Fits(es, x)
    {
      assert x in PedalEvents(es) || x in NoteEvents(es);
    }
  }

  /** Note n is a note on channel c at pitch p. */
  predicate Holds(es: seq<ControlEvent>, n: nat, c: int, p: int)
  {
    n < |es| && es[n].NoteOn? && es[n].channel == c && es[n].note == p
  }

  /** Sixteen channels of 128 slots, and every slot holds a note of its own
      channel and pitch. */
  predicate Valid(s: State)
  {
    |s.slots| == NumberOfChannels && |s.sustained| == NumberOfChannels &&
    (forall c :: 0 <= c < NumberOfChannels ==> |s.slots[c]| == PitchCount) &&
    forall c, p :: 0 <= c < NumberOfChannels && 0 <= p < PitchCount && s.slots[c][p].Some? ==>
      Holds(s.events, s.slots[c][p].value.note, c, p)
  }

  /** The constructor's state: no tracked notes, no pedal down. */
  function Initial(es: seq<ControlEvent>): (s: State)
    ensures Valid(s) && s.events == es
    ensures forall c :: 0 <= c < NumberOfChannels ==> !s.sustained[c]
  {
    State(es, seq(NumberOfChannels, _ => seq(PitchCount, _ => None)), seq(NumberOfChannels, _ => false))
  }

  /** A note ended at time t, its real length following its end. */
  function Ended(e: ControlEvent, t: real): (r: ControlEvent)
    requires e.NoteOn?
    ensures r.NoteOn? && r.end == t && r.realLength == r.end - r.time
  {
    e.(end := t, realLength := t - e.time)
  }

  /** b is a with some notes' End moved, each with RealTimeLength = End -
      start, and nothing else changed. */
  predicate Retimed(a: seq<ControlEvent>, b: seq<ControlEvent>)
  {
    |a| == |b| &&
    forall i :: 0 <= i < |a| ==> b[i] == a[i] || (a[i].NoteOn? && b[i].NoteOn? && b[i] == Ended(a[i], b[i].end))
  }

  lemma RetimedTransitive(a: seq<ControlEvent>, b: seq<ControlEvent>, c: seq<ControlEvent>)
    requires Retimed(a, b) && Retimed(b, c)
    ensures Retimed(a, c)
  {
    forall i | 0 <= i < |a|
      ensures c[i] == a[i] || (a[i].NoteOn? && c[i].NoteOn? && c[i] == Ended(a[i], c[i].end))
    {
    }
  }

  /** The slots of one channel other than pitch p are as before, and so are
      the other channels. */
  predicate OnlySlotChanged(s: State, r: State, c: ChannelNumber, p: int)
    requires Valid(s) && Valid(r)
  {
    forall d, q :: 0 <= d < NumberOfChannels && 0 <= q < PitchCount && (d != c || q != p) ==>
      r.slots[d][q] == s.slots[d][q]
  }

  /** ProcessEvent(OnEvent): a note still tracked at the same channel and
      pitch ends at the new onset, and the new note is tracked unreleased.
      A pitch outside the 128 slots throws. */
  function OnStep(s: State, t: real, n: nat): (r: Result<State>)
    requires Valid(s) && n < |s.events| && s.events[n].NoteOn?
    ensures r.Fail? <==> s.events[n].note >= PitchCount
    ensures r.Fail? ==> r.failure == IndexOutOfRange
    ensures r.Ok? ==> Valid(r.value) && Retimed(s.events, r.value.events) && r.value.sustained == s.sustained
    ensures r.Ok? ==>
      var c, p := s.events[n].channel, s.events[n].note;
      r.value.slots[c][p] == Some(Slot(n, false)) && OnlySlotChanged(s, r.value, c, p) &&
      (s.slots[c][p].Some? ==>
        r.value.events[s.slots[c][p].value.note] == Ended(s.events[s.slots[c][p].value.note], t)) &&
      forall i :: 0 <= i < |s.events| && (s.slots[c][p].None? || i != s.slots[c][p].value.note) ==>
        r.value.events[i] == s.events[i]
  {
    var c, p := s.events[n].channel, s.events[n].note;
    if p >= PitchCount then Fail(IndexOutOfRange)
    else
      var es := if s.slots[c][p].Some? then
        var q := s.slots[c][p].value.note;
        s.events[q := Ended(s.events[q], t)]
      else s.events;
      Ok(State(es, s.slots[c := s.slots[c][p := Some(Slot(n, false))]], s.sustained))
  }

  /** ProcessEvent(OffEvent): with the pedal down the note is tracked as
      released, otherwise its slot is emptied. A pitch outside the 128
      slots throws. */
  function OffStep(s: State, n: nat): (r: Result<State>)
    requires Valid(s) && n < |s.events| && s.events[n].NoteOn?
    ensures r.Fail? <==> s.events[n].note >= PitchCount
    ensures r.Fail? ==> r.failure == IndexOutOfRange
    ensures r.Ok? ==> Valid(r.value) && r.value.events == s.events && r.value.sustained == s.sustained
    ensures r.Ok? ==>
      var c, p := s.events[n].channel, s.events[n].note;
      r.value.slots[c][p] == (if s.sustained[c] then Some(Slot(n, true)) else None) &&
      OnlySlotChanged(s, r.value, c, p)
  {
    var c, p := s.events[n].channel, s.events[n].note;
    if p >= PitchCount then Fail(IndexOutOfRange)
    else
      var slot := if s.sustained[c] then Some(Slot(n, true)) else None;
      Ok(s.(slots := s.slots[c := s.slots[c][p := slot]]))
  }

  /** Slot p of channel c holds a released note. */
  predicate IsReleased(s: State, c: ChannelNumber, p: nat)
    requires Valid(s) && p < PitchCount
  {
    s.slots[c][p].Some? && s.slots[c][p].value.released
  }

  /** The pedal-up loop over the slots of channel c below p: each released
      note ends at time t and its slot is emptied. */
  function Release(s: State, c: ChannelNumber, t: real, p: nat): (r: State)
    requires Valid(s) && p <= PitchCount
    ensures Valid(r) && Retimed(s.events, r.events) && r.sustained == s.sustained
  {
    if p == 0 then s
    else
      var prev := Release(s, c, t, p - 1);
      if IsReleased(prev, c, p - 1) then
        var n := prev.slots[c][p - 1].value.note;
        var r := State(prev.events[n := Ended(prev.events[n], t)], prev.slots[c := prev.slots[c][p - 1 := None]], prev.sustained);
        RetimedTransitive(s.events, prev.events, r.events);
        r
      else prev
  }

  /** Note i sits released in a slot of channel c below p. */
  predicate ReleasedBelow(s: State, c: ChannelNumber, i: nat, p: nat)
    requires Valid(s) && i < |s.events| && p <= PitchCount
  {
    s.events[i].NoteOn? && s.events[i].channel == c && s.events[i].note < p &&
    s.slots[c][s.events[i].note] == Some(Slot(i, true))
  }

  /** What the pedal-up loop does, slot by slot: below p the released slots
      of channel c are emptied and their notes end at t; every other slot
      and every other note is left as it was. */
  lemma ReleaseEffect(s: State, c: ChannelNumber, t: real, p: nat)
    requires Valid(s) && p <= PitchCount
    ensures var r := Release(s, c, t, p);
      forall q :: 0 <= q < PitchCount ==>
        r.slots[c][q] == if q < p && IsReleased(s, c, q) then None else s.slots[c][q]
    ensures var r := Release(s, c, t, p);
      forall d :: 0 <= d < NumberOfChannels && d != c ==> r.slots[d] == s.slots[d]
    ensures var r := Release(s, c, t, p);
      forall i :: 0 <= i < |s.events| ==>
        r.events[i] == if ReleasedBelow(s, c, i, p) then Ended(s.events[i], t) else s.events[i]
  {
    ReleaseSlots(s, c, t, p);
    ReleaseOtherChannels(s, c, t, p);
    ReleaseNotes(s, c, t, p);
  }

  /** Below p the released slots of channel c are emptied, the rest kept. */
  lemma {:induction false} ReleaseSlots(s: State, c: ChannelNumber, t: real, p: nat)
    requires Valid(s) && p <= PitchCount
    ensures forall q :: 0 <= q < PitchCount ==>
      Release(s, c, t, p).slots[c][q] == if q < p && IsReleased(s, c, q) then None else s.slots[c][q]
  {
    if p > 0 {
      ReleaseSlots(s, c, t, p - 1);
    }
  }

  /** The slots of the other channels are untouched. */
  lemma {:induction false} ReleaseOtherChannels(s: State, c: ChannelNumber, t: real, p: nat)
    requires Valid(s) && p <= PitchCount
    ensures forall d :: 0 <= d < NumberOfChannels && d != c ==> Release(s, c, t, p).slots[d] == s.slots[d]
  {
    if p > 0 {
      ReleaseOtherChannels(s, c, t, p - 1);
    }
  }

  /** The notes released below p end at t, the rest are kept. */
  lemma {:induction false} ReleaseNotes(s: State, c: ChannelNumber, t: real, p: nat)
    requires Valid(s) && p <= PitchCount
    ensures forall i :: 0 <= i < |s.events| ==>
      Release(s, c, t, p).events[i] == if ReleasedBelow(s, c, i, p) then Ended(s.events[i], t) else s.events[i]
  {
    if p > 0 {
      ReleaseNotes(s, c, t, p - 1);
      ReleaseSlots(s, c, t, p - 1);
      var prev := Release(s, c, t, p - 1);
      assert prev.slots[c][p - 1] == s.slots[c][p - 1];
      forall i | 0 <= i < |s.events|
        ensures ReleasedBelow(s, c, i, p) == (ReleasedBelow(s, c, i, p - 1) ||
          (IsReleased(s, c, p - 1) && i == s.slots[c][p - 1].value.note))
      {
      }
    }
  }

  /** ProcessEvent(ChangeEvent): a pedal change below 64 ends every released
      note of the channel at the change and empties its slot; the channel's
      flag becomes whether the value is at least 64. */
  function ChangeStep(s: State, t: real, i: nat): (r: State)
    requires Valid(s) && i < |s.events| && s.events[i].Controller?
    ensures Valid(r) && Retimed(s.events, r.events)
    ensures r.sustained == s.sustained[s.events[i].channel := s.events[i].value >= PedalDown]
    ensures s.events[i].value >= PedalDown ==> r.events == s.events && r.slots == s.slots
  {
    var c := s.events[i].channel;
    var isOn := s.events[i].value >= PedalDown;
    var r := if !isOn then Release(s, c, t, PitchCount) else s;
    r.(sustained := r.sustained[c := isOn])
  }

  /** A pedal-up change (value below 64) on channel c at time t: every
      released note tracked on c ends at t and is untracked; unreleased
      notes stay tracked, and no other note changes. */
  lemma PedalUp(s: State, t: real, i: nat)
    requires Valid(s) && i < |s.events| && s.events[i].Controller? && s.events[i].value < PedalDown
    ensures var r, c := ChangeStep(s, t, i), s.events[i].channel;
      !r.sustained[c] &&
      (forall q :: 0 <= q < PitchCount ==> r.slots[c][q] == if IsReleased(s, c, q) then None else s.slots[c][q]) &&
      forall n :: 0 <= n < |s.events| ==>
        r.events[n] == if ReleasedBelow(s, c, n, PitchCount) then Ended(s.events[n], t) else s.events[n]
  {
    ReleaseEffect(s, s.events[i].channel, t, PitchCount);
  }

  /** ProlongSustainedNotes' dispatch on the kind of stream entry. */
  function Step(s: State, q: SustainEvent): (r: Result<State>)
    requires Valid(s) && Fits(s.events, q)
    ensures r.Ok? ==> Valid(r.value) && Retimed(s.events, r.value.events)
    ensures r.Fail? <==> OutOfRange(s.events, q)
    ensures r.Fail? ==> r.failure == IndexOutOfRange
  {
    match q
    case OnEvent(t, n) => OnStep(s, t, n)
    case OffEvent(_, n) => OffStep(s, n)
    case ChangeEvent(t, i) => Ok(ChangeStep(s, t, i))
  }

  /** A note entry whose pitch has no slot. */
  predicate OutOfRange(es: seq<ControlEvent>, q: SustainEvent)
  {
    !q.ChangeEvent? && q.note < |es| && es[q.note].NoteOn? && es[q.note].note >= PitchCount
  }

  /** The channel a stream entry belongs to. */
  function ChannelOf(es: seq<ControlEvent>, q: SustainEvent): ChannelNumber
    requires Fits(es, q)
  {
    match q
    case OnEvent(_, n) => es[n].channel
    case OffEvent(_, n) => es[n].channel
    case ChangeEvent(_, i) => es[i].channel
  }

  /** The state is kept per channel: an entry leaves the slots, the flag
      and the notes of every other channel as they were. */
  lemma StepIsolated(s: State, q: SustainEvent, d: ChannelNumber)
    requires Valid(s) && Fits(s.events, q) && d != ChannelOf(s.events, q) && Step(s, q).Ok?
    ensures var r := Step(s, q).value;
      r.slots[d] == s.slots[d] && r.sustained[d] == s.sustained[d] &&
      forall i :: 0 <= i < |s.events| && s.events[i].channel == d ==> r.events[i] == s.events[i]
  {
    var r := Step(s, q).value;
    if q.ChangeEvent? {
      var c := s.events[q.controller].channel;
      if s.events[q.controller].value < PedalDown {
        ReleaseEffect(s, c, q.time, PitchCount);
        forall i | 0 <= i < |s.events| && s.events[i].channel == d
          ensures r.events[i] == s.events[i]
        {
          assert !ReleasedBelow(s, c, i, PitchCount);
        }
      }
    } else {
      var c, p := s.events[q.note].channel, s.events[q.note].note;
      forall q' | 0 <= q' < PitchCount
        ensures r.slots[d][q'] == s.slots[d][q']
      {
      }
    }
  }

  lemma FitsRetimed(a: seq<ControlEvent>, b: seq<ControlEvent>, q: SustainEvent)
    requires Retimed(a, b) && Fits(a, q)
    ensures Fits(b, q) && (OutOfRange(a, q) <==> OutOfRange(b, q))
  {
  }

  /** The entries of a stream processed in order. The run fails exactly
      when some note entry has a pitch outside the slots; otherwise every
      End it moved has RealTimeLength = End - start, and nothing else
      changed. */
  function Run(s: State, qs: seq<SustainEvent>): (r: Result<State>)
    requires Valid(s) && forall q :: q in qs ==> Fits(s.events, q)
    ensures r.Ok? ==> Valid(r.value) && Retimed(s.events, r.value.events)
    ensures r.Fail? <==> exists q :: q in qs && OutOfRange(s.events, q)
    ensures r.Fail? ==> r.failure == IndexOutOfRange
  {
    if qs == [] then Ok(s)
    else
      var n := |qs| - 1;
      assert forall q :: q in qs <==> q in qs[..n] || q == qs[n] by {
        assert qs == qs[..n] + [qs[n]];
      }
      var prev := Run(s, qs[..n]);
      if prev.Fail? then prev
      else
        FitsRetimed(s.events, prev.value.events, qs[n]);
        var r := Step(prev.value, qs[n]);
        if r.Ok? then
          RetimedTransitive(s.events, prev.value.events, r.value.events);
          r
        else r
  }

  /** ProlongSustainedNotes applied to a model: the notes' new End and
      RealTimeLength written back, or the exception a pitch above 127
      raises. */
  function Prolonged(m: Model): (r: Result<Model>)
    ensures r.Ok? ==> MetaEvents(r.value) == MetaEvents(m) && Retimed(ControlEvents(m), ControlEvents(r.value))
    ensures r.Fail? <==> exists q :: q in Queue(ControlEvents(m)) && OutOfRange(ControlEvents(m), q)
    ensures r.Fail? ==> r.failure == IndexOutOfRange
  {
    var es := ControlEvents(m);
    QueueFits(es);
    match Run(Initial(es), Queue(es))
    case Fail(f) => Fail(f)
    case Ok(s) => Ok(ReplaceEvents(m, s.events))
  }

  /** Sustainer: the merged stream, the slots and flags, and the notes it
      rewrites. */
  class Sustainer {
    var events: seq<ControlEvent>
    var queue: seq<SustainEvent>
    var slots: seq<seq<Option<Slot>>>
    var sustained: seq<bool>

    function Current(): State
      reads this
    {
      State(events, slots, sustained)
    }

    /** Builds the stream: the pedal changes, then an onset and an end per
        sounding note, stably sorted by time; no note tracked, no pedal
        down. */
    constructor(m: Model)
      ensures events == ControlEvents(m) && queue == Queue(events) && Current() == Initial(events)
    {
      var es := ControlEvents(m);
      var list: seq<SustainEvent> := [];
      for i := 0 to |es|
        invariant list == PedalEvents(es[..i])
      {
        StreamStep(es, i);
        if IsPedal(es[i]) {
          list := list + [ChangeEvent(es[i].time, i)];
        }
      }
      assert es[..|es|] == es;
      ghost var pedals := list;
      for i := 0 to |es|
        invariant list == pedals + NoteEvents(es[..i])
      {
        StreamStep(es, i);
        if Sounding(es[i]) {
          list := list + [OnEvent(es[i].time, i)];
          list := list + [OffEvent(es[i].end, i)];
        }
      }
      assert list == Unsorted(es);
      var order := OrderBy(EventTimes(list));
      StableOrderUnique(EventTimes(list), order, StableSort(EventTimes(list)));
      var sorted := seq(|list|, k requires 0 <= k < |list| => list[order[k]]);
      assert sorted == ByTime(list);
      events := es;
      queue := sorted;
      slots := seq(NumberOfChannels, _ => seq(PitchCount, _ => None));
      sustained := seq(NumberOfChannels, _ => false);
    }

    /** ProcessEvent(OnEvent); `ok` is false where the source throws. */
    method ProcessOn(t: real, n: nat) returns (ok: bool)
      requires Valid(Current()) && n < |events| && events[n].NoteOn?
      modifies this
      ensures queue == old(queue)
      ensures ok == OnStep(old(Current()), t, n).Ok?
      ensures ok ==> Current() == OnStep(old(Current()), t, n).value
    {
      var c, p := events[n].channel, events[n].note;
      if p >= PitchCount {
        return false;
      }
      if slots[c][p].Some? {
        var previous := slots[c][p].value.note;
        events := events[previous := Ended(events[previous], t)];
      }
      slots := slots[c := slots[c][p := Some(Slot(n, false))]];
      ok := true;
    }

    /** ProcessEvent(OffEvent); `ok` is false where the source throws. */
    method ProcessOff(n: nat) returns (ok: bool)
      requires Valid(Current()) && n < |events| && events[n].NoteOn?
      modifies this
      ensures queue == old(queue)
      ensures ok == OffStep(old(Current()), n).Ok?
      ensures ok ==> Current() == OffStep(old(Current()), n).value
    {
      var c, p := events[n].channel, events[n].note;
      if p >= PitchCount {
        return false;
      }
      if sustained[c] {
        slots := slots[c := slots[c][p := Some(Slot(n, true))]];
      } else {
        slots := slots[c := slots[c][p := None]];
      }
      ok := true;
    }

    /** ProcessEvent(ChangeEvent). */
    method ProcessChange(t: real, i: nat)
      requires Valid(Current()) && i < |events| && events[i].Controller?
      modifies this
      ensures queue == old(queue)
      ensures Current() == ChangeStep(old(Current()), t, i)
    {
      var c := events[i].channel;
      var isOn := events[i].value >= PedalDown;
      if !isOn {
        for p := 0 to PitchCount
          invariant Current() == Release(old(Current()), c, t, p)
          invariant queue == old(queue)
        {
          if slots[c][p].Some? && slots[c][p].value.released {
            var n := slots[c][p].value.note;
            events := events[n := Ended(events[n], t)];
            slots := slots[c := slots[c][p := None]];
          }
        }
      }
      sustained := sustained[c := isOn];
    }

    /** ProlongSustainedNotes: the stream processed in order; `ok` is false
        where the source throws. */
    method ProlongSustainedNotes() returns (ok: bool)
      requires Valid(Current()) && forall q :: q in queue ==> Fits(events, q)
      modifies this
      ensures ok == Run(old(Current()), old(queue)).Ok?
      ensures ok ==> Current() == Run(old(Current()), old(queue)).value
    {
      ghost var start := Current();
      var k := 0;
      while k < |queue|
        invariant k <= |queue| && queue == old(queue)
        invariant Run(start, queue[..k]).Ok? && Current() == Run(start, queue[..k]).value
      {
        RunStep(start, queue, k);
        var q := queue[k];
        var stepOk := true;
        match q {
          case OnEvent(t, n) =>
            stepOk := ProcessOn(t, n);
          case OffEvent(_, n) =>
            stepOk := ProcessOff(n);
          case ChangeEvent(t, i) =>
            ProcessChange(t, i);
        }
        if !stepOk {
          assert Run(start, queue[..k + 1]).Fail?;
          assert queue[..|queue|] == queue;
          RunFailsOnPrefix(start, queue, k + 1);
          return false;
        }
        k := k + 1;
      }
      assert queue[..|queue|] == queue;
      ok := true;
    }
  }

  /** After a prefix that ran cleanly, one more entry is one more Step. */
  lemma RunStep(s: State, qs: seq<SustainEvent>, k: nat)
    requires Valid(s) && (forall q :: q in qs ==> Fits(s.events, q)) && k < |qs|
    requires Run(s, qs[..k]).Ok?
    ensures Fits(Run(s, qs[..k]).value.events, qs[k])
    ensures Run(s, qs[..k + 1]) == Step(Run(s, qs[..k]).value, qs[k])
  {
    assert qs[..k + 1][..k] == qs[..k];
    FitsRetimed(s.events, Run(s, qs[..k]).value.events, qs[k]);
  }

  /** A run that fails on a prefix fails on the whole stream. */
  lemma RunFailsOnPrefix(s: State, qs: seq<SustainEvent>, k: nat)
    requires Valid(s) && (forall q :: q in qs ==> Fits(s.events, q)) && k <= |qs|
    requires Run(s, qs[..k]).Fail?
    ensures Run(s, qs).Fail?
  {
    var q :| q in qs[..k] && OutOfRange(s.events, q);
    assert q in qs;
  }

  /** The sustain stage on a model: build the stream, process it, and write
      the notes back. */
  method Sustain(m: Model) returns (r: Result<Model>)
    ensures r == Prolonged(m)
  {
    var sustainer := new Sustainer(m);
    QueueFits(ControlEvents(m));
    var ok := sustainer.ProlongSustainedNotes();
    if !ok {
      return Fail(IndexOutOfRange);
    }
    r := Ok(ReplaceEvents(m, sustainer.events));
  }
}
