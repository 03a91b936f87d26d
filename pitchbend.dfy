/** PitchBendCalculator.cs: pitch-bend ranges from RPN 0,0 (pitch-bend
    sensitivity) controller sequences, bends attached to the notes they
    sound in, and bent notes split into fragments of constant pitch. */
module PitchBendCalculator {
  import opened Wrappers
  import opened Events
  import opened Tracks
  import opened Latest
  import opened Ordering
  import MathExt

  /** The range, in semitones, of a bend with no sensitivity change before it. */
  const DefaultRange := 4

  /** PitchBendChange: from this time on, bends on the channel span `range`. */
  datatype RangeChange = RangeChange(time: real, range: byte)

  /** Where the scan stands in the sequence CC101=0, CC100=0, CC6. */
  datatype State = Idle | After101 | After100

  predicate IsRight101(e: ControlEvent)
  {
    e.Controller? && e.number == 101 && e.value == 0
  }

  predicate IsRight100(e: ControlEvent)
  {
    e.Controller? && e.number == 100 && e.value == 0
  }

  predicate IsRightPitchChange(e: ControlEvent)
  {
    e.Controller? && e.number == 6
  }

  /** One step of the RPN automaton, described by the kind of event: any
      non-controller resets it, an RPN MSB of 0 always arms it, an RPN LSB
      of 0 completes an armed selection, a data entry ends a completed one,
      and any other controller leaves the state alone. */
  function Next(s: State, e: ControlEvent): (r: State)
    ensures !e.Controller? ==> r == Idle
    ensures IsRight101(e) ==> r == After101
    ensures IsRight100(e) ==> r == (if s == Idle then Idle else After100)
    ensures IsRightPitchChange(e) ==> r == (if s == After101 then After101 else Idle)
    ensures e.Controller? && !IsRight101(e) && !IsRight100(e) && !IsRightPitchChange(e) ==> r == s
  {
    if !e.Controller? then Idle
    else
      match s
      case Idle => if IsRight101(e) then After101 else Idle
      // a repeated RPN MSB keeps the state at After101
      case After101 => if IsRight100(e) then After100 else After101
      case After100 =>
        if IsRightPitchChange(e) then Idle
        else if IsRight100(e) then After100
        else if IsRight101(e) then After101
        else After100
  }

  /** The data entry that sets the range: CC6 right after a completed
      selection. */
  predicate Emits(s: State, e: ControlEvent)
  {
    s == After100 && IsRightPitchChange(e)
  }

  datatype Scan = Scan(state: State, changes: seq<RangeChange>)

  /** The automaton run over a channel's events, in order. */
  function Run(es: seq<ControlEvent>): Scan
  {
    if es == [] then Scan(Idle, [])
    else
      var p := Run(es[..|es| - 1]);
      var e := es[|es| - 1];
      Scan(Next(p.state, e), p.changes + if Emits(p.state, e) then [RangeChange(e.time, e.value)] else [])
  }

  /** CollectChangesFromChannel */
  method CollectChangesFromChannel(c: Channel) returns (changes: seq<RangeChange>)
    ensures changes == Run(c.events).changes
  {
    var es := c.events;
    changes := [];
    var state := Idle;
    for i := 0 to |es|
      invariant Run(es[..i]) == Scan(state, changes)
    {
      assert es[..i + 1][..i] == es[..i];
      var e := es[i];
      if !e.Controller? {
        state := Idle;
      } else {
        match state
        case Idle =>
          if IsRight101(e) {
            state := After101;
          }
        case After101 =>
          if IsRight100(e) {
            state := After100;
          } else if IsRight101(e) {
            state := After101;
          }
        case After100 =>
          if IsRightPitchChange(e) {
            changes := changes + [RangeChange(e.time, e.value)];
            state := Idle;
          } else if IsRight100(e) {
            state := After100;
          } else if IsRight101(e) {
            state := After101;
          }
      }
    }
    assert es[..|es|] == es;
  }

  /** Only controllers from index i up to, not including, index k. */
  predicate ControllersFrom(es: seq<ControlEvent>, i: int, k: int)
    requires 0 <= i && k <= |es|
  {
    forall l :: i <= l < k ==> es[l].Controller?
  }

  /** A CC101=0 at i, then CC100=0 at j, then CC6 at k, with nothing but
      controllers from i to k, announcing range `c`. */
  predicate AnnouncedAt(es: seq<ControlEvent>, c: RangeChange, i: int, j: int, k: int)
  {
    0 <= i < j < k < |es| && IsRight101(es[i]) && IsRight100(es[j]) && IsRightPitchChange(es[k]) &&
    ControllersFrom(es, i, k + 1) && c == RangeChange(es[k].time, es[k].value)
  }

  ghost predicate Announced(es: seq<ControlEvent>, c: RangeChange)
  {
    exists i, j, k :: AnnouncedAt(es, c, i, j, k)
  }

  /** A CC101=0 at i followed only by controllers. */
  predicate Armed101At(es: seq<ControlEvent>, i: int)
  {
    0 <= i < |es| && IsRight101(es[i]) && ControllersFrom(es, i, |es|)
  }

  /** The selection armed so far. */
  ghost predicate Armed101(es: seq<ControlEvent>)
  {
    exists i :: Armed101At(es, i)
  }

  /** CC101=0 at i, later CC100=0 at j, only controllers since i. */
  predicate Armed100At(es: seq<ControlEvent>, i: int, j: int)
  {
    0 <= i < j < |es| && IsRight101(es[i]) && IsRight100(es[j]) && ControllersFrom(es, i, |es|)
  }

  /** A completed selection. */
  ghost predicate Armed100(es: seq<ControlEvent>)
  {
    exists i, j :: Armed100At(es, i, j)
  }

  /** Every range change the automaton emits is announced by a full RPN 0,0
      sequence, and the states mean what their names say. */
  lemma {:induction false} RunSound(es: seq<ControlEvent>)
    ensures Run(es).state == After101 ==> Armed101(es)
    ensures Run(es).state == After100 ==> Armed100(es)
    ensures forall c :: c in Run(es).changes ==> Announced(es, c)
  {
    if es != [] {
      var n := |es| - 1;
      var p := es[..n];
      var e := es[n];
      assert es == p + [e];
      RunSound(p);
      var s := Run(p).state;
      forall c | c in Run(p).changes
        ensures Announced(es, c)
      {
        AnnouncedExtends(p, e, c);
      }
      if Emits(s, e) {
        Completed(p, e);
      }
      if e.Controller? {
        if IsRight101(e) {
          assert Armed101At(es, n);
        } else if s == After101 && !IsRight100(e) {
          Armed101Extends(p, e);
        } else if s == After101 {
          Armed100From101(p, e);
        } else if s == After100 && !IsRightPitchChange(e) {
          Armed100Extends(p, e);
        }
      }
    }
  }

  /** Appending an event keeps the events before it and the controllers
      among them. */
  lemma ControllersExtend(p: seq<ControlEvent>, e: ControlEvent, i: int, k: int)
    requires 0 <= i && k <= |p| && ControllersFrom(p, i, k)
    ensures ControllersFrom(p + [e], i, k) && (k == |p| && e.Controller? ==> ControllersFrom(p + [e], i, k + 1))
  {
    assert forall l :: 0 <= l < |p| ==> (p + [e])[l] == p[l];
  }

  lemma AnnouncedExtends(p: seq<ControlEvent>, e: ControlEvent, c: RangeChange)
    requires Announced(p, c)
    ensures Announced(p + [e], c)
  {
    var i, j, k :| AnnouncedAt(p, c, i, j, k);
    ControllersExtend(p, e, i, k + 1);
    assert AnnouncedAt(p + [e], c, i, j, k);
  }

  lemma Completed(p: seq<ControlEvent>, e: ControlEvent)
    requires Armed100(p) && IsRightPitchChange(e)
    ensures Announced(p + [e], RangeChange(e.time, e.value))
  {
    var i, j :| Armed100At(p, i, j);
    ControllersExtend(p, e, i, |p|);
    assert AnnouncedAt(p + [e], RangeChange(e.time, e.value), i, j, |p|);
  }

  lemma Armed101Extends(p: seq<ControlEvent>, e: ControlEvent)
    requires Armed101(p) && e.Controller?
    ensures Armed101(p + [e])
  {
    var i :| Armed101At(p, i);
    ControllersExtend(p, e, i, |p|);
    assert Armed101At(p + [e], i);
  }

  lemma Armed100From101(p: seq<ControlEvent>, e: ControlEvent)
    requires Armed101(p) && IsRight100(e)
    ensures Armed100(p + [e])
  {
    var i :| Armed101At(p, i);
    ControllersExtend(p, e, i, |p|);
    assert Armed100At(p + [e], i, |p|);
  }

  lemma Armed100Extends(p: seq<ControlEvent>, e: ControlEvent)
    requires Armed100(p) && e.Controller?
    ensures Armed100(p + [e])
  {
    var i, j :| Armed100At(p, i, j);
    ControllersExtend(p, e, i, |p|);
    assert Armed100At(p + [e], i, j);
  }

  /** Whatever came before, CC101=0, CC100=0, CC6 in a row emit exactly one
      change, with the data entry's time and value, and leave the automaton
      idle. */
  lemma RunCompletes(es: seq<ControlEvent>, a: ControlEvent, b: ControlEvent, c: ControlEvent)
    requires IsRight101(a) && IsRight100(b) && IsRightPitchChange(c)
    ensures Run(es + [a, b, c]).changes == Run(es).changes + [RangeChange(c.time, c.value)]
    ensures Run(es + [a, b, c]).state == Idle
  {
    assert (es + [a, b, c])[..|es| + 2] == es + [a, b];
    assert (es + [a, b])[..|es| + 1] == es + [a];
    assert (es + [a])[..|es|] == es;
    assert Run(es + [a]) == Scan(After101, Run(es).changes);
    assert Run(es + [a, b]) == Scan(After100, Run(es).changes);
  }

  /** The range changes found on channel number ch, over the channels in
      order. */
  function ChangesOn(cs: seq<Channel>, ch: ChannelNumber): seq<RangeChange>
  {
    if cs == [] then []
    else
      var n := |cs| - 1;
      ChangesOn(cs[..n], ch) + if cs[n].number == ch then Run(cs[n].events).changes else []
  }

  /** The per-channel lists DeterminePitchRanges builds. */
  function RangeChanges(m: Model): seq<seq<RangeChange>>
  {
    seq(NumberOfChannels, ch requires 0 <= ch < NumberOfChannels => ChangesOn(AllChannels(m.tracks), ch))
  }

  method CollectChanges(m: Model) returns (changes: seq<seq<RangeChange>>)
    ensures changes == RangeChanges(m)
  {
    var cs := AllChannels(m.tracks);
    changes := seq(NumberOfChannels, _ => []);
    for i := 0 to |cs|
      invariant |changes| == NumberOfChannels
      invariant forall ch: ChannelNumber :: changes[ch] == ChangesOn(cs[..i], ch)
    {
      assert cs[..i + 1][..i] == cs[..i];
      var found := CollectChangesFromChannel(cs[i]);
      var ch := cs[i].number;
      changes := changes[ch := changes[ch] + found];
    }
    assert cs[..|cs|] == cs;
  }

  function ChangeTimes(cs: seq<RangeChange>): (r: seq<real>)
    ensures |r| == |cs| && forall i :: 0 <= i < |cs| ==> r[i] == cs[i].time
  {
    seq(|cs|, i requires 0 <= i < |cs| => cs[i].time)
  }

  function Ranges(cs: seq<RangeChange>): (r: seq<nat>)
    ensures |r| == |cs| && forall i :: 0 <= i < |cs| ==> r[i] == cs[i].range as nat
  {
    seq(|cs|, i requires 0 <= i < |cs| => cs[i].range as nat)
  }

  /** The range in force at time t: that of the latest change at or before
      t, the first of equal times, or 4 when there is none. */
  function RangeAt(changes: seq<RangeChange>, t: real): (r: nat)
    ensures (forall c :: c in changes ==> c.time > t) ==> r == DefaultRange
    ensures (exists c :: c in changes && c.time <= t) ==>
      exists k :: 0 <= k < |changes| && changes[k].time <= t && r == changes[k].range as nat &&
        (forall j :: 0 <= j < |changes| && changes[j].time <= t ==> changes[j].time <= changes[k].time) &&
        (forall j :: 0 <= j < k && changes[j].time <= t ==> changes[j].time < changes[k].time)
    ensures r < 256
  {
    var times := ChangeTimes(changes);
    assert (forall c :: c in changes ==> c.time > t) <==> (forall j :: 0 <= j < |times| ==> times[j] > t) by {
      assert forall j :: 0 <= j < |changes| ==> changes[j] in changes;
    }
    ValueAtOrBefore(times, Ranges(changes), t, DefaultRange)
  }

  /** A note's Bends list holds the very PitchBend objects of its channel, so
      when DeterminePitchRanges sets the range of a bend, every note holding
      that bend sees it: each bend takes the range in force at its time. */
  function RangedBends(changes: seq<RangeChange>, bs: seq<Bend>): (r: seq<Bend>)
    ensures |r| == |bs|
    ensures forall k :: 0 <= k < |bs| ==> r[k] == bs[k].(range := RangeAt(changes, bs[k].time))
  {
    seq(|bs|, k requires 0 <= k < |bs| => bs[k].(range := RangeAt(changes, bs[k].time)))
  }

  /** A control event after DeterminePitchRanges: a bend takes the range in
      force on its channel at its time, and so do the bends a note holds;
      other events are unchanged. */
  function Ranged(changes: seq<seq<RangeChange>>, e: ControlEvent): (r: ControlEvent)
    requires |changes| == NumberOfChannels
    ensures !e.PitchBend? && !e.NoteOn? ==> r == e
    ensures e.PitchBend? ==> r.PitchBend? && r == e.(range := r.range) && r.range == RangeAt(changes[e.channel], e.time)
    ensures e.NoteOn? ==> r.NoteOn? && r == e.(bends := r.bends) && |r.bends| == |e.bends|
    ensures e.NoteOn? ==> forall k :: 0 <= k < |e.bends| ==>
      r.bends[k] == e.bends[k].(range := RangeAt(changes[e.channel], e.bends[k].time))
  {
    if e.PitchBend? then e.(range := RangeAt(changes[e.channel], e.time))
    else if e.NoteOn? then e.(bends := RangedBends(changes[e.channel], e.bends))
    else e
  }

  /** DeterminePitchRanges */
  method DeterminePitchRanges(m: Model) returns (r: Model)
    requires WellFormed(m)
    ensures WellFormed(r) && r == m.(tracks := r.tracks)
    ensures MetaEvents(r) == MetaEvents(m) && |ControlEvents(r)| == |ControlEvents(m)|
    ensures forall i :: 0 <= i < |ControlEvents(m)| ==>
      ControlEvents(r)[i] == Ranged(RangeChanges(m), ControlEvents(m)[i])
  {
    var changes := CollectChanges(m);
    var es := ControlEvents(m);
    var out := es;
    for i := 0 to |es|
      invariant |out| == |es|
      invariant forall k :: 0 <= k < i ==> out[k] == Ranged(changes, es[k])
      invariant forall k :: i <= k < |es| ==> out[k] == es[k]
    {
      var e := es[i];
      if e.PitchBend? {
        out := out[i := e.(range := RangeAt(changes[e.channel], e.time))];
      } else if e.NoteOn? {
        // the write through the bend objects the note shares
        out := out[i := e.(bends := RangedBends(changes[e.channel], e.bends))];
      }
    }
    r := ReplaceEvents(m, out);
  }

  /** Every event of a sequence after DeterminePitchRanges. */
  function RangedAll(changes: seq<seq<RangeChange>>, es: seq<ControlEvent>): (r: seq<ControlEvent>)
    requires |changes| == NumberOfChannels
    ensures |r| == |es| && forall k :: 0 <= k < |es| ==> r[k] == Ranged(changes, es[k])
  {
    seq(|es|, k requires 0 <= k < |es| => Ranged(changes, es[k]))
  }

  /** Joining bends to notes and then fixing the ranges, as the parser does,
      leaves each note with the same bends as joining bends whose ranges were
      already fixed: the range a note's bend ends up with is the range of the
      PitchBend event it was taken from. */
  lemma RangeAfterJoin(changes: seq<seq<RangeChange>>, es: seq<ControlEvent>, i: nat)
    requires |changes| == NumberOfChannels && i < |es|
    requires forall k :: 0 <= k < |es| ==> es[k].channel == es[i].channel
    ensures Ranged(changes, Joined(es, i)) == Joined(RangedAll(changes, es), i)
  {
    var ra := RangedAll(changes, es);
    if es[i].NoteOn? {
      var cs := changes[es[i].channel];
      CoveringRanged(changes, es, es[i], ra[i], es[i].channel);
      RangedBendsAppend(cs, es[i].bends, CoveringBends(es, es[i]));
    }
  }

  lemma RangedBendsAppend(changes: seq<RangeChange>, a: seq<Bend>, b: seq<Bend>)
    ensures RangedBends(changes, a + b) == RangedBends(changes, a) + RangedBends(changes, b)
  {
  }

  /** The covering bends of the ranged events are the ranged covering bends. */
  lemma {:induction false} CoveringRanged(changes: seq<seq<RangeChange>>, es: seq<ControlEvent>,
                                          note: ControlEvent, note': ControlEvent, ch: ChannelNumber)
    requires |changes| == NumberOfChannels
    requires note.NoteOn? && note'.NoteOn? && note.time == note'.time && note.realLength == note'.realLength
    requires forall k :: 0 <= k < |es| ==> es[k].channel == ch
    ensures CoveringBends(RangedAll(changes, es), note') == RangedBends(changes[ch], CoveringBends(es, note))
  {
    if es != [] {
      var n := |es| - 1;
      var ra := RangedAll(changes, es);
      CoveringRanged(changes, es[..n], note, note', ch);
      assert ra[..n] == RangedAll(changes, es[..n]);
      var tail := if es[n].PitchBend? && Covers(note, es[n].time) then [BendOf(es[n])] else [];
      var tail' := if ra[n].PitchBend? && Covers(note', ra[n].time) then [BendOf(ra[n])] else [];
      assert CoveringBends(es, note) == CoveringBends(es[..n], note) + tail;
      assert CoveringBends(ra, note') == CoveringBends(ra[..n], note') + tail';
      TailRanged(changes, es[n], note, note', ch, tail, tail');
      RangedBendsAppend(changes[ch], CoveringBends(es[..n], note), tail);
    }
  }

  lemma TailRanged(changes: seq<seq<RangeChange>>, e: ControlEvent, note: ControlEvent, note': ControlEvent,
                   ch: ChannelNumber, tail: seq<Bend>, tail': seq<Bend>)
    requires |changes| == NumberOfChannels && e.channel == ch
    requires note.NoteOn? && note'.NoteOn? && note.time == note'.time && note.realLength == note'.realLength
    requires tail == if e.PitchBend? && Covers(note, e.time) then [BendOf(e)] else []
    requires tail' == (var r := Ranged(changes, e); if r.PitchBend? && Covers(note', r.time) then [BendOf(r)] else [])
    ensures tail' == RangedBends(changes[ch], tail)
  {
  }

  /** A pitch-bend event as it is stored in a note's Bends list. */
  function BendOf(e: ControlEvent): (b: Bend)
    requires e.PitchBend?
    ensures b.tick == e.tick && b.time == e.time && b.pitchValue == e.pitchValue && b.range == e.range
  {
    Bend(e.tick, e.time, e.pitchValue, e.range)
  }

  /** The note sounds at time t: start <= t <= start + RealTimeLength. */
  predicate Covers(note: ControlEvent, t: real)
    requires note.NoteOn?
  {
    note.time <= t <= note.time + note.realLength
  }

  /** The bends among es that fall within the note, in event order. */
  function CoveringBends(es: seq<ControlEvent>, note: ControlEvent): (r: seq<Bend>)
    requires note.NoteOn?
    ensures |r| <= |es|
    ensures forall b :: b in r ==> exists e :: e in es && e.PitchBend? && Covers(note, e.time) && b == BendOf(e)
    ensures forall e :: e in es && e.PitchBend? && Covers(note, e.time) ==> BendOf(e) in r
  {
    if es == [] then []
    else
      var n := |es| - 1;
      var e := es[n];
      var r := CoveringBends(es[..n], note) + if e.PitchBend? && Covers(note, e.time) then [BendOf(e)] else [];
      assert forall x :: x in es ==> x in es[..n] || x == e by {
        assert es == es[..n] + [e];
      }
      r
  }

  /** A channel event after JoinPitchBendsInChannel: a note gets the covering
      bends of its channel appended to its Bends; other events are unchanged. */
  function Joined(es: seq<ControlEvent>, i: nat): (r: ControlEvent)
    requires i < |es|
    ensures !es[i].NoteOn? ==> r == es[i]
    ensures es[i].NoteOn? ==> r.NoteOn? && r == es[i].(bends := r.bends)
    ensures es[i].NoteOn? ==> r.bends == es[i].bends + CoveringBends(es, es[i])
  {
    assert es[..|es|] == es;
    JoinedUpTo(es, |es|, i)
  }

  /** One more event considered: a note gains the bend if it is one that
      the note covers. */
  lemma JoinedStep(es: seq<ControlEvent>, i: nat, k: nat)
    requires i < |es| && k < |es|
    ensures !es[k].NoteOn? ==> JoinedUpTo(es, i + 1, k) == JoinedUpTo(es, i, k) == es[k]
    ensures es[k].NoteOn? ==> (JoinedUpTo(es, i + 1, k) ==
      es[k].(bends := es[k].bends + CoveringBends(es[..i], es[k]) +
        if es[i].PitchBend? && Covers(es[k], es[i].time) then [BendOf(es[i])] else []))
  {
    assert es[..i + 1][..i] == es[..i];
    if es[k].NoteOn? {
      assert CoveringBends(es[..i + 1], es[k]) == CoveringBends(es[..i], es[k]) +
        if es[i].PitchBend? && Covers(es[k], es[i].time) then [BendOf(es[i])] else [];
    }
  }

  /** Joined, counting only the bends among the first `upTo` events. */
  function JoinedUpTo(es: seq<ControlEvent>, upTo: nat, i: nat): ControlEvent
    requires upTo <= |es| && i < |es|
  {
    var e := es[i];
    if e.NoteOn? then e.(bends := e.bends + CoveringBends(es[..upTo], e)) else e
  }

  /** JoinPitchBendsInChannel: for each bend in order, every note of the
      channel that covers it gets it appended. */
  method JoinPitchBendsInChannel(es: seq<ControlEvent>) returns (out: seq<ControlEvent>)
    ensures |out| == |es| && forall i :: 0 <= i < |es| ==> out[i] == Joined(es, i)
  {
    out := es;
    for i := 0 to |es|
      invariant |out| == |es|
      invariant forall k :: 0 <= k < |es| ==> out[k] == JoinedUpTo(es, i, k)
    {
      if !es[i].PitchBend? {
        forall k | 0 <= k < |es|
          ensures out[k] == JoinedUpTo(es, i + 1, k)
        {
          JoinedStep(es, i, k);
        }
      } else {
        out := AttachBend(es, i, out);
      }
    }
    assert es[..|es|] == es;
  }

  /** The inner loop: the bend at position i is appended to every note that
      covers it. */
  method AttachBend(es: seq<ControlEvent>, i: nat, notes: seq<ControlEvent>) returns (out: seq<ControlEvent>)
    requires i < |es| && es[i].PitchBend? && |notes| == |es|
    requires forall k :: 0 <= k < |es| ==> notes[k] == JoinedUpTo(es, i, k)
    ensures |out| == |es| && forall k :: 0 <= k < |es| ==> out[k] == JoinedUpTo(es, i + 1, k)
  {
    var bend := BendOf(es[i]);
    out := notes;
    for j := 0 to |out|
      invariant |out| == |es|
      invariant forall k :: 0 <= k < j ==> out[k] == JoinedUpTo(es, i + 1, k)
      invariant forall k :: j <= k < |es| ==> out[k] == JoinedUpTo(es, i, k)
    {
      JoinedStep(es, i, j);
      var note := out[j];
      if note.NoteOn? && Covers(note, bend.time) {
        note := note.(bends := note.bends + [bend]);
      }
      assert note == JoinedUpTo(es, i + 1, j);
      out := out[j := note];
    }
  }

  function JoinedChannel(c: Channel): (r: Channel)
    ensures r.number == c.number && |r.events| == |c.events|
    ensures forall i :: 0 <= i < |c.events| ==> r.events[i] == Joined(c.events, i)
  {
    c.(events := seq(|c.events|, i requires 0 <= i < |c.events| => Joined(c.events, i)))
  }

  /** JoinPitchBends: every channel of every track on its own; meta events
      and everything outside the channels are untouched. */
  method JoinPitchBends(m: Model) returns (r: Model)
    requires WellFormed(m)
    ensures WellFormed(r) && r == m.(tracks := r.tracks) && |r.tracks| == |m.tracks|
    ensures forall t :: 0 <= t < |m.tracks| ==>
      r.tracks[t].meta == m.tracks[t].meta && |r.tracks[t].channels| == |m.tracks[t].channels|
    ensures forall t, c :: 0 <= t < |m.tracks| && 0 <= c < |m.tracks[t].channels| ==>
      r.tracks[t].channels[c] == JoinedChannel(m.tracks[t].channels[c])
  {
    var tracks: seq<Track> := [];
    for t := 0 to |m.tracks|
      invariant |tracks| == t
      invariant forall k :: 0 <= k < t ==> tracks[k].meta == m.tracks[k].meta
      invariant forall k :: 0 <= k < t ==> |tracks[k].channels| == |m.tracks[k].channels|
      invariant forall k, c :: 0 <= k < t && 0 <= c < |m.tracks[k].channels| ==>
        tracks[k].channels[c] == JoinedChannel(m.tracks[k].channels[c])
    {
      var source := m.tracks[t];
      var channels: seq<Channel> := [];
      for c := 0 to |source.channels|
        invariant |channels| == c
        invariant forall k :: 0 <= k < c ==> channels[k] == JoinedChannel(source.channels[k])
      {
        var events := JoinPitchBendsInChannel(source.channels[c].events);
        channels := channels + [source.channels[c].(events := events)];
      }
      tracks := tracks + [source.(channels := channels)];
    }
    r := m.(tracks := tracks);
    forall tr | tr in r.tracks
      ensures WellFormedTrack(tr)
    {
      var k :| 0 <= k < |tracks| && tracks[k] == tr;
      assert m.tracks[k] in m.tracks;
    }
  }

  function BendTimes(bs: seq<Bend>): (r: seq<real>)
    ensures |r| == |bs| && forall i :: 0 <= i < |bs| ==> r[i] == bs[i].time
  {
    seq(|bs|, i requires 0 <= i < |bs| => bs[i].time)
  }

  /** note.Bends.OrderBy(b => b.AbsoluteRealTime): the same bends, by time,
      equal times in list order. */
  function SortedBends(bs: seq<Bend>): (r: seq<Bend>)
    ensures |r| == |bs|
    ensures forall a, b :: 0 <= a < b < |r| ==> r[a].time <= r[b].time
    ensures forall b :: b in r <==> b in bs
  {
    var keys := BendTimes(bs);
    var order := StableSort(keys);
    var r := seq(|bs|, k requires 0 <= k < |bs| => bs[order[k]]);
    assert forall a, b :: 0 <= a < b < |r| ==> r[a].time <= r[b].time by {
      forall a, b | 0 <= a < b < |r|
        ensures r[a].time <= r[b].time
      {
        StableOrderMonotone(keys, order, a, b);
      }
    }
    assert forall b :: b in bs ==> b in r by {
      forall b | b in bs
        ensures b in r
      {
        var i :| 0 <= i < |bs| && bs[i] == b;
        assert i in order;
        var k :| 0 <= k < |order| && order[k] == i;
        assert r[k] == b;
      }
    }
    r
  }

  /** (byte)(pitch + bend.RealPitchChange + 0.5): the bent pitch rounded
      half up, truncated toward zero and kept to its low byte. */
  function BendedPitch(pitch: byte, b: Bend): (r: byte)
    ensures var x := pitch as real + RealPitchChange(b.range, b.pitchValue) + 0.5;
      0.0 <= x < 256.0 ==> r as real <= x < r as real + 1.0
    ensures b.pitchValue == 8192 ==> r == pitch
  {
    MathExt.Trunc(pitch as real + RealPitchChange(b.range, b.pitchValue) + 0.5) % 256
  }

  /** A fragment of `note`: same channel, loudness and instrument, no bends. */
  predicate Piece(note: ControlEvent, f: ControlEvent)
    requires note.NoteOn?
  {
    f.NoteOn? && f.bends == [] && f.channel == note.channel && f.volume == note.volume &&
    f.realVolume == note.realVolume && f.instrument == note.instrument
  }

  /** Fragments tiling a note: the first is the note itself with its bends
      dropped and its end moved; each ends where the next starts, at a
      different pitch. */
  predicate Chain(note: ControlEvent, fs: seq<ControlEvent>)
    requires note.NoteOn?
  {
    |fs| > 0 && (forall k :: 0 <= k < |fs| ==> Piece(note, fs[k])) &&
    fs[0] == note.(bends := [], end := fs[0].end, realLength := fs[0].realLength) &&
    forall k :: 0 <= k < |fs| - 1 ==> Joins(fs, k)
  }

  /** Fragment k is closed where fragment k + 1 starts, at another pitch. */
  predicate Joins(fs: seq<ControlEvent>, k: nat)
    requires k + 1 < |fs| && fs[k].NoteOn? && fs[k + 1].NoteOn?
  {
    fs[k].end == fs[k + 1].time && fs[k].realLength == fs[k].end - fs[k].time && fs[k].note != fs[k + 1].note
  }

  /** A fragment other than the first starts at a bend, at the bent pitch. */
  predicate StartsAtBend(note: ControlEvent, f: ControlEvent, bs: seq<Bend>)
    requires note.NoteOn? && f.NoteOn?
  {
    exists b :: b in bs && f.time == b.time && f.tick == b.tick && f.note == BendedPitch(note.note, b)
  }

  /** The fragment a bend starts. */
  function Fragment(note: ControlEvent, b: Bend, pitch: byte): (f: ControlEvent)
    requires note.NoteOn?
    ensures Piece(note, f) && f.time == b.time && f.tick == b.tick && f.note == pitch
  {
    NoteOn(b.tick, b.time, note.channel, pitch, note.volume, note.realVolume, 0, note.instrument, 0.0, 0.0, [])
  }

  /** The current fragment ends at time t. */
  function Cut(f: ControlEvent, t: real): (r: ControlEvent)
    requires f.NoteOn?
    ensures r == f.(end := t, realLength := t - f.time) && r.realLength == r.end - r.time
  {
    f.(end := t, realLength := t - f.time)
  }

  /** Moving the end of the open fragment keeps the tiling. */
  lemma CutKeepsChain(note: ControlEvent, done: seq<ControlEvent>, f: ControlEvent, t: real)
    requires note.NoteOn? && f.NoteOn? && Chain(note, done + [f])
    ensures Chain(note, done + [Cut(f, t)])
  {
    var fs, gs := done + [f], done + [Cut(f, t)];
    assert forall k :: 0 <= k < |done| ==> gs[k] == fs[k];
    assert fs[|done|] == f && Piece(note, fs[|done|]);
    forall k | 0 <= k < |gs| - 1
      ensures Joins(gs, k)
    {
      assert Joins(fs, k);
    }
    assert Piece(note, gs[|done|]);
    if done != [] {
      assert gs[0] == fs[0];
    }
  }

  /** A new fragment starting where the closed last one ends, at another
      pitch, extends the tiling. */
  lemma AppendKeepsChain(note: ControlEvent, fs: seq<ControlEvent>, f: ControlEvent)
    requires note.NoteOn? && Chain(note, fs) && Piece(note, f)
    requires fs[|fs| - 1].end == f.time && fs[|fs| - 1].realLength == fs[|fs| - 1].end - fs[|fs| - 1].time
    requires fs[|fs| - 1].note != f.note
    ensures Chain(note, fs + [f])
  {
    var gs := fs + [f];
    assert forall k :: 0 <= k < |fs| ==> gs[k] == fs[k];
    forall k | 0 <= k < |gs| - 1
      ensures Joins(gs, k)
    {
      if k < |fs| - 1 {
        assert Joins(fs, k);
      }
    }
  }

  datatype Split = Split(done: seq<ControlEvent>, current: ControlEvent)

  /** The fragment loop over the bends bs, in order: the finished fragments
      and the one still open. */
  function SplitAt(note: ControlEvent, bs: seq<Bend>): (r: Split)
    requires note.NoteOn?
    ensures Chain(note, r.done + [r.current]) && |r.done| <= |bs|
    ensures forall k :: 1 <= k < |r.done + [r.current]| ==> StartsAtBend(note, (r.done + [r.current])[k], bs)
  {
    if bs == [] then Split([], note.(bends := []))
    else
      var n := |bs| - 1;
      var s := SplitAt(note, bs[..n]);
      var b := bs[n];
      var cur := Cut(s.current, b.time);
      var pitch := BendedPitch(note.note, b);
      CutKeepsChain(note, s.done, s.current, b.time);
      assert forall k :: 1 <= k < |s.done + [cur]| ==> StartsAtBend(note, (s.done + [cur])[k], bs) by {
        forall k | 1 <= k < |s.done + [cur]|
          ensures StartsAtBend(note, (s.done + [cur])[k], bs)
        {
          var f, g := (s.done + [s.current])[k], (s.done + [cur])[k];
          assert g.time == f.time && g.tick == f.tick && g.note == f.note;
          var x :| x in bs[..n] && f.time == x.time && f.tick == x.tick && f.note == BendedPitch(note.note, x);
          assert x in bs;
        }
      }
      if pitch != cur.note then
        var f := Fragment(note, b, pitch);
        AppendKeepsChain(note, s.done + [cur], f);
        assert StartsAtBend(note, f, bs) by {
          assert b in bs;
        }
        Split(s.done + [cur], f)
      else
        Split(s.done, cur)
  }

  /** The fragments DiscretizeBends makes of a note: the loop over its
      bends by time, then the last fragment ends at the note's own end. */
  function Fragmented(note: ControlEvent): (fs: seq<ControlEvent>)
    requires note.NoteOn?
    ensures 1 <= |fs| <= |note.bends| + 1 && forall k :: 0 <= k < |fs| ==> Piece(note, fs[k])
  {
    var s := SplitAt(note, SortedBends(note.bends));
    assert Piece(note, (s.done + [s.current])[|s.done|]);
    assert forall k :: 0 <= k < |s.done| ==> s.done[k] == (s.done + [s.current])[k];
    s.done + [Cut(s.current, note.end)]
  }

  /** The fragments tile the note: the first is the note itself, each ends
      where the next starts at another pitch, every later one starts at
      one of the note's bends, and the last ends where the note ends. */
  lemma FragmentedTiles(note: ControlEvent)
    requires note.NoteOn?
    ensures Chain(note, Fragmented(note))
    ensures var fs := Fragmented(note);
      fs[|fs| - 1].end == note.end && fs[|fs| - 1].realLength == note.end - fs[|fs| - 1].time
    ensures forall k :: 1 <= k < |Fragmented(note)| ==> StartsAtBend(note, Fragmented(note)[k], note.bends)
  {
    var bs := SortedBends(note.bends);
    var s := SplitAt(note, bs);
    var fs := Fragmented(note);
    assert fs == s.done + [Cut(s.current, note.end)];
    CutKeepsChain(note, s.done, s.current, note.end);
    forall k | 1 <= k < |fs|
      ensures StartsAtBend(note, fs[k], note.bends)
    {
      var f := (s.done + [s.current])[k];
      assert fs[k].time == f.time && fs[k].tick == f.tick && fs[k].note == f.note;
      var x :| x in bs && f.time == x.time && f.tick == x.tick && f.note == BendedPitch(note.note, x);
    }
  }

  /** The body of DiscretizeBends' outer loop for one bent note: the note
      becomes the first fragment, and a new note starts wherever a bend
      changes the rounded pitch. */
  method DiscretizeNote(note: ControlEvent) returns (fragments: seq<ControlEvent>)
    requires note.NoteOn?
    ensures fragments == Fragmented(note)
  {
    var order := OrderBy(BendTimes(note.bends));
    StableOrderUnique(BendTimes(note.bends), order, StableSort(BendTimes(note.bends)));
    var bends := seq(|order|, k requires 0 <= k < |order| => note.bends[order[k]]);
    assert bends == SortedBends(note.bends);
    var done: seq<ControlEvent> := [];
    var current := note.(bends := []);
    for i := 0 to |bends|
      invariant SplitAt(note, bends[..i]) == Split(done, current)
    {
      assert bends[..i + 1][..i] == bends[..i];
      var bend := bends[i];
      current := Cut(current, bend.time);
      var pitch := BendedPitch(note.note, bend);
      if pitch != current.note {
        done := done + [current];
        current := Fragment(note, bend, pitch);
      }
    }
    assert bends[..|bends|] == bends;
    current := Cut(current, note.end);
    fragments := done + [current];
  }

  /** A note DiscretizeBends splits: one with a non-empty Bends list. */
  predicate Bent(e: ControlEvent)
  {
    e.NoteOn? && |e.bends| > 0
  }

  /** What stays in place of an event: a bent note becomes its first
      fragment. */
  function Discretized(e: ControlEvent): (r: ControlEvent)
    ensures !Bent(e) ==> r == e
    ensures r.NoteOn? ==> r.bends == []
  {
    if Bent(e) then Fragmented(e)[0] else e
  }

  /** The fragments a bent note adds after its first. */
  function Added(e: ControlEvent): (r: seq<ControlEvent>)
    ensures forall f :: f in r ==> f.NoteOn? && f.bends == [] && f.channel == e.channel
    ensures !Bent(e) ==> r == []
  {
    if Bent(e) then
      var fs := Fragmented(e);
      assert forall f :: f in fs[1..] ==> Piece(e, f);
      fs[1..]
    else []
  }

  /** What stays in place of each event, in order. */
  function DiscretizedAll(es: seq<ControlEvent>): (r: seq<ControlEvent>)
    ensures |r| == |es|
  {
    if es == [] then [] else DiscretizedAll(es[..|es| - 1]) + [Discretized(es[|es| - 1])]
  }

  /** Each event is replaced by what stays in its place. */
  lemma {:induction false} DiscretizedAllAt(es: seq<ControlEvent>)
    ensures forall i :: 0 <= i < |es| ==> DiscretizedAll(es)[i] == Discretized(es[i])
  {
    if es != [] {
      DiscretizedAllAt(es[..|es| - 1]);
    }
  }

  /** The new fragments added to channel ch, in the order the bent notes
      come. */
  function AddedOn(es: seq<ControlEvent>, ch: ChannelNumber): (r: seq<ControlEvent>)
    ensures forall f :: f in r ==> f.NoteOn? && f.bends == [] && f.channel == ch
  {
    if es == [] then []
    else
      var n := |es| - 1;
      AddedOn(es[..n], ch) + if es[n].channel == ch then Added(es[n]) else []
  }

  /** One more event adds its fragments to its own channel and no other. */
  lemma AddedOnStep(es: seq<ControlEvent>, i: nat)
    requires i < |es|
    ensures forall ch: ChannelNumber ::
      AddedOn(es[..i + 1], ch) == AddedOn(es[..i], ch) + if es[i].channel == ch then Added(es[i]) else []
  {
    assert es[..i + 1][..i] == es[..i];
  }

  /** Appends extra[c] to channel c of the first track. */
  function AppendToFirstTrack(m: Model, extra: seq<seq<ControlEvent>>): (r: Model)
    requires WellFormed(m) && |m.tracks| > 0 && |extra| == NumberOfChannels
    ensures WellFormed(r) && r == m.(tracks := r.tracks) && |r.tracks| == |m.tracks|
    ensures forall t :: 0 < t < |m.tracks| ==> r.tracks[t] == m.tracks[t]
    ensures WellFormedTrack(m.tracks[0])
    ensures r.tracks[0].meta == m.tracks[0].meta && |r.tracks[0].channels| == NumberOfChannels
    ensures forall c :: 0 <= c < NumberOfChannels ==>
      r.tracks[0].channels[c].events == m.tracks[0].channels[c].events + extra[c]
  {
    var t := m.tracks[0];
    assert WellFormedTrack(t) by {
      assert t in m.tracks;
    }
    var cs := seq(NumberOfChannels, c requires 0 <= c < NumberOfChannels =>
      t.channels[c].(events := t.channels[c].events + extra[c]));
    var r := m.(tracks := m.tracks[0 := t.(channels := cs)]);
    assert forall tr :: tr in r.tracks ==> tr == r.tracks[0] || tr in m.tracks;
    r
  }

  /** The model once every bent note is split, before the bends are
      removed: first fragments in place, the others appended to the
      channels of the first track. */
  function FragmentedModel(m: Model): (r: Model)
    requires WellFormed(m)
    ensures WellFormed(r) && r == m.(tracks := r.tracks) && |r.tracks| == |m.tracks|
    ensures forall t :: 0 <= t < |m.tracks| ==>
      r.tracks[t].meta == m.tracks[t].meta && |r.tracks[t].channels| == |m.tracks[t].channels|
  {
    var es := ControlEvents(m);
    var m1 := ReplaceEvents(m, DiscretizedAll(es));
    if |m.tracks| == 0 then m1
    else AppendToFirstTrack(m1, seq(NumberOfChannels, ch requires 0 <= ch < NumberOfChannels => AddedOn(es, ch)))
  }

  /** No note of the split model keeps a bend list. */
  lemma FragmentedUnbent(m: Model, t: nat, c: nat, e: ControlEvent)
    requires WellFormed(m)
    requires t < |FragmentedModel(m).tracks| && c < |FragmentedModel(m).tracks[t].channels|
    requires e in FragmentedModel(m).tracks[t].channels[c].events && e.NoteOn?
    ensures e.bends == []
  {
    var es := ControlEvents(m);
    var d := DiscretizedAll(es);
    DiscretizedAllAt(es);
    var m1 := ReplaceEvents(m, d);
    var extra := seq(NumberOfChannels, ch requires 0 <= ch < NumberOfChannels => AddedOn(es, ch));
    var fm := FragmentedModel(m);
    if t == 0 && e !in m1.tracks[0].channels[c].events {
      assert c < NumberOfChannels;
      assert e in extra[c];
    } else {
      assert t > 0 ==> fm.tracks[t] == m1.tracks[t];
      ChannelEventInTracks(m1.tracks, t, c, e);
      var i :| 0 <= i < |d| && d[i] == e;
    }
  }

  /** channel.Events.RemoveAll(e => e is PitchBend) */
  function WithoutPitchBends(es: seq<ControlEvent>): (r: seq<ControlEvent>)
    ensures |r| <= |es|
    ensures forall e :: e in r <==> e in es && !e.PitchBend?
  {
    if es == [] then []
    else
      var n := |es| - 1;
      assert es == es[..n] + [es[n]];
      WithoutPitchBends(es[..n]) + if es[n].PitchBend? then [] else [es[n]]
  }

  function Stripped(c: Channel): Channel
  {
    c.(events := WithoutPitchBends(c.events))
  }

  /** The final loop of DiscretizeBends: every channel loses its bends. */
  method RemovePitchBends(m: Model) returns (r: Model)
    requires WellFormed(m)
    ensures WellFormed(r) && r == m.(tracks := r.tracks) && |r.tracks| == |m.tracks|
    ensures forall t :: 0 <= t < |m.tracks| ==>
      r.tracks[t].meta == m.tracks[t].meta && |r.tracks[t].channels| == |m.tracks[t].channels|
    ensures forall t, c :: 0 <= t < |m.tracks| && 0 <= c < |m.tracks[t].channels| ==>
      r.tracks[t].channels[c] == Stripped(m.tracks[t].channels[c])
  {
    var tracks: seq<Track> := [];
    for t := 0 to |m.tracks|
      invariant |tracks| == t
      invariant forall k :: 0 <= k < t ==> tracks[k].meta == m.tracks[k].meta
      invariant forall k :: 0 <= k < t ==> |tracks[k].channels| == |m.tracks[k].channels|
      invariant forall k, c :: 0 <= k < t && 0 <= c < |m.tracks[k].channels| ==>
        tracks[k].channels[c] == Stripped(m.tracks[k].channels[c])
    {
      var source := m.tracks[t];
      var channels: seq<Channel> := [];
      for c := 0 to |source.channels|
        invariant |channels| == c
        invariant forall k :: 0 <= k < c ==> channels[k] == Stripped(source.channels[k])
      {
        channels := channels + [Stripped(source.channels[c])];
      }
      tracks := tracks + [source.(channels := channels)];
    }
    r := m.(tracks := tracks);
    forall tr | tr in r.tracks
      ensures WellFormedTrack(tr)
    {
      var k :| 0 <= k < |tracks| && tracks[k] == tr;
      assert m.tracks[k] in m.tracks;
    }
  }

  /** A bent note's fragments: the one that stays in its place and the
      ones appended to the channel. */
  method SplitNote(note: ControlEvent) returns (first: ControlEvent, rest: seq<ControlEvent>)
    requires Bent(note)
    ensures first == Discretized(note) && rest == Added(note)
  {
    var fragments := DiscretizeNote(note);
    first, rest := fragments[0], fragments[1..];
  }

  /** The outer loop of DiscretizeBends over the bent notes, in event
      order: what each event becomes, and the fragments each channel gains. */
  method DiscretizeAll(es: seq<ControlEvent>) returns (out: seq<ControlEvent>, extra: seq<seq<ControlEvent>>)
    ensures out == DiscretizedAll(es)
    ensures |extra| == NumberOfChannels && forall ch: ChannelNumber :: extra[ch] == AddedOn(es, ch)
  {
    out := es;
    extra := seq(NumberOfChannels, _ => []);
    for i := 0 to |es|
      invariant |extra| == NumberOfChannels
      invariant out == DiscretizedAll(es[..i]) + es[i..]
      invariant forall ch: ChannelNumber :: extra[ch] == AddedOn(es[..i], ch)
    {
      var note := es[i];
      AddedOnStep(es, i);
      DiscretizedAllStep(es, i);
      var first, rest := DiscretizeEvent(note);
      PlaceAt(DiscretizedAll(es[..i]), es, i, first);
      out := out[i := first];
      extra := extra[note.channel := extra[note.channel] + rest];
    }
    assert es[..|es|] == es;
  }

  /** What the outer loop does with one event: a bent note is split, any
      other event stays and adds nothing. */
  method DiscretizeEvent(e: ControlEvent) returns (first: ControlEvent, rest: seq<ControlEvent>)
    ensures first == Discretized(e) && rest == Added(e)
  {
    if e.NoteOn? && |e.bends| > 0 {
      first, rest := SplitNote(e);
    } else {
      first, rest := e, [];
    }
  }

  lemma DiscretizedAllStep(es: seq<ControlEvent>, i: nat)
    requires i < |es|
    ensures DiscretizedAll(es[..i + 1]) == DiscretizedAll(es[..i]) + [Discretized(es[i])]
  {
    assert es[..i + 1][..i] == es[..i];
  }

  /** Overwriting the first of the unprocessed elements extends the
      processed prefix by one. */
  lemma PlaceAt<T>(done: seq<T>, s: seq<T>, i: nat, x: T)
    requires i < |s| && |done| == i
    ensures (done + s[i..])[i := x] == done + [x] + s[i + 1..]
  {
  }

  /** The model once the bent notes are split, as DiscretizeBends builds it
      in place. */
  method SplitBentNotes(m: Model) returns (split: Model)
    requires WellFormed(m)
    ensures split == FragmentedModel(m)
  {
    var es := ControlEvents(m);
    var out, extra := DiscretizeAll(es);
    assert extra == seq(NumberOfChannels, ch requires 0 <= ch < NumberOfChannels => AddedOn(es, ch));
    split := ReplaceEvents(m, out);
    if |m.tracks| > 0 {
      split := AppendToFirstTrack(split, extra);
    }
  }

  /** DiscretizeBends: bent notes are split into fragments of constant
      rounded pitch, then every pitch bend is removed; afterwards no channel
      holds a bend and no note a bend list. */
  method DiscretizeBends(m: Model) returns (r: Model)
    requires WellFormed(m)
    ensures WellFormed(r) && r == m.(tracks := r.tracks) && |r.tracks| == |m.tracks|
    ensures forall t :: 0 <= t < |m.tracks| ==>
      r.tracks[t].meta == m.tracks[t].meta && |r.tracks[t].channels| == |m.tracks[t].channels|
    ensures forall t, c :: 0 <= t < |m.tracks| && 0 <= c < |m.tracks[t].channels| ==>
      r.tracks[t].channels[c] == Stripped(FragmentedModel(m).tracks[t].channels[c])
    ensures forall t, c, e :: 0 <= t < |r.tracks| && 0 <= c < |r.tracks[t].channels| && e in r.tracks[t].channels[c].events ==>
      !e.PitchBend? && (e.NoteOn? ==> e.bends == [])
  {
    var split := SplitBentNotes(m);
    r := RemovePitchBends(split);
    forall t, c, e | 0 <= t < |r.tracks| && 0 <= c < |r.tracks[t].channels| && e in r.tracks[t].channels[c].events
      ensures !e.PitchBend? && (e.NoteOn? ==> e.bends == [])
    {
      if e.NoteOn? {
        FragmentedUnbent(m, t, c, e);
      }
    }
  }
}
