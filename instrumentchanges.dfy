/** InstrumentChangeCollector.cs: the program changes bucketed by channel,
    and the instrument each note is played with. */
module InstrumentChangeCollector {
  import opened Wrappers
  import opened Instruments
  import opened Events
  import opened Tracks
  import opened Latest

  /** The instrument of a channel before any program change: program 0. */
  const DefaultInstrument: Instrument := Musical(0)

  /** The program changes on channel ch, in event order. */
  function ChangesOn(es: seq<ControlEvent>, ch: ChannelNumber): (r: seq<ControlEvent>)
    ensures |r| <= |es|
    ensures forall e :: e in r ==> e.InstrumentChange? && e.channel == ch
    ensures forall e :: e in es && e.InstrumentChange? && e.channel == ch ==> e in r
  {
    if es == [] then []
    else
      var e := es[|es| - 1];
      ChangesOn(es[..|es| - 1], ch) + (if e.InstrumentChange? && e.channel == ch then [e] else [])
  }

  /** The constructor: every program change is appended to the list of its
      channel, in event order. */
  method Collect(m: Model) returns (changes: seq<seq<ControlEvent>>)
    ensures |changes| == NumberOfChannels
    ensures forall ch: ChannelNumber :: changes[ch] == ChangesOn(ControlEvents(m), ch)
  {
    var es := ControlEvents(m);
    changes := seq(NumberOfChannels, _ => []);
    for i := 0 to |es|
      invariant |changes| == NumberOfChannels
      invariant forall ch: ChannelNumber :: changes[ch] == ChangesOn(es[..i], ch)
    {
      var e := es[i];
      ChangesStep(es, i);
      if e.InstrumentChange? {
        changes := changes[e.channel := changes[e.channel] + [e]];
      }
    }
    assert es[..|es|] == es;
  }

  /** One more event adds itself to the changes of its channel only. */
  lemma ChangesStep(es: seq<ControlEvent>, i: nat)
    requires i < |es|
    ensures forall ch: ChannelNumber ::
      ChangesOn(es[..i + 1], ch) == ChangesOn(es[..i], ch) + (if es[i].InstrumentChange? && es[i].channel == ch then [es[i]] else [])
  {
    assert es[..i + 1][..i] == es[..i];
  }

  function InstrumentsOf(cs: seq<ControlEvent>): (r: seq<Option<Instrument>>)
    requires forall e :: e in cs ==> e.InstrumentChange?
    ensures |r| == |cs| && forall i :: 0 <= i < |cs| ==> r[i] == cs[i].instrument
  {
    seq(|cs|, i requires 0 <= i < |cs| => cs[i].instrument)
  }

  /** The instrument in force at time t: that of the latest program change
      at or before t, the first of equal times, or program 0 when there is
      none. */
  function InstrumentAt(changes: seq<ControlEvent>, t: real): (r: Option<Instrument>)
    requires forall e :: e in changes ==> e.InstrumentChange?
    ensures (forall e :: e in changes ==> e.time > t) ==> r == Some(DefaultInstrument)
    ensures (exists e :: e in changes && e.time <= t) ==>
      exists k :: 0 <= k < |changes| && changes[k].time <= t && r == changes[k].instrument &&
        (forall j :: 0 <= j < |changes| && changes[j].time <= t ==> changes[j].time <= changes[k].time) &&
        (forall j :: 0 <= j < k && changes[j].time <= t ==> changes[j].time < changes[k].time)
  {
    var times := TimesOf(changes);
    assert (forall e :: e in changes ==> e.time > t) <==> (forall j :: 0 <= j < |times| ==> times[j] > t) by {
      assert forall j :: 0 <= j < |changes| ==> changes[j] in changes;
    }
    ValueAtOrBefore(times, InstrumentsOf(changes), t, Some(DefaultInstrument))
  }

  /** A control event after DetermineInstruments: a note on the percussion
      channel gets Percussion, any other note the instrument in force on its
      channel at its start; other events are unchanged. */
  function Assigned(changes: seq<seq<ControlEvent>>, e: ControlEvent): (r: ControlEvent)
    requires |changes| == NumberOfChannels
    requires forall ch: ChannelNumber, c :: c in changes[ch] ==> c.InstrumentChange?
    ensures !e.NoteOn? ==> r == e
    ensures e.NoteOn? ==> r.NoteOn? && r == e.(instrument := r.instrument)
    ensures e.NoteOn? && e.channel == PercussionChannel ==> r.instrument == Some(Percussion)
    ensures e.NoteOn? && e.channel != PercussionChannel ==> r.instrument == InstrumentAt(changes[e.channel], e.time)
  {
    if !e.NoteOn? then e
    else if e.channel == PercussionChannel then e.(instrument := Some(Percussion))
    else e.(instrument := InstrumentAt(changes[e.channel], e.time))
  }

  /** DetermineInstruments: every note gets its instrument; nothing else
      changes. */
  method DetermineInstruments(changes: seq<seq<ControlEvent>>, m: Model) returns (r: Model)
    requires WellFormed(m) && |changes| == NumberOfChannels
    requires forall ch: ChannelNumber :: changes[ch] == ChangesOn(ControlEvents(m), ch)
    requires forall ch: ChannelNumber, c :: c in changes[ch] ==> c.InstrumentChange?
    ensures WellFormed(r) && r == m.(tracks := r.tracks)
    ensures MetaEvents(r) == MetaEvents(m) && |ControlEvents(r)| == |ControlEvents(m)|
    ensures forall i :: 0 <= i < |ControlEvents(m)| ==> ControlEvents(r)[i] == Assigned(changes, ControlEvents(m)[i])
  {
    var es := ControlEvents(m);
    var out := es;
    for i := 0 to |es|
      invariant |out| == |es|
      invariant forall k :: 0 <= k < i ==> out[k] == Assigned(changes, es[k])
      invariant forall k :: i <= k < |es| ==> out[k] == es[k]
    {
      var note := es[i];
      if note.NoteOn? {
        if note.channel == PercussionChannel {
          note := note.(instrument := Some(Percussion));
        } else {
          note := note.(instrument := InstrumentAt(changes[note.channel], note.time));
        }
      }
      out := out[i := note];
    }
    r := ReplaceEvents(m, out);
  }
}
