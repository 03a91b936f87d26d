/** Normalizer.AddBeats: the detected metre made audible. Every beat event,
    in time order, becomes a percussion note on channel 9 of the first
    track (bass drum 36 on a strong beat, pedal hi-hat 44 otherwise)
    lasting a quarter of the beat; then the loudness pass runs and, when
    asked, the sustain pass. */
module BeatNotes {
  import opened Wrappers
  import opened MathExt
  import opened Keys
  import opened Events
  import opened Tracks
  import opened Ordering
  import VolumeChangeCollector
  import Sustainer

  const StrongBeatPitch: byte := 36
  const OtherBeatPitch: byte := 44

  /** The beat events among the meta events, in LinqToMidi order. */
  function BeatEventsOf(ms: seq<MetaEvent>): (bs: seq<MetaEvent>)
    ensures |bs| <= |ms| && forall k :: 0 <= k < |bs| ==> bs[k].BeatEvent?
  {
    if ms == [] then []
    else BeatEventsOf(ms[..|ms| - 1]) + if ms[|ms| - 1].BeatEvent? then [ms[|ms| - 1]] else []
  }

  function MetaTimes(ms: seq<MetaEvent>): (keys: seq<real>)
    ensures |keys| == |ms| && forall k :: 0 <= k < |ms| ==> keys[k] == ms[k].time
  {
    seq(|ms|, k requires 0 <= k < |ms| => ms[k].time)
  }

  /** OrderBy(b => b.AbsoluteRealTime): the beat events in time order, ties
      in their original order. */
  function BeatsInTimeOrder(ms: seq<MetaEvent>): (bs: seq<MetaEvent>)
    ensures |bs| == |BeatEventsOf(ms)|
    ensures forall k :: 0 <= k < |bs| ==> bs[k].BeatEvent?
    ensures forall a, b :: 0 <= a < b < |bs| ==> bs[a].time <= bs[b].time
  {
    var beats := BeatEventsOf(ms);
    var order := StableSort(MetaTimes(beats));
    forall a, b | 0 <= a < b < |order|
      ensures beats[order[a]].time <= beats[order[b]].time
    {
      StableOrderMonotone(MetaTimes(beats), order, a, b);
    }
    Arranged(beats, order)
  }

  /** (byte)volume keeps the low eight bits; the double cast of three
      quarters of it truncates. */
  function NoteVolume(level: int, volume: int): byte
  {
    if level == 2 then Trunc(0.75 * volume as real) % 256 else volume % 256
  }

  /** The note one beat event becomes. */
  function BeatNote(b: MetaEvent, volume: int): (e: ControlEvent)
    requires b.BeatEvent?
  {
    var length := b.length * 0.25;
    NoteOn(b.tick, b.time, PercussionChannel, if b.level == 0 then StrongBeatPitch else OtherBeatPitch,
      NoteVolume(b.level, volume), 0.0, 0, None, length, b.time + length, [])
  }

  /** A beat note sounds on the percussion channel when its beat starts and
      for a quarter of the beat; it is a bass drum exactly on strong beats,
      and within the byte range a weak beat plays at three quarters of the
      volume, rounded down, and any other at the full volume. */
  lemma BeatNoteShape(b: MetaEvent, volume: int)
    requires b.BeatEvent?
    ensures var e := BeatNote(b, volume);
      e.NoteOn? && e.channel == PercussionChannel && e.tick == b.tick && e.time == b.time &&
      (e.note == 36 <==> b.level == 0) && (e.note == 36 || e.note == 44) &&
      e.realLength * 4.0 == b.length && e.end == e.time + e.realLength &&
      e.bends == [] && e.instrument == None &&
      (0 <= volume <= 255 && b.level != 2 ==> e.volume == volume) &&
      (0 <= volume <= 255 && b.level == 2 ==> e.volume as real <= 0.75 * volume as real < e.volume as real + 1.0)
  {
    if 0 <= volume <= 255 && b.level == 2 {
      var t := Trunc(0.75 * volume as real);
      assert 0 <= t < 256;
    }
  }

  function BeatNotesFor(beats: seq<MetaEvent>, volume: int): (es: seq<ControlEvent>)
    requires forall k :: 0 <= k < |beats| ==> beats[k].BeatEvent?
    ensures |es| == |beats|
  {
    seq(|beats|, k requires 0 <= k < |beats| => BeatNote(beats[k], volume))
  }

  /** The percussion notes of AddBeats, before the loudness pass. */
  function WithBeatNotes(m: Model, volume: int): Result<Model>
  {
    AppendToChannel(m, PercussionChannel, BeatNotesFor(BeatsInTimeOrder(MetaEvents(m)), volume))
  }

  /** The foreach loop of AddBeats, one note per beat event in time order. */
  method AddBeatNotes(m: Model, volume: int) returns (r: Result<Model>)
    ensures r == WithBeatNotes(m, volume)
  {
    if m.tracks == [] || |m.tracks[0].channels| <= PercussionChannel {
      return Fail(IndexOutOfRange);
    }
    var beats := BeatsInTimeOrder(MetaEvents(m));
    var notes: seq<ControlEvent> := [];
    for i := 0 to |beats|
      invariant notes == BeatNotesFor(beats[..i], volume)
    {
      var b := beats[i];
      var length := b.length * 0.25;
      var note := NoteOn(b.tick, b.time, PercussionChannel, if b.level == 0 then StrongBeatPitch else OtherBeatPitch,
        NoteVolume(b.level, volume), 0.0, 0, None, length, b.time + length, []);
      notes := notes + [note];
    }
    assert beats[..|beats|] == beats;
    r := AppendToChannel(m, PercussionChannel, notes);
  }

  /** The model AddBeats produces: the beat notes on the percussion
      channel, every note's loudness determined again over the whole model,
      and, when asked, the sustained notes prolonged. */
  function BeatsAdded(m: Model, prolongSustainedNotes: bool, volume: int): (r: Result<Model>)
    requires WellFormed(m)
    ensures m.tracks == [] ==> r == Fail(IndexOutOfRange)
    ensures !prolongSustainedNotes ==> (r.Ok? <==> m.tracks != [])
    ensures r.Ok? ==> MetaEvents(r.value) == MetaEvents(m)
  {
    if m.tracks == [] then Fail(IndexOutOfRange)
    else
      assert WellFormedTrack(m.tracks[0]);
      var added := WithBeatNotes(m, volume);
      AppendShape(m, PercussionChannel, BeatNotesFor(BeatsInTimeOrder(MetaEvents(m)), volume));
      MetaOfSameMeta(m.tracks, added.value.tracks);
      var loud := VolumeChangeCollector.Loudened(added.value);
      if prolongSustainedNotes then Sustainer.Prolonged(loud) else Ok(loud)
  }

  /** AddBeats: the beat notes, then DetermineVolumes of a fresh
      VolumeChangeCollector, then, when asked, ProlongSustainedNotes. */
  method AddBeats(m: Model, prolongSustainedNotes: bool, volume: int) returns (r: Result<Model>)
    requires WellFormed(m)
    ensures r == BeatsAdded(m, prolongSustainedNotes, volume)
    ensures m.tracks == [] ==> r == Fail(IndexOutOfRange)
    ensures m.tracks != [] ==> WithBeatNotes(m, volume).Ok?
    ensures m.tracks != [] && !prolongSustainedNotes ==>
      r.Ok? && WellFormed(r.value) &&
      |ControlEvents(r.value)| == |ControlEvents(WithBeatNotes(m, volume).value)|
    ensures r.Ok? ==> MetaEvents(r.value) == MetaEvents(m)
  {
    if m.tracks != [] {
      assert WellFormedTrack(m.tracks[0]);
    }
    var added := AddBeatNotes(m, volume);
    if added.Fail? {
      return added;
    }
    AppendShape(m, PercussionChannel, BeatNotesFor(BeatsInTimeOrder(MetaEvents(m)), volume));
    MetaOfSameMeta(m.tracks, added.value.tracks);
    var collector := VolumeChangeCollector.NewCollector(added.value);
    var loud := VolumeChangeCollector.DetermineVolumes(collector, added.value);
    if prolongSustainedNotes {
      r := Sustainer.Sustain(loud);
    } else {
      r := Ok(loud);
    }
  }
}
