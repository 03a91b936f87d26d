/** Channel.cs, Track.cs, MidiModel.cs, TimeDivision.cs and LinqToMidi.cs:
    the timeline container and the event enumerations every stage walks. */
module Tracks {
  import opened Wrappers
  import opened Keys
  import opened Events

  /** Model.NumberOfChannels */
  const NumberOfChannels := 16

  datatype Channel = Channel(number: ChannelNumber, events: seq<ControlEvent>)

  datatype Track = Track(channels: seq<Channel>, meta: seq<MetaEvent>)

  datatype TimeDivision =
    | TicksPerBeat(clockTicks: nat)
    | FramesPerSecond(frames: nat, ticksPerFrame: nat)

  datatype Model = Model(
    format: int,
    division: TimeDivision,
    length: real,
    isChannelPlayable: seq<bool>,
    tracks: seq<Track>,
    maxRealVolume: real,
    normalizedByMidi: bool,
    goodnessOfFit: real,
    key: Option<Key>,
    keyFromFile: bool)

  /** Every track holds the 16 channels its constructor made, in order. */
  predicate WellFormedTrack(t: Track)
  {
    |t.channels| == NumberOfChannels &&
    forall i :: 0 <= i < |t.channels| ==> t.channels[i].number == i
  }

  predicate WellFormed(m: Model)
  {
    forall t :: t in m.tracks ==> WellFormedTrack(t)
  }

  /** Channel.IsPlayable: the channel holds a note. */
  predicate IsPlayable(c: Channel)
  {
    exists e :: e in c.events && e.NoteOn?
  }

  /** The track Track() builds. */
  function EmptyTrack(): Track
  {
    Track(seq(NumberOfChannels, i requires 0 <= i < NumberOfChannels => Channel(i, [])), [])
  }

  /** Track(): sixteen empty channels numbered 0..15 and no meta events. */
  method NewTrack() returns (t: Track)
    ensures WellFormedTrack(t)
    ensures forall i :: 0 <= i < |t.channels| ==> t.channels[i].events == []
    ensures t.meta == []
    ensures t == EmptyTrack()
  {
    var channels := new Channel[NumberOfChannels](i requires 0 <= i < NumberOfChannels => Channel(0, []));
    var i := 0;
    while i < NumberOfChannels
      invariant 0 <= i <= NumberOfChannels
      invariant forall j :: 0 <= j < i ==> channels[j] == Channel(j, [])
      invariant forall j :: i <= j < NumberOfChannels ==> channels[j].events == []
    {
      channels[i] := Channel(i, []);
      i := i + 1;
    }
    t := Track(channels[..], []);
    assert t.channels == EmptyTrack().channels;
  }

  /** Sum of the channel sizes of cs. */
  function EventTotal(cs: seq<Channel>): nat
  {
    if cs == [] then 0 else EventTotal(cs[..|cs| - 1]) + |cs[|cs| - 1].events|
  }

  /** Number of playable channels among cs. */
  function PlayableTotal(cs: seq<Channel>): nat
  {
    if cs == [] then 0 else PlayableTotal(cs[..|cs| - 1]) + (if IsPlayable(cs[|cs| - 1]) then 1 else 0)
  }

  /** The control events of all the channels, in channel order. */
  function ChannelEvents(cs: seq<Channel>): seq<ControlEvent>
  {
    if cs == [] then [] else ChannelEvents(cs[..|cs| - 1]) + cs[|cs| - 1].events
  }

  /** Track.EventCount: the sum of the channel counts, which is the number of
      control events the track holds. */
  function EventCount(t: Track): (n: nat)
    ensures n == |ChannelEvents(t.channels)|
  {
    EventTotalIsLength(t.channels);
    EventTotal(t.channels)
  }

  lemma {:induction false} EventTotalIsLength(cs: seq<Channel>)
    ensures EventTotal(cs) == |ChannelEvents(cs)|
  {
    if cs != [] {
      EventTotalIsLength(cs[..|cs| - 1]);
    }
  }

  /** Track.FilledChannelsCount: the number of channels holding a note. */
  function FilledChannelsCount(t: Track): (n: nat)
    ensures n == |set i | 0 <= i < |t.channels| && IsPlayable(t.channels[i])|
    ensures n <= |t.channels|
  {
    PlayableTotalIsCount(t.channels);
    PlayableTotal(t.channels)
  }

  lemma {:induction false} PlayableTotalIsCount(cs: seq<Channel>)
    ensures PlayableTotal(cs) == |set i | 0 <= i < |cs| && IsPlayable(cs[i])|
    ensures PlayableTotal(cs) <= |cs|
  {
    var all := set i | 0 <= i < |cs| && IsPlayable(cs[i]);
    if cs == [] {
      assert all == {};
    } else {
      var n := |cs| - 1;
      var init := cs[..n];
      PlayableTotalIsCount(init);
      var before := set i | 0 <= i < n && IsPlayable(init[i]);
      if IsPlayable(cs[n]) {
        assert all == before + {n};
      } else {
        assert all == before;
      }
    }
  }

  /** LinqToMidi.ControlEvents: tracks in order, then channels, then events. */
  function ControlEvents(m: Model): seq<ControlEvent>
  {
    TrackEvents(m.tracks)
  }

  function TrackEvents(ts: seq<Track>): seq<ControlEvent>
  {
    if ts == [] then [] else TrackEvents(ts[..|ts| - 1]) + ChannelEvents(ts[|ts| - 1].channels)
  }

  /** LinqToMidi.MetaEvents: the meta events of the tracks in order. */
  function MetaEvents(m: Model): seq<MetaEvent>
  {
    TrackMeta(m.tracks)
  }

  function TrackMeta(ts: seq<Track>): seq<MetaEvent>
  {
    if ts == [] then [] else TrackMeta(ts[..|ts| - 1]) + ts[|ts| - 1].meta
  }

  /** EventsOfType<NoteOn>: the notes among the control events, in order. */
  function Notes(es: seq<ControlEvent>): seq<ControlEvent>
  {
    if es == [] then [] else Notes(es[..|es| - 1]) + (if es[|es| - 1].NoteOn? then [es[|es| - 1]] else [])
  }

  /** The real times of a list of events, in order. */
  function TimesOf(es: seq<ControlEvent>): (keys: seq<real>)
    ensures |keys| == |es| && forall i :: 0 <= i < |es| ==> keys[i] == es[i].time
  {
    seq(|es|, i requires 0 <= i < |es| => es[i].time)
  }

  /** The same channels with their events replaced, in order, by `es`: the
      way a stage that rewrites event fields in place is written back. */
  function ReplaceChannels(cs: seq<Channel>, es: seq<ControlEvent>): (r: seq<Channel>)
    requires |es| == |ChannelEvents(cs)|
    ensures |r| == |cs|
  {
    if cs == [] then []
    else
      var n := |cs| - 1;
      var k := |es| - |cs[n].events|;
      ReplaceChannels(cs[..n], es[..k]) + [Channel(cs[n].number, es[k..])]
  }

  lemma ChannelEventsSnoc(cs: seq<Channel>, c: Channel)
    ensures ChannelEvents(cs + [c]) == ChannelEvents(cs) + c.events
  {
    assert (cs + [c])[..|cs|] == cs;
  }

  lemma {:induction false} ReplaceChannelsEvents(cs: seq<Channel>, es: seq<ControlEvent>)
    requires |es| == |ChannelEvents(cs)|
    ensures ChannelEvents(ReplaceChannels(cs, es)) == es
  {
    if cs != [] {
      var n := |cs| - 1;
      var k := |es| - |cs[n].events|;
      var init := ReplaceChannels(cs[..n], es[..k]);
      var last := Channel(cs[n].number, es[k..]);
      assert ReplaceChannels(cs, es) == init + [last];
      ReplaceChannelsEvents(cs[..n], es[..k]);
      ChannelEventsSnoc(init, last);
      assert es[..k] + es[k..] == es;
    }
  }

  lemma {:induction false} ReplaceChannelsNumbers(cs: seq<Channel>, es: seq<ControlEvent>)
    requires |es| == |ChannelEvents(cs)|
    ensures forall i :: 0 <= i < |cs| ==> ReplaceChannels(cs, es)[i].number == cs[i].number
  {
    if cs != [] {
      var n := |cs| - 1;
      var k := |es| - |cs[n].events|;
      var init := ReplaceChannels(cs[..n], es[..k]);
      assert ReplaceChannels(cs, es) == init + [Channel(cs[n].number, es[k..])];
      ReplaceChannelsNumbers(cs[..n], es[..k]);
    }
  }

  function ReplaceTracks(ts: seq<Track>, es: seq<ControlEvent>): (r: seq<Track>)
    requires |es| == |TrackEvents(ts)|
    ensures |r| == |ts|
  {
    if ts == [] then []
    else
      var n := |ts| - 1;
      var k := |es| - |ChannelEvents(ts[n].channels)|;
      ReplaceTracks(ts[..n], es[..k]) + [Track(ReplaceChannels(ts[n].channels, es[k..]), ts[n].meta)]
  }

  lemma TrackEventsSnoc(ts: seq<Track>, t: Track)
    ensures TrackEvents(ts + [t]) == TrackEvents(ts) + ChannelEvents(t.channels)
  {
    assert (ts + [t])[..|ts|] == ts;
  }

  /** Same meta events and the same channel numbers, in order. */
  predicate SameShape(a: Track, b: Track)
  {
    a.meta == b.meta && |a.channels| == |b.channels| &&
    forall c :: 0 <= c < |a.channels| ==> a.channels[c].number == b.channels[c].number
  }

  /** The replaced tracks hold `es`, in order. */
  lemma {:induction false} ReplaceTracksEvents(ts: seq<Track>, es: seq<ControlEvent>)
    requires |es| == |TrackEvents(ts)|
    ensures TrackEvents(ReplaceTracks(ts, es)) == es
  {
    if ts != [] {
      var n := |ts| - 1;
      var k := |es| - |ChannelEvents(ts[n].channels)|;
      var init := ReplaceTracks(ts[..n], es[..k]);
      var last := Track(ReplaceChannels(ts[n].channels, es[k..]), ts[n].meta);
      assert ReplaceTracks(ts, es) == init + [last];
      ReplaceTracksEvents(ts[..n], es[..k]);
      ReplaceChannelsEvents(ts[n].channels, es[k..]);
      JoinTrackEvents(init, last, es, k);
    }
  }

  /** Tracks holding es[..k] followed by a track holding es[k..] hold es. */
  lemma JoinTrackEvents(init: seq<Track>, last: Track, es: seq<ControlEvent>, k: nat)
    requires k <= |es| && TrackEvents(init) == es[..k] && ChannelEvents(last.channels) == es[k..]
    ensures TrackEvents(init + [last]) == es
  {
    TrackEventsSnoc(init, last);
    assert es[..k] + es[k..] == es;
  }

  /** The replaced tracks keep their meta events and channel numbers. */
  lemma {:induction false} ReplaceTracksShape(ts: seq<Track>, es: seq<ControlEvent>)
    requires |es| == |TrackEvents(ts)|
    ensures forall i :: 0 <= i < |ts| ==> SameShape(ReplaceTracks(ts, es)[i], ts[i])
  {
    if ts != [] {
      var n := |ts| - 1;
      var k := |es| - |ChannelEvents(ts[n].channels)|;
      var init := ReplaceTracks(ts[..n], es[..k]);
      var last := Track(ReplaceChannels(ts[n].channels, es[k..]), ts[n].meta);
      assert ReplaceTracks(ts, es) == init + [last];
      ReplaceTracksShape(ts[..n], es[..k]);
      ReplaceChannelsNumbers(ts[n].channels, es[k..]);
      assert SameShape(last, ts[n]);
    }
  }

  /** The model with its control events, in LinqToMidi order, replaced by `es`. */
  function ReplaceEvents(m: Model, es: seq<ControlEvent>): (r: Model)
    requires |es| == |ControlEvents(m)|
    ensures ControlEvents(r) == es && MetaEvents(r) == MetaEvents(m)
    ensures r == m.(tracks := r.tracks) && |r.tracks| == |m.tracks|
    ensures forall t :: 0 <= t < |m.tracks| ==>
      r.tracks[t].meta == m.tracks[t].meta && |r.tracks[t].channels| == |m.tracks[t].channels|
    ensures WellFormed(m) ==> WellFormed(r)
  {
    var ts := ReplaceTracks(m.tracks, es);
    ReplaceTracksEvents(m.tracks, es);
    ReplaceTracksShape(m.tracks, es);
    MetaOfSameMeta(m.tracks, ts);
    var r := m.(tracks := ts);
    assert WellFormed(m) ==> WellFormed(r) by {
      if WellFormed(m) {
        forall t | t in ts
          ensures WellFormedTrack(t)
        {
          var i :| 0 <= i < |ts| && ts[i] == t;
          assert WellFormedTrack(m.tracks[i]);
        }
      }
    }
    r
  }

  lemma {:induction false} MetaOfSameMeta(a: seq<Track>, b: seq<Track>)
    requires |a| == |b| && forall i :: 0 <= i < |a| ==> a[i].meta == b[i].meta
    ensures TrackMeta(a) == TrackMeta(b)
  {
    if a != [] {
      MetaOfSameMeta(a[..|a| - 1], b[..|b| - 1]);
    }
  }

  /** The same tracks with their meta events replaced, in order, by `ms`. */
  function ReplaceMetaOf(ts: seq<Track>, ms: seq<MetaEvent>): (r: seq<Track>)
    requires |ms| == |TrackMeta(ts)|
    ensures |r| == |ts|
  {
    if ts == [] then []
    else
      var n := |ts| - 1;
      var k := |ms| - |ts[n].meta|;
      ReplaceMetaOf(ts[..n], ms[..k]) + [Track(ts[n].channels, ms[k..])]
  }

  /** The replaced tracks hold `ms`, in order. */
  lemma {:induction false} ReplaceMetaOfMeta(ts: seq<Track>, ms: seq<MetaEvent>)
    requires |ms| == |TrackMeta(ts)|
    ensures TrackMeta(ReplaceMetaOf(ts, ms)) == ms
  {
    if ts != [] {
      var n := |ts| - 1;
      var k := |ms| - |ts[n].meta|;
      var init := ReplaceMetaOf(ts[..n], ms[..k]);
      var replaced := ReplaceMetaOf(ts, ms);
      assert replaced == init + [Track(ts[n].channels, ms[k..])];
      ReplaceMetaOfMeta(ts[..n], ms[..k]);
      assert replaced[..n] == init;
      assert ms[..k] + ms[k..] == ms;
    }
  }

  /** The replaced tracks keep their channels. */
  lemma {:induction false} ReplaceMetaOfChannels(ts: seq<Track>, ms: seq<MetaEvent>)
    requires |ms| == |TrackMeta(ts)|
    ensures forall i :: 0 <= i < |ts| ==> ReplaceMetaOf(ts, ms)[i].channels == ts[i].channels
  {
    if ts != [] {
      var n := |ts| - 1;
      var k := |ms| - |ts[n].meta|;
      var init := ReplaceMetaOf(ts[..n], ms[..k]);
      assert ReplaceMetaOf(ts, ms) == init + [Track(ts[n].channels, ms[k..])];
      ReplaceMetaOfChannels(ts[..n], ms[..k]);
    }
  }

  lemma {:induction false} EventsOfSameChannels(a: seq<Track>, b: seq<Track>)
    requires |a| == |b| && forall i :: 0 <= i < |a| ==> a[i].channels == b[i].channels
    ensures TrackEvents(a) == TrackEvents(b)
  {
    if a != [] {
      EventsOfSameChannels(a[..|a| - 1], b[..|b| - 1]);
    }
  }

  /** The model with its meta events, in LinqToMidi order, replaced by `ms`. */
  function ReplaceMeta(m: Model, ms: seq<MetaEvent>): (r: Model)
    requires |ms| == |MetaEvents(m)|
    ensures MetaEvents(r) == ms && ControlEvents(r) == ControlEvents(m)
    ensures r == m.(tracks := r.tracks) && |r.tracks| == |m.tracks|
    ensures WellFormed(m) ==> WellFormed(r)
  {
    var ts := ReplaceMetaOf(m.tracks, ms);
    ReplaceMetaOfMeta(m.tracks, ms);
    ReplaceMetaOfChannels(m.tracks, ms);
    EventsOfSameChannels(m.tracks, ts);
    var r := m.(tracks := ts);
    assert WellFormed(m) ==> WellFormed(r) by {
      if WellFormed(m) {
        forall t | t in ts
          ensures WellFormedTrack(t)
        {
          var i :| 0 <= i < |ts| && ts[i] == t;
          assert WellFormedTrack(m.tracks[i]);
        }
      }
    }
    r
  }

  /** Tracks[0].Channels[ch].Events.Add for each of `notes`: with no track,
      or no channel at index ch, the list index throws. */
  function AppendToChannel(m: Model, ch: nat, notes: seq<ControlEvent>): (r: Result<Model>)
  {
    if m.tracks == [] || |m.tracks[0].channels| <= ch then Fail(IndexOutOfRange)
    else
      var t := m.tracks[0];
      var c := t.channels[ch];
      Ok(m.(tracks := m.tracks[0 := t.(channels := t.channels[ch := c.(events := c.events + notes)])]))
  }

  /** Exactly the given notes are added, after the channel's own events;
      every other channel, every other track and the meta events stay as
      they were, and the tracks keep their shape. */
  lemma AppendShape(m: Model, ch: nat, notes: seq<ControlEvent>)
    requires AppendToChannel(m, ch, notes).Ok?
    ensures var r := AppendToChannel(m, ch, notes).value;
      |r.tracks| == |m.tracks| && r == m.(tracks := r.tracks) &&
      |r.tracks[0].channels| == |m.tracks[0].channels| &&
      r.tracks[0].channels[ch].events == m.tracks[0].channels[ch].events + notes &&
      r.tracks[0].channels[ch].number == m.tracks[0].channels[ch].number &&
      (forall c :: 0 <= c < |m.tracks[0].channels| && c != ch ==> r.tracks[0].channels[c] == m.tracks[0].channels[c]) &&
      (forall t :: 0 < t < |m.tracks| ==> r.tracks[t] == m.tracks[t]) &&
      (forall t :: 0 <= t < |m.tracks| ==> r.tracks[t].meta == m.tracks[t].meta) &&
      (WellFormed(m) ==> WellFormed(r))
  {
    var r := AppendToChannel(m, ch, notes).value;
    if WellFormed(m) {
      forall t | t in r.tracks
        ensures WellFormedTrack(t)
      {
        var i :| 0 <= i < |r.tracks| && r.tracks[i] == t;
        assert WellFormedTrack(m.tracks[i]);
      }
    }
  }

  /** Tracks.SelectMany(t => t.Channels): the channels of all tracks, in
      order. */
  function AllChannels(ts: seq<Track>): (cs: seq<Channel>)
    ensures ChannelEvents(cs) == TrackEvents(ts)
  {
    if ts == [] then []
    else
      var n := |ts| - 1;
      ChannelEventsAppend(AllChannels(ts[..n]), ts[n].channels);
      AllChannels(ts[..n]) + ts[n].channels
  }

  lemma {:induction false} ChannelEventsAppend(a: seq<Channel>, b: seq<Channel>)
    ensures ChannelEvents(a + b) == ChannelEvents(a) + ChannelEvents(b)
  {
    if b != [] {
      var n := |b| - 1;
      assert (a + b)[..|a + b| - 1] == a + b[..n];
      ChannelEventsAppend(a, b[..n]);
    } else {
      assert a + b == a;
    }
  }

  /** Every event of a channel is an event of the model. */
  lemma {:induction false} ChannelEventInTracks(ts: seq<Track>, t: nat, c: nat, e: ControlEvent)
    requires t < |ts| && c < |ts[t].channels| && e in ts[t].channels[c].events
    ensures e in TrackEvents(ts)
  {
    var n := |ts| - 1;
    if t < n {
      assert ts[..n][t] == ts[t];
      ChannelEventInTracks(ts[..n], t, c, e);
    } else {
      ChannelEventInChannels(ts[n].channels, c, e);
    }
  }

  lemma {:induction false} ChannelEventInChannels(cs: seq<Channel>, c: nat, e: ControlEvent)
    requires c < |cs| && e in cs[c].events
    ensures e in ChannelEvents(cs)
  {
    var n := |cs| - 1;
    if c < n {
      assert cs[..n][c] == cs[c];
      ChannelEventInChannels(cs[..n], c, e);
    }
  }
}
