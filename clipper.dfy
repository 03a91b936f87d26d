/** Clipper.cs: cuts a model down to the window [min, max] of real time.
    Every NoteOff goes, notes wholly outside the window go, the kept notes
    are moved to start from the window's start, and each kept note gets a
    fresh NoteOff at its new end. */
module Clipper {
  import opened Wrappers
  import opened Events
  import opened Tracks

  /** TimeSpan.FromSeconds(30), the end given to notes running past max. */
  const LateEnd := 30000.0

  /** The velocity of the NoteOffs the clipper adds. */
  const ReleaseVelocity := 64

  /** The events the first loop removes: every NoteOff, and every NoteOn
      ending before min or starting after max. */
  predicate Dropped(e: ControlEvent, min: real, max: real)
  {
    e.NoteOff? || (e.NoteOn? && (e.end < min || e.time > max))
  }

  /** The channel's events after the removal loop, in their order. */
  function Kept(es: seq<ControlEvent>, min: real, max: real): (r: seq<ControlEvent>)
  {
    if es == [] then []
    else
      var n := |es| - 1;
      Kept(es[..n], min, max) + if Dropped(es[n], min, max) then [] else [es[n]]
  }

  /** The removal keeps exactly the events not dropped. */
  lemma {:induction false} KeptExactly(es: seq<ControlEvent>, min: real, max: real)
    ensures forall e :: e in Kept(es, min, max) <==> e in es && !Dropped(e, min, max)
    ensures |Kept(es, min, max)| <= |es|
  {
    if es != [] {
      var n := |es| - 1;
      KeptExactly(es[..n], min, max);
      assert es == es[..n] + [es[n]];
    }
  }

  /** A kept note moved into the window: its start becomes start - min, or 0
      when it began before min; its end becomes end - min, or 30 s when it
      ran past max. RealTimeLength is left as it was. */
  function Clipped(e: ControlEvent, min: real, max: real): (r: ControlEvent)
    requires e.NoteOn?
    ensures r.NoteOn? && r == e.(time := r.time, end := r.end)
    ensures r.time >= 0.0
    ensures e.time >= min ==> r.time == e.time - min
    ensures e.end <= max ==> r.end == e.end - min
    ensures !Dropped(e, min, max) ==> r.end >= 0.0
    ensures !Dropped(e, min, max) && min <= max ==> r.time <= max - min
  {
    var start := if e.time < min then 0.0 else e.time - min;
    var end := if e.end > max then LateEnd else e.end - min;
    e.(time := start, end := end)
  }

  /** The second loop's change to a kept event: notes are moved into the
      window, everything else is untouched. */
  function ClippedEvent(e: ControlEvent, min: real, max: real): (r: ControlEvent)
    ensures !e.NoteOn? ==> r == e
  {
    if e.NoteOn? then Clipped(e, min, max) else e
  }

  function ClippedAll(es: seq<ControlEvent>, min: real, max: real): (r: seq<ControlEvent>)
    ensures |r| == |es| && forall i :: 0 <= i < |es| ==> r[i] == ClippedEvent(es[i], min, max)
  {
    seq(|es|, i requires 0 <= i < |es| => ClippedEvent(es[i], min, max))
  }

  /** The NoteOff added for a kept note: same channel and pitch, at its
      end, velocity 64. */
  function Release(e: ControlEvent): (r: ControlEvent)
    requires e.NoteOn?
    ensures r.NoteOff? && r.time == e.end && r.channel == e.channel && r.note == e.note
    ensures r.velocity == ReleaseVelocity
  {
    NoteOff(0, e.end, e.channel, e.note, ReleaseVelocity)
  }

  /** One NoteOff per note of `es`, in the notes' order. */
  function Releases(es: seq<ControlEvent>): (r: seq<ControlEvent>)
  {
    if es == [] then []
    else
      var n := |es| - 1;
      Releases(es[..n]) + if es[n].NoteOn? then [Release(es[n])] else []
  }

  /** The added NoteOffs match the notes one to one, in order. */
  lemma {:induction false} ReleasesMatchNotes(es: seq<ControlEvent>)
    ensures |Releases(es)| == |Notes(es)|
    ensures forall j :: 0 <= j < |Notes(es)| ==> Notes(es)[j].NoteOn? && Releases(es)[j] == Release(Notes(es)[j])
  {
    if es != [] {
      ReleasesMatchNotes(es[..|es| - 1]);
    }
  }

  /** What Clip leaves in a channel: the kept events with their notes moved
      into the window, then a NoteOff for each kept note. */
  function ClippedEvents(es: seq<ControlEvent>, min: real, max: real): seq<ControlEvent>
  {
    var kept := ClippedAll(Kept(es, min, max), min, max);
    kept + Releases(kept)
  }

  /** The clipped channel holds no NoteOff of the original, no note outside
      the window, every event that is neither NoteOn nor NoteOff unchanged,
      and one added NoteOff per kept note, at its new end. */
  lemma ClippedEventsEffect(es: seq<ControlEvent>, min: real, max: real)
    ensures var kept := Kept(es, min, max);
      var r := ClippedEvents(es, min, max);
      |r| == |kept| + |Notes(ClippedAll(kept, min, max))| &&
      (forall i :: 0 <= i < |kept| ==> !kept[i].NoteOff? && r[i] == ClippedEvent(kept[i], min, max)) &&
      (forall i :: 0 <= i < |kept| && kept[i].NoteOn? ==> kept[i].end >= min && kept[i].time <= max) &&
      forall j :: |kept| <= j < |r| ==> r[j].NoteOff? && r[j].velocity == ReleaseVelocity
    ensures forall e :: e in es && !e.NoteOn? && !e.NoteOff? ==> e in ClippedEvents(es, min, max)
  {
    var kept := Kept(es, min, max);
    KeptExactly(es, min, max);
    ReleasesMatchNotes(ClippedAll(kept, min, max));
    assert forall i :: 0 <= i < |kept| ==> kept[i] in kept;
    forall e | e in es && !e.NoteOn? && !e.NoteOff?
      ensures e in ClippedEvents(es, min, max)
    {
      var i :| 0 <= i < |kept| && kept[i] == e;
      assert ClippedEvents(es, min, max)[i] == e;
    }
  }

  /** Clip's body for one channel: the RemoveAt loop, then the loop over
      the remaining notes that moves them and appends their NoteOffs. */
  method ClipChannel(es: seq<ControlEvent>, min: real, max: real) returns (r: seq<ControlEvent>)
    ensures r == ClippedEvents(es, min, max)
  {
    var kept := RemoveDropped(es, min, max);
    r := MoveIntoWindow(kept, min, max);
  }

  /** The RemoveAt loop: a dropped event is removed and the index stays. */
  method RemoveDropped(es: seq<ControlEvent>, min: real, max: real) returns (events: seq<ControlEvent>)
    ensures events == Kept(es, min, max)
  {
    events := es;
    var i := 0;
    ghost var j := 0;
    while i < |events|
      invariant 0 <= j <= |es| && i == |Kept(es[..j], min, max)|
      invariant events == Kept(es[..j], min, max) + es[j..]
      decreases |events| - i
    {
      KeptStep(es, j, min, max);
      SkipOne(Kept(es[..j], min, max), es, j);
      if Dropped(events[i], min, max) {
        events := events[..i] + events[i + 1..];
      } else {
        i := i + 1;
      }
      j := j + 1;
    }
    assert es[..j] == es;
  }

  /** One more event is kept unless it is dropped. */
  lemma KeptStep(es: seq<ControlEvent>, j: nat, min: real, max: real)
    requires j < |es|
    ensures Kept(es[..j + 1], min, max) == Kept(es[..j], min, max) + if Dropped(es[j], min, max) then [] else [es[j]]
  {
    assert es[..j + 1][..j] == es[..j];
  }

  /** With `done` before the rest of s from j, the element at |done| is
      s[j], and removing it or moving past it leaves the rest from j + 1. */
  lemma SkipOne<T>(done: seq<T>, s: seq<T>, j: nat)
    requires j < |s|
    ensures var w := done + s[j..];
      w[|done|] == s[j] && w[..|done|] + w[|done| + 1..] == done + s[j + 1..] &&
      w == (done + [s[j]]) + s[j + 1..]
  {
  }

  /** The loop over the remaining notes: each is moved into the window and
      its NoteOff appended to the channel. */
  method MoveIntoWindow(kept: seq<ControlEvent>, min: real, max: real) returns (events: seq<ControlEvent>)
    ensures events == ClippedAll(kept, min, max) + Releases(ClippedAll(kept, min, max))
  {
    events := kept;
    assert kept[..0] == [] && kept[0..] == kept;
    for k := 0 to |kept|
      invariant events == MovedSoFar(kept, k, min, max)
    {
      events := MoveOne(kept, k, min, max, events);
    }
    assert kept[..|kept|] == kept && kept[|kept|..] == [];
  }

  /** The channel after the first k notes were moved: those k clipped, the
      rest as they were, then the NoteOffs of the clipped notes. */
  ghost function MovedSoFar(kept: seq<ControlEvent>, k: nat, min: real, max: real): seq<ControlEvent>
    requires k <= |kept|
  {
    ClippedAll(kept[..k], min, max) + kept[k..] + Releases(ClippedAll(kept[..k], min, max))
  }

  /** One iteration: event k is clipped and, if a note, its NoteOff appended. */
  method MoveOne(kept: seq<ControlEvent>, k: nat, min: real, max: real, events: seq<ControlEvent>)
    returns (events': seq<ControlEvent>)
    requires k < |kept| && events == MovedSoFar(kept, k, min, max)
    ensures events' == MovedSoFar(kept, k + 1, min, max)
  {
    ghost var done := ClippedAll(kept[..k], min, max);
    ghost var x := ClippedEvent(kept[k], min, max);
    ClippedAllStep(kept, k, min, max);
    ReleasesStep(done, x);
    PlaceAndAppend(done, kept, k, Releases(done));
    if events[k].NoteOn? {
      var note := Clipped(events[k], min, max);
      events' := events[k := note] + [Release(note)];
    } else {
      events' := events;
    }
  }

  lemma ClippedAllStep(kept: seq<ControlEvent>, k: nat, min: real, max: real)
    requires k < |kept|
    ensures ClippedAll(kept[..k + 1], min, max) == ClippedAll(kept[..k], min, max) + [ClippedEvent(kept[k], min, max)]
  {
  }

  lemma ReleasesStep(done: seq<ControlEvent>, x: ControlEvent)
    ensures Releases(done + [x]) == Releases(done) + if x.NoteOn? then [Release(x)] else []
  {
    assert (done + [x])[..|done|] == done;
  }

  /** With `done` before the rest of s from k and then `after`, the element
      at |done| is s[k]; leaving it, or overwriting it and appending to the
      end, moves it into the finished prefix. */
  lemma PlaceAndAppend<T>(done: seq<T>, s: seq<T>, k: nat, after: seq<T>)
    requires k < |s|
    ensures var w := done + s[k..] + after;
      w[|done|] == s[k] && w == (done + [s[k]]) + s[k + 1..] + after &&
      forall x, y :: w[|done| := x] + y == (done + [x]) + s[k + 1..] + (after + y)
  {
    var w := done + s[k..] + after;
    forall x, y
      ensures w[|done| := x] + y == (done + [x]) + s[k + 1..] + (after + y)
    {
      assert w[|done| := x] == done + [x] + s[k + 1..] + after;
    }
  }

  /** Clip(midi, min, max): every channel of every track clipped. */
  method Clip(m: Model, min: real, max: real) returns (r: Model)
    requires WellFormed(m)
    ensures WellFormed(r) && r == m.(tracks := r.tracks) && |r.tracks| == |m.tracks|
    ensures forall t :: 0 <= t < |m.tracks| ==>
      r.tracks[t].meta == m.tracks[t].meta && |r.tracks[t].channels| == |m.tracks[t].channels|
    ensures forall t, c :: 0 <= t < |m.tracks| && 0 <= c < |m.tracks[t].channels| ==>
      r.tracks[t].channels[c] == m.tracks[t].channels[c].(events := ClippedEvents(m.tracks[t].channels[c].events, min, max))
  {
    var tracks: seq<Track> := [];
    for t := 0 to |m.tracks|
      invariant |tracks| == t
      invariant forall k :: 0 <= k < t ==> tracks[k].meta == m.tracks[k].meta
      invariant forall k :: 0 <= k < t ==> |tracks[k].channels| == |m.tracks[k].channels|
      invariant forall k, c :: 0 <= k < t && 0 <= c < |m.tracks[k].channels| ==>
        tracks[k].channels[c] == m.tracks[k].channels[c].(events := ClippedEvents(m.tracks[k].channels[c].events, min, max))
    {
      var source := m.tracks[t];
      var channels: seq<Channel> := [];
      for c := 0 to |source.channels|
        invariant |channels| == c
        invariant forall k :: 0 <= k < c ==>
          channels[k] == source.channels[k].(events := ClippedEvents(source.channels[k].events, min, max))
      {
        var events := ClipChannel(source.channels[c].events, min, max);
        channels := channels + [source.channels[c].(events := events)];
      }
      tracks := tracks + [source.(channels := channels)];
    }
    r := m.(tracks := tracks);
    forall tr | tr in r.tracks
      ensures WellFormedTrack(tr)
    {
      var k :| 0 <= k < |tracks| && tracks[k] == tr;
      assert m.tracks[k] in m.tracks;
    }
  }
}
