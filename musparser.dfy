/** ModelToMusicEvents.Parse: the notes of an analysed model are quantized
    to frames of `frameRateMillis` milliseconds, gathered into one
    NoteCluster per frame together with the ends of the notes that stop
    sounding there, and handed to WriteClusters. The hold tables count
    down the frames each sounding note and percussion hit has left. */
module MusParser {
  import opened Wrappers
  import opened MathExt
  import opened Instruments
  import opened Events
  import opened Tracks
  import opened Ordering
  import opened NoteClusters
  import opened MusRecords
  import opened MusWriter
  import BeatNotes
  import ClusterRanges

  /** The frame length of a beat's worth of ticks, msPerBeat. */
  const MsPerBeat := 600
  /** No note or hit is held longer than 4800 ms. */
  const MaxHoldMillis := 4800
  /** A repeated pitch restrikes the held note once 400 ms have passed. */
  const RestrikeMillis := 400
  /** The second dimension of noteHold, and the length of percussionHold. */
  const Pitches := 128
  /** noteHold[ch, p] is entry ch * Pitches + p of the flattened table. */
  const HoldSlots := NumberOfChannels * Pitches

  // ---------------------------------------------------------------------
  // GetNotes

  /** The Where of GetNotes keeps a note when it is audible and its
      instrument's cluster is a musical one. */
  predicate Heard(n: ControlEvent)
  {
    n.NoteOn? && n.volume > 0 && n.instrument.Some? && Cluster(n.instrument.value) != Nonmusical
  }

  /** An audible note with no instrument assigned: asking for its cluster
      dereferences null. The volume test comes first, so a silent note
      never gets that far. */
  predicate Unassigned(n: ControlEvent)
  {
    n.NoteOn? && n.volume > 0 && n.instrument.None?
  }

  /** The Where of GetNotes over a list of notes, in order. */
  function Audible(ns: seq<ControlEvent>): (r: Result<seq<ControlEvent>>)
    ensures r.Fail? ==> r.failure == NullReference
    ensures r.Ok? ==> |r.value| <= |ns|
  {
    if ns == [] then Ok([])
    else
      match Audible(ns[..|ns| - 1])
      case Fail(e) => Fail(e)
      case Ok(kept) =>
        var n := ns[|ns| - 1];
        if Unassigned(n) then Fail(NullReference)
        else if Heard(n) then Ok(kept + [n])
        else Ok(kept)
  }

  /** The filter throws exactly when some audible note has no instrument,
      and otherwise keeps exactly the notes that are heard. */
  lemma {:induction false} AudibleKeepsHeard(ns: seq<ControlEvent>)
    ensures Audible(ns).Fail? <==> exists k :: 0 <= k < |ns| && Unassigned(ns[k])
    ensures Audible(ns).Ok? ==> forall x :: x in Audible(ns).value <==> x in ns && Heard(x)
  {
    if ns != [] {
      var n := |ns| - 1;
      var init := ns[..n];
      AudibleKeepsHeard(init);
      assert ns == init + [ns[n]];
      if Audible(init).Fail? {
        var k :| 0 <= k < n && Unassigned(init[k]);
        assert ns[k] == init[k];
      } else {
        assert forall k :: 0 <= k < n ==> ns[k] == init[k];
      }
    }
  }

  /** GetNotes: the heard notes of the model ordered by onset, equal
      onsets in LinqToMidi order. */
  function GetNotes(m: Model): (r: Result<seq<ControlEvent>>)
    ensures r.Fail? ==> r.failure == NullReference
  {
    match Audible(Notes(ControlEvents(m)))
    case Fail(e) => Fail(e)
    case Ok(kept) => Ok(Arranged(kept, StableSort(TimesOf(kept))))
  }

  /** GetNotes throws exactly when an audible note lacks an instrument;
      otherwise it returns every heard note of the model and nothing else,
      in onset order. */
  lemma GetNotesSpec(m: Model)
    ensures GetNotes(m).Fail? <==> exists k :: 0 <= k < |Notes(ControlEvents(m))| && Unassigned(Notes(ControlEvents(m))[k])
    ensures GetNotes(m).Ok? ==> var ns := GetNotes(m).value;
      (forall x :: x in ns <==> x in ControlEvents(m) && Heard(x)) &&
      (forall a, b :: 0 <= a < b < |ns| ==> ns[a].time <= ns[b].time)
  {
    var notes := Notes(ControlEvents(m));
    AudibleKeepsHeard(notes);
    assert GetNotes(m).Fail? <==> Audible(notes).Fail?;
    NotesOfEvents(ControlEvents(m));
    if Audible(notes).Fail? {
      assert GetNotes(m).Fail?;
      assert exists k :: 0 <= k < |Notes(ControlEvents(m))| && Unassigned(Notes(ControlEvents(m))[k]);
    } else {
      assert !exists k :: 0 <= k < |notes| && Unassigned(notes[k]);
      var kept := Audible(notes).value;
      var order := StableSort(TimesOf(kept));
      ArrangedMembers(kept, TimesOf(kept), order);
      var ns := Arranged(kept, order);
      forall a, b | 0 <= a < b < |ns| ensures ns[a].time <= ns[b].time {
        StableOrderMonotone(TimesOf(kept), order, a, b);
      }
    }
  }

  /** EventsOfType<NoteOn> keeps exactly the NoteOn events. */
  lemma {:induction false} NotesOfEvents(es: seq<ControlEvent>)
    ensures forall x :: x in Notes(es) <==> x in es && x.NoteOn?
  {
    if es != [] {
      var n := |es| - 1;
      NotesOfEvents(es[..n]);
      assert es == es[..n] + [es[n]];
    }
  }

  // ---------------------------------------------------------------------
  // GetPairs

  /** The delta of one note: the frames from the previous note's frame to
      this onset, plus a half, cast to int. GetPairs' `time` is always a
      whole number of frames, `frames` * f milliseconds after the offset. */
  function Delta(t: real, offset: real, frames: int, f: int): int
    requires f > 0
  {
    Trunc((t - offset - (frames * f) as real) / f as real + 0.5)
  }

  /** The deltas GetPairs pairs with the onsets ts, the previous note
      placed `frames` frames after the offset. */
  function Deltas(ts: seq<real>, f: int, offset: real, frames: int): (ds: seq<int>)
    requires f > 0
    ensures |ds| == |ts|
    decreases |ts|
  {
    if ts == [] then []
    else
      var d := Delta(ts[0], offset, frames, f);
      [d] + Deltas(ts[1..], f, offset, frames + d)
  }

  /** GetPairs: each note with its delta, in the order given. The error
      estimate it also returns is discarded by Parse and not modelled. */
  method GetPairs(notes: seq<ControlEvent>, f: int, offset: real) returns (pairs: seq<(ControlEvent, int)>)
    requires f > 0
    ensures |pairs| == |notes|
    ensures forall k :: 0 <= k < |notes| ==> pairs[k] == (notes[k], Deltas(TimesOf(notes), f, offset, 0)[k])
    ensures pairs == Paired(notes, f, offset)
  {
    var ts := TimesOf(notes);
    ghost var ds: seq<int> := [];
    ghost var frames := 0;
    ghost var rest := ts;
    pairs := [];
    var time := 0.0;
    for i := 0 to |notes|
      invariant |pairs| == |ds| == i
      invariant time == (frames * f) as real
      invariant rest == ts[i..] && ds + Deltas(rest, f, offset, frames) == Deltas(ts, f, offset, 0)
      invariant forall k :: 0 <= k < i ==> pairs[k] == (notes[k], ds[k])
    {
      var d := Trunc((notes[i].time - offset - time) / f as real + 0.5);
      assert d == Delta(rest[0], offset, frames, f);
      DeltasStep(ds, rest, f, offset, frames, Deltas(ts, f, offset, 0));
      FramesTime(frames, d, f);
      rest := rest[1..];
      time := time + (d * f) as real;
      pairs := pairs + [(notes[i], d)];
      ds := ds + [d];
      frames := frames + d;
      assert time == (frames * f) as real && rest == ts[i + 1..];
      assert ds + Deltas(rest, f, offset, frames) == Deltas(ts, f, offset, 0);
      assert forall k :: 0 <= k < i + 1 ==> pairs[k] == (notes[k], ds[k]);
    }
  }

  /** Each note with its delta, as GetPairs returns them. */
  function Paired(notes: seq<ControlEvent>, f: int, offset: real): (pairs: seq<(ControlEvent, int)>)
    requires f > 0
    ensures |pairs| == |notes| && forall k :: 0 <= k < |notes| ==> pairs[k].0 == notes[k]
  {
    var ds := Deltas(TimesOf(notes), f, offset, 0);
    seq(|notes|, k requires 0 <= k < |notes| => (notes[k], ds[k]))
  }

  /** One more note: its delta joins those already paired. */
  lemma DeltasStep(ds: seq<int>, rest: seq<real>, f: int, offset: real, frames: int, whole: seq<int>)
    requires f > 0 && rest != []
    requires ds + Deltas(rest, f, offset, frames) == whole
    ensures var d := Delta(rest[0], offset, frames, f);
      (ds + [d]) + Deltas(rest[1..], f, offset, frames + d) == whole
  {
    var d := Delta(rest[0], offset, frames, f);
    MoveFirst(ds, Deltas(rest, f, offset, frames), d, Deltas(rest[1..], f, offset, frames + d), whole);
  }

  /** Moving the first element of the tail to the end of the head. */
  lemma MoveFirst<T>(head: seq<T>, tail: seq<T>, x: T, rest: seq<T>, whole: seq<T>)
    requires head + tail == whole && tail == [x] + rest
    ensures (head + [x]) + rest == whole
  {
    assert head + ([x] + rest) == (head + [x]) + rest;
  }

  lemma FramesTime(frames: int, d: int, f: int)
    ensures (frames * f) as real + (d * f) as real == ((frames + d) * f) as real
  {
    assert (frames + d) * f == frames * f + d * f;
  }

  /** The frame each note is placed in: the previous one's plus its delta. */
  function PlacedFrames(ts: seq<real>, f: int, offset: real, frames: int): (ps: seq<int>)
    requires f > 0
    ensures |ps| == |ts|
    decreases |ts|
  {
    if ts == [] then []
    else
      var next := frames + Delta(ts[0], offset, frames, f);
      [next] + PlacedFrames(ts[1..], f, offset, next)
  }

  /** The frame is the one nearest the onset t: the onset, in frames after
      the offset, is within half a frame of it. */
  predicate NearestFrame(t: real, offset: real, f: int, frame: int)
    requires f > 0
  {
    -0.5 <= (t - offset) / f as real - frame as real < 0.5
  }

  /** Every delta is non-negative and every note is placed in the frame
      nearest its onset. */
  predicate Quantized(ts: seq<real>, ds: seq<int>, ps: seq<int>, f: int, offset: real)
    requires f > 0
  {
    |ds| == |ts| && |ps| == |ts| &&
    forall k :: 0 <= k < |ts| ==> ds[k] >= 0 && NearestFrame(ts[k], offset, f, ps[k])
  }

  /** The delta measured in frames: the onset's frames after the offset,
      less the previous note's frame, plus a half, cast to int. */
  lemma DeltaInFrames(t: real, offset: real, frames: int, f: int)
    requires f > 0
    ensures Delta(t, offset, frames, f) == Trunc((t - offset) / f as real - frames as real + 0.5)
  {
    var F := f as real;
    assert (frames * f) as real == frames as real * F;
    assert (t - offset - frames as real * F) / F == (t - offset) / F - frames as real;
  }

  lemma DivMono(a: real, b: real, c: real)
    requires a <= b && c > 0.0
    ensures a / c <= b / c
  {
  }

  /** On onsets in order, the first no more than half a frame before the
      frame `frames`, every delta is non-negative and every note is placed
      in the frame nearest its onset. */
  lemma {:induction false} DeltasTrackOnsets(ts: seq<real>, f: int, offset: real, frames: int)
    requires f > 0
    requires forall a, b :: 0 <= a < b < |ts| ==> ts[a] <= ts[b]
    requires ts != [] ==> (ts[0] - offset) / f as real - frames as real >= -0.5
    ensures Quantized(ts, Deltas(ts, f, offset, frames), PlacedFrames(ts, f, offset, frames), f, offset)
    decreases |ts|
  {
    if ts != [] {
      var d := Delta(ts[0], offset, frames, f);
      DeltaInFrames(ts[0], offset, frames, f);
      var next := frames + d;
      var rest := ts[1..];
      if rest != [] {
        DivMono(ts[0] - offset, ts[1] - offset, f as real);
      }
      DeltasTrackOnsets(rest, f, offset, next);
      var ds := [d] + Deltas(rest, f, offset, next);
      var ps := [next] + PlacedFrames(rest, f, offset, next);
      assert Deltas(ts, f, offset, frames) == ds;
      assert PlacedFrames(ts, f, offset, frames) == ps;
      forall k | 0 <= k < |ts|
        ensures ds[k] >= 0 && NearestFrame(ts[k], offset, f, ps[k])
      {
        if k != 0 {
          assert ts[k] == rest[k - 1];
        }
      }
    }
  }

  /** Note k is placed the first k + 1 deltas after `frames`. */
  lemma {:induction false} PlacedFramesSum(ts: seq<real>, f: int, offset: real, frames: int)
    requires f > 0
    ensures forall k :: 0 <= k < |ts| ==>
      PlacedFrames(ts, f, offset, frames)[k] == frames + IntSum(Deltas(ts, f, offset, frames)[..k + 1])
    decreases |ts|
  {
    if ts != [] {
      var d := Delta(ts[0], offset, frames, f);
      var next := frames + d;
      var rest := ts[1..];
      PlacedFramesSum(rest, f, offset, next);
      var tail := Deltas(rest, f, offset, next);
      var ds := [d] + tail;
      var ps := [next] + PlacedFrames(rest, f, offset, next);
      assert Deltas(ts, f, offset, frames) == ds;
      assert PlacedFrames(ts, f, offset, frames) == ps;
      forall k | 0 <= k < |ts|
        ensures ps[k] == frames + IntSum(ds[..k + 1])
      {
        if k != 0 {
          assert ds[..k + 1] == [d] + tail[..k];
        } else {
          assert ds[..1] == [d];
        }
      }
    }
  }

  /** The sum of a list of integers, from the front. */
  function IntSum(s: seq<int>): int
  {
    if s == [] then 0 else s[0] + IntSum(s[1..])
  }

  /** The offset of the first frame: the first onset, cast to int, divided
      down (toward zero) to a whole 600 ms beat. */
  function Offset(t0: real): (o: int)
    ensures t0 >= 0.0 ==> 0 <= o && o as real <= t0 < o as real + MsPerBeat as real
  {
    TruncDiv(Trunc(t0), MsPerBeat) * MsPerBeat
  }

  /** GetPairs as Parse calls it: every delta is non-negative and every
      note lands within half a frame of its onset, when the first onset is
      not negative. */
  lemma PairsTrackOnsets(notes: seq<ControlEvent>, f: int)
    requires f > 0 && notes != [] && notes[0].time >= 0.0
    requires forall a, b :: 0 <= a < b < |notes| ==> notes[a].time <= notes[b].time
    ensures var offset := Offset(notes[0].time) as real;
      var ts := TimesOf(notes);
      Quantized(ts, Deltas(ts, f, offset, 0), PlacedFrames(ts, f, offset, 0), f, offset)
  {
    var ts := TimesOf(notes);
    var offset := Offset(notes[0].time) as real;
    DivMono(0.0, ts[0] - offset, f as real);
    DeltasTrackOnsets(ts, f, offset, 0);
  }

  // ---------------------------------------------------------------------
  // Pitch ranges, the octave wrap and hold lengths

  /** The pitch range of channel ch: that of the cluster whose enum value
      ch is. Only the eleven musical clusters have one. */
  function ChannelRange(ch: int): (r: (int, int))
    requires 0 <= ch <= 10
    ensures r.0 == LowestPitch(ch).value && 24 <= r.0 && r.0 + 18 <= r.1 <= 84
  {
    var c := ChannelCluster(ch).value;
    assert ClusterNumber(Nonmusical) == 11;
    ClusterRanges.RangesWellFormed(c);
    (ClusterRanges.Min(c).value, ClusterRanges.Max(c).value)
  }

  /** A note of channel ch at this pitch can be written and read back. */
  predicate InRange(ch: int, pitch: int)
  {
    0 <= ch <= 10 && ChannelRange(ch).0 <= pitch <= ChannelRange(ch).1
  }

  /** The channel of a musical cluster is its enum value, and its range is
      the cluster's. */
  lemma ClusterChannel(c: InstrumentCluster)
    requires c != Nonmusical
    ensures ClusterNumber(c) <= 10
    ensures ChannelRange(ClusterNumber(c)) == (ClusterRanges.Min(c).value, ClusterRanges.Max(c).value)
  {
    assert ClusterNumber(Nonmusical) == 11;
    if ClusterNumber(c) == 11 {
      ClusterNumberInjective(c, Nonmusical);
    }
    ClusterNumberInjective(c, ChannelCluster(ClusterNumber(c)).value);
  }

  /** The two while loops of Parse in closed form: a pitch above the range
      comes down by whole octaves to the highest pitch of its class in the
      range, one below goes up to the lowest, one inside stays. */
  function Wrapped(pitch: int, c: InstrumentCluster): (q: int)
    requires c != Nonmusical
    ensures ClusterRanges.Min(c).value <= q <= ClusterRanges.Max(c).value
    ensures (pitch - q) % 12 == 0
    ensures pitch > ClusterRanges.Max(c).value ==> q > ClusterRanges.Max(c).value - 12
    ensures pitch < ClusterRanges.Min(c).value ==> q < ClusterRanges.Min(c).value + 12
    ensures ClusterRanges.Min(c).value <= pitch <= ClusterRanges.Max(c).value ==> q == pitch
  {
    var lo, hi := ClusterRanges.Min(c).value, ClusterRanges.Max(c).value;
    ClusterRanges.RangesWellFormed(c);
    if pitch > hi then
      var k := (pitch - hi + 11) / 12;
      OctavesDown(pitch, hi, k);
      pitch - 12 * k
    else if pitch < lo then
      var k := (lo - pitch + 11) / 12;
      OctavesUp(pitch, lo, k);
      pitch + 12 * k
    else pitch
  }

  /** k octaves down bring a pitch above hi to within an octave below it. */
  lemma OctavesDown(pitch: int, hi: int, k: int)
    requires pitch > hi && k == (pitch - hi + 11) / 12
    ensures hi - 12 < pitch - 12 * k <= hi && (pitch - (pitch - 12 * k)) % 12 == 0
  {
    assert pitch - hi + 11 == 12 * k + (pitch - hi + 11) % 12;
  }

  /** k octaves up bring a pitch below lo to within an octave above it. */
  lemma OctavesUp(pitch: int, lo: int, k: int)
    requires pitch < lo && k == (lo - pitch + 11) / 12
    ensures lo <= pitch + 12 * k < lo + 12 && (pitch - (pitch + 12 * k)) % 12 == 0
  {
    assert lo - pitch + 11 == 12 * k + (lo - pitch + 11) % 12;
  }

  /** while (pitch > Max) pitch -= 12; while (pitch < Min) pitch += 12. */
  method WrapPitch(pitch0: int, c: InstrumentCluster) returns (pitch: int)
    requires c != Nonmusical
    ensures pitch == Wrapped(pitch0, c)
  {
    var lo, hi := ClusterRanges.Min(c).value, ClusterRanges.Max(c).value;
    ClusterRanges.RangesWellFormed(c);
    pitch := pitch0;
    ghost var octaves := 0;
    while pitch > hi
      invariant pitch == pitch0 - 12 * octaves
      invariant pitch0 > hi ==> pitch > hi - 12
      invariant pitch0 <= hi ==> pitch == pitch0
      decreases pitch - hi
    {
      pitch, octaves := pitch - 12, octaves + 1;
    }
    while pitch < lo
      invariant pitch == pitch0 - 12 * octaves && pitch <= hi
      invariant pitch0 > hi ==> pitch > hi - 12
      invariant pitch0 < lo ==> pitch < lo + 12
      invariant lo <= pitch0 <= hi ==> pitch == pitch0
      decreases lo - pitch
    {
      pitch, octaves := pitch + 12, octaves - 1;
    }
    WholeOctaves(pitch0, pitch, octaves);
    ghost var q := Wrapped(pitch0, c);
    WrappedWindow(pitch0, c, lo, hi, q);
    WrapsAgree(pitch0, pitch, q, lo, hi);
  }

  lemma WrappedWindow(pitch0: int, c: InstrumentCluster, lo: int, hi: int, q: int)
    requires c != Nonmusical && lo == ClusterRanges.Min(c).value && hi == ClusterRanges.Max(c).value
    requires q == Wrapped(pitch0, c)
    ensures (pitch0 - q) % 12 == 0 && lo <= q <= hi
    ensures pitch0 > hi ==> q > hi - 12
    ensures pitch0 < lo ==> q < lo + 12
    ensures lo <= pitch0 <= hi ==> q == pitch0
  {
  }

  lemma WholeOctaves(pitch0: int, pitch: int, octaves: int)
    requires pitch == pitch0 - 12 * octaves
    ensures (pitch0 - pitch) % 12 == 0
  {
    assert pitch0 - pitch == 12 * octaves;
  }

  /** Two results of wrapping the same pitch into [lo, hi] agree. */
  lemma WrapsAgree(pitch0: int, p: int, q: int, lo: int, hi: int)
    requires (pitch0 - p) % 12 == 0 && (pitch0 - q) % 12 == 0
    requires lo <= p <= hi && lo <= q <= hi
    requires pitch0 > hi ==> p > hi - 12 && q > hi - 12
    requires pitch0 < lo ==> p < lo + 12 && q < lo + 12
    requires lo <= pitch0 <= hi ==> p == pitch0 && q == pitch0
    ensures p == q
  {
    if pitch0 > hi || pitch0 < lo {
      SameClassSameWindow(p, q, pitch0);
    }
  }

  /** Two pitches of one class less than an octave apart are the same. */
  lemma SameClassSameWindow(p: int, q: int, r: int)
    requires (r - p) % 12 == 0 && (r - q) % 12 == 0 && -12 < p - q < 12
    ensures p == q
  {
    var a, b := (r - p) / 12, (r - q) / 12;
    assert r - p == 12 * a && r - q == 12 * b;
    assert q - p == 12 * (a - b);
  }

  /** The frames a note or hit is held: its length in frames, rounded half
      up by the (int) cast, at most 4800 ms' worth and at least one. */
  function HoldLength(realLength: real, f: int): (n: int)
    requires f > 0
    ensures 1 <= n
    ensures f <= MaxHoldMillis ==> n <= MaxHoldMillis / f
    ensures var rounded := Trunc(realLength / f as real + 0.5);
      1 <= rounded <= MaxHoldMillis / f ==> n == rounded
  {
    var length := Trunc(realLength / f as real + 0.5);
    var capped := if length > MaxHoldMillis / f then MaxHoldMillis / f else length;
    if capped <= 0 then 1 else capped
  }

  // ---------------------------------------------------------------------
  // The hold tables

  /** One entry of noteHold: the frames the note has left to sound, the
      cluster it started in, and its loudness. */
  datatype Hold = Hold(length: int, startIndex: int, volume: real)

  /** One frame off a hold, when it has any left. */
  function Tick(h: Hold): (t: Hold)
    ensures t.startIndex == h.startIndex && t.volume == h.volume
    ensures h.length >= 1 ==> t.length == h.length - 1
    ensures h.length < 1 ==> t == h
  {
    if h.length >= 1 then h.(length := h.length - 1) else h
  }

  /** Every entry of the note table one frame on. */
  function Ticked(hs: seq<Hold>): (r: seq<Hold>)
    ensures |r| == |hs| && forall k :: 0 <= k < |hs| ==> r[k] == Tick(hs[k])
  {
    seq(|hs|, k requires 0 <= k < |hs| => Tick(hs[k]))
  }

  /** Every entry of the percussion table one frame on. */
  function TickedDrums(ps: seq<int>): (r: seq<int>)
    ensures |r| == |ps| && forall k :: 0 <= k < |ps| ==> r[k] == if ps[k] >= 1 then ps[k] - 1 else ps[k]
  {
    seq(|ps|, k requires 0 <= k < |ps| => if ps[k] >= 1 then ps[k] - 1 else ps[k])
  }

  /** The note ends of one pass over the note table, in the order of the
      nested loops: slot k is channel k / 128, pitch k % 128, and the notes
      with one frame left end. */
  function Expiring(hs: seq<Hold>): seq<NoteEnd>
    requires |hs| <= HoldSlots
  {
    if hs == [] then []
    else
      var n := |hs| - 1;
      Expiring(hs[..n]) + if hs[n].length == 1 then [NoteEnd(n % Pitches, n / Pitches)] else []
  }

  /** The percussion ends of one pass over the percussion table. */
  function ExpiringDrums(ps: seq<int>): seq<PercussionEnd>
    requires |ps| <= Pitches
  {
    if ps == [] then []
    else
      var n := |ps| - 1;
      ExpiringDrums(ps[..n]) + if ps[n] == 1 then [PercussionEnd(n)] else []
  }

  /** Slot k of the note table holds channel k / 128, pitch k % 128. */
  function Slot(channel: int, pitch: int): int
  {
    channel * Pitches + pitch
  }

  /** A slot gives back its channel and pitch. */
  lemma SlotParts(channel: int, pitch: int)
    requires 0 <= pitch < Pitches
    ensures Slot(channel, pitch) / Pitches == channel && Slot(channel, pitch) % Pitches == pitch
  {
  }

  /** Setting one entry to a valid hold keeps the note table valid. */
  lemma SetHoldKeeps(hs: seq<Hold>, n: int, slot: int, h: Hold)
    requires HoldsValid(hs, n) && 0 <= slot < |hs| && SlotValid(h, slot, n)
    ensures HoldsValid(hs[slot := h], n)
  {
  }

  /** A note ends in the pass exactly when its slot had one frame left. */
  lemma {:induction false} ExpiringEnds(hs: seq<Hold>)
    requires |hs| <= HoldSlots
    ensures forall k :: 0 <= k < |hs| ==> (NoteEnd(k % Pitches, k / Pitches) in Expiring(hs) <==> hs[k].length == 1)
  {
    if hs != [] {
      var n := |hs| - 1;
      ExpiringEnds(hs[..n]);
      forall k | 0 <= k < |hs| ensures NoteEnd(k % Pitches, k / Pitches) in Expiring(hs) <==> hs[k].length == 1 {
        if k != n {
          assert hs[..n][k] == hs[k];
          assert NoteEnd(k % Pitches, k / Pitches) != NoteEnd(n % Pitches, n / Pitches);
        } else {
          ExpiringFromSlots(hs[..n]);
          assert Slot(n / Pitches, n % Pitches) == n;
        }
      }
    }
  }

  /** Every note end of the pass comes from a slot with one frame left. */
  lemma {:induction false} ExpiringFromSlots(hs: seq<Hold>)
    requires |hs| <= HoldSlots
    ensures forall e :: e in Expiring(hs) ==>
      e.pitch < Pitches && Slot(e.channel as int, e.pitch as int) < |hs| && hs[Slot(e.channel as int, e.pitch as int)].length == 1
  {
    if hs != [] {
      var n := |hs| - 1;
      ExpiringFromSlots(hs[..n]);
      assert Slot(n / Pitches, n % Pitches) == n;
    }
  }

  /** A percussion end in the pass exactly when the drum had one frame left. */
  lemma {:induction false} ExpiringDrumEnds(ps: seq<int>)
    requires |ps| <= Pitches
    ensures forall k :: 0 <= k < |ps| ==> (PercussionEnd(k) in ExpiringDrums(ps) <==> ps[k] == 1)
    ensures forall e :: e in ExpiringDrums(ps) ==> e.drum < |ps| && ps[e.drum] == 1
  {
    if ps != [] {
      var n := |ps| - 1;
      ExpiringDrumEnds(ps[..n]);
      forall k | 0 <= k < |ps| ensures PercussionEnd(k) in ExpiringDrums(ps) <==> ps[k] == 1 {
        if k != n {
          assert ps[..n][k] == ps[k];
        }
      }
    }
  }

  /** Some entry of either table has a frame left. */
  predicate AnyHeld(hs: seq<Hold>, ps: seq<int>)
  {
    (exists k :: 0 <= k < |hs| && hs[k].length >= 1) || (exists k :: 0 <= k < |ps| && ps[k] >= 1)
  }

  /** The tick-down loop over the note table: notes with one frame left
      end, every entry with frames left loses one, and the result says
      whether any had frames left. */
  method TickNotes(noteHold: array<Hold>) returns (noteEnds: seq<NoteEnd>, any: bool)
    requires noteHold.Length == HoldSlots
    modifies noteHold
    ensures noteHold[..] == Ticked(old(noteHold[..])) && noteEnds == Expiring(old(noteHold[..]))
    ensures any <==> exists k :: 0 <= k < HoldSlots && old(noteHold[..])[k].length >= 1
  {
    ghost var hs := noteHold[..];
    noteEnds := [];
    any := false;
    for k := 0 to HoldSlots
      invariant forall j :: 0 <= j < k ==> noteHold[j] == Tick(hs[j])
      invariant forall j :: k <= j < HoldSlots ==> noteHold[j] == hs[j]
      invariant noteEnds == Expiring(hs[..k])
      invariant any <==> exists j :: 0 <= j < k && hs[j].length >= 1
    {
      var h := noteHold[k];
      if h.length == 1 {
        noteEnds := noteEnds + [NoteEnd(k % Pitches, k / Pitches)];
      }
      if h.length >= 1 {
        noteHold[k] := h.(length := h.length - 1);
        any := true;
      }
      assert hs[..k + 1][..k] == hs[..k];
    }
    assert hs[..HoldSlots] == hs;
  }

  /** The tick-down loop over the percussion table. */
  method TickDrums(percussionHold: array<int>) returns (percussionEnds: seq<PercussionEnd>, any: bool)
    requires percussionHold.Length == Pitches
    modifies percussionHold
    ensures percussionHold[..] == TickedDrums(old(percussionHold[..])) && percussionEnds == ExpiringDrums(old(percussionHold[..]))
    ensures any <==> exists k :: 0 <= k < Pitches && old(percussionHold[..])[k] >= 1
  {
    ghost var ps := percussionHold[..];
    percussionEnds := [];
    any := false;
    for k := 0 to Pitches
      invariant forall j :: 0 <= j < k ==> percussionHold[j] == if ps[j] >= 1 then ps[j] - 1 else ps[j]
      invariant forall j :: k <= j < Pitches ==> percussionHold[j] == ps[j]
      invariant percussionEnds == ExpiringDrums(ps[..k])
      invariant any <==> exists j :: 0 <= j < k && ps[j] >= 1
    {
      var p := percussionHold[k];
      if p == 1 {
        percussionEnds := percussionEnds + [PercussionEnd(k)];
      }
      if p >= 1 {
        percussionHold[k] := p - 1;
        any := true;
      }
      assert ps[..k + 1][..k] == ps[..k];
    }
    assert ps[..Pitches] == ps;
  }

  /** When no entry has a frame left, the pass ends nothing. */
  lemma {:induction false} NothingExpires(hs: seq<Hold>, ps: seq<int>)
    requires |hs| <= HoldSlots && |ps| <= Pitches && !AnyHeld(hs, ps)
    ensures Expiring(hs) == [] && ExpiringDrums(ps) == []
    decreases |hs| + |ps|
  {
    if hs != [] {
      NothingExpires(hs[..|hs| - 1], []);
    }
    if ps != [] {
      NothingExpires([], ps[..|ps| - 1]);
    }
  }

  /** The last frame has nothing starting or ending in it. */
  predicate EndsSilent(cs: seq<NoteCluster>)
  {
    |cs| > 0 && IsEmpty(cs[|cs| - 1])
  }

  /** Nothing is held any more. */
  predicate Silent(hs: seq<Hold>, ps: seq<int>)
  {
    (forall k :: 0 <= k < |hs| ==> hs[k].length == 0) && (forall k :: 0 <= k < |ps| ==> ps[k] == 0)
  }

  /** A pass over tables with nothing left to sound leaves them silent. */
  lemma SilentAfterTick(hs: seq<Hold>, ps: seq<int>)
    requires (forall k :: 0 <= k < |hs| ==> hs[k].length >= 0) && (forall k :: 0 <= k < |ps| ==> ps[k] >= 0)
    requires !AnyHeld(hs, ps)
    ensures Silent(Ticked(hs), TickedDrums(ps))
  {
  }

  /** The frames left in the note table, all entries together. */
  function Total(hs: seq<Hold>): int
  {
    if hs == [] then 0 else Total(hs[..|hs| - 1]) + hs[|hs| - 1].length
  }

  /** The frames left in the percussion table. */
  function DrumTotal(ps: seq<int>): int
  {
    if ps == [] then 0 else DrumTotal(ps[..|ps| - 1]) + ps[|ps| - 1]
  }

  /** A pass over a table whose entries are not negative leaves them not
      negative, and takes a frame off the total when any entry had one. */
  lemma {:induction false} TickedTotal(hs: seq<Hold>)
    requires forall k :: 0 <= k < |hs| ==> hs[k].length >= 0
    ensures 0 <= Total(Ticked(hs)) <= Total(hs)
    ensures 0 <= Total(hs)
    ensures (exists k :: 0 <= k < |hs| && hs[k].length >= 1) ==> Total(Ticked(hs)) < Total(hs)
  {
    if hs != [] {
      var n := |hs| - 1;
      TickedTotal(hs[..n]);
      assert Ticked(hs)[..n] == Ticked(hs[..n]);
      if exists k :: 0 <= k < |hs| && hs[k].length >= 1 {
        var k :| 0 <= k < |hs| && hs[k].length >= 1;
        if k != n {
          assert hs[..n][k] == hs[k];
        }
      }
    }
  }

  lemma {:induction false} TickedDrumTotal(ps: seq<int>)
    requires forall k :: 0 <= k < |ps| ==> ps[k] >= 0
    ensures 0 <= DrumTotal(TickedDrums(ps)) <= DrumTotal(ps)
    ensures 0 <= DrumTotal(ps)
    ensures (exists k :: 0 <= k < |ps| && ps[k] >= 1) ==> DrumTotal(TickedDrums(ps)) < DrumTotal(ps)
  {
    if ps != [] {
      var n := |ps| - 1;
      TickedDrumTotal(ps[..n]);
      assert TickedDrums(ps)[..n] == TickedDrums(ps[..n]);
      if exists k :: 0 <= k < |ps| && ps[k] >= 1 {
        var k :| 0 <= k < |ps| && ps[k] >= 1;
        if k != n {
          assert ps[..n][k] == ps[k];
        }
      }
    }
  }

  // ---------------------------------------------------------------------
  // What Parse keeps true

  predicate IsDrum(t: int)
  {
    PercussionMinNote <= t <= PercussionMaxNote
  }

  /** Every note of the cluster is in its channel's range and every hit is
      a drum of the percussion range, so every record written for it can
      be read back; and no drum starts twice in one frame. */
  predicate Playable(c: NoteCluster)
  {
    (forall s :: s in c.noteStarts ==> InRange(s.channel as int, s.pitch as int)) &&
    (forall e :: e in c.noteEnds ==> InRange(e.channel as int, e.pitch as int)) &&
    (forall p :: p in c.percussionStarts ==> IsDrum(p.drum as int)) &&
    (forall p :: p in c.percussionEnds ==> IsDrum(p.drum as int)) &&
    DrumsOnce(c.percussionStarts)
  }

  predicate DrumsOnce(ps: seq<PercussionStart>)
  {
    forall i, j :: 0 <= i < j < |ps| ==> ps[i].drum != ps[j].drum
  }

  predicate AllPlayable(cs: seq<NoteCluster>)
  {
    forall i :: 0 <= i < |cs| ==> Playable(cs[i])
  }

  /** A note is held only at a slot of a pitch in its channel's range, and
      from a cluster that exists. */
  predicate HoldsValid(hs: seq<Hold>, n: int)
  {
    |hs| == HoldSlots &&
    forall k :: 0 <= k < |hs| ==> SlotValid(hs[k], k, n)
  }

  predicate SlotValid(h: Hold, k: int, n: int)
  {
    h.length >= 0 && (h.length > 0 ==> InRange(k / Pitches, k % Pitches) && 0 <= h.startIndex < n)
  }

  /** A hit is held only for a drum of the percussion range. */
  predicate DrumsValid(ps: seq<int>)
  {
    |ps| == Pitches && forall k :: 0 <= k < |ps| ==> ps[k] >= 0 && (ps[k] > 0 ==> IsDrum(k))
  }

  predicate Valid(cs: seq<NoteCluster>, hs: seq<Hold>, ps: seq<int>)
  {
    |cs| > 0 && AllPlayable(cs) && HoldsValid(hs, |cs|) && DrumsValid(ps)
  }

  /** Playable clusters are clusters WriteClusters can write. */
  lemma PlayableWritable(cs: seq<NoteCluster>)
    requires AllPlayable(cs)
    ensures WritableClusters(cs)
  {
    forall i | 0 <= i < |cs| ensures WritableCluster(cs[i]) {
      var c := cs[i];
      assert forall k :: 0 <= k < |c.noteStarts| ==> c.noteStarts[k] in c.noteStarts;
      assert forall k :: 0 <= k < |c.noteEnds| ==> c.noteEnds[k] in c.noteEnds;
    }
  }

  // ---------------------------------------------------------------------
  // A new frame

  /** The beat of frame `frames`: Math.Min(frames / ticksPerBeat,
      metre.Length - 1). A zero ticksPerBeat divides by zero; a frame far
      enough before zero gives a negative index. */
  function BeatIndex(beats: nat, tpb: int, frames: int): (r: Result<nat>)
    requires beats > 0 && tpb >= 0
    ensures r.Ok? ==> tpb > 0 && r.value < beats
    ensures r.Fail? ==> r.failure == if tpb == 0 then DivideByZero else IndexOutOfRange
    ensures tpb > 0 && frames >= 0 ==> r.Ok?
  {
    if tpb == 0 then Fail(DivideByZero)
    else
      var q := TruncDiv(frames, tpb);
      var i := if q < beats - 1 then q else beats - 1;
      if i < 0 then Fail(IndexOutOfRange) else Ok(i)
  }

  /** The cluster of a new frame once the tick-down loops have added the
      ends of the notes and hits that stop there. */
  function FrameCluster(beat: MetaEvent, orderInBeat: int, hs: seq<Hold>, ps: seq<int>): NoteCluster
    requires beat.BeatEvent? && |hs| <= HoldSlots && |ps| <= Pitches
  {
    NewCluster(beat.length, beat.chord, orderInBeat).(noteEnds := Expiring(hs), percussionEnds := ExpiringDrums(ps))
  }

  /** One frame on: frames++, a new cluster with the beat's length and
      chord and the frame's place in the beat (frames % ticksPerBeat inside
      the note loop, frames % 12 in the final loop), then both tick-down
      loops. `frames` is the already incremented counter. */
  method AdvanceFrame(metre: seq<MetaEvent>, tpb: int, final: bool, frames: int, clusters: seq<NoteCluster>,
                      noteHold: array<Hold>, percussionHold: array<int>, ghost p: Progress)
    returns (r: Result<seq<NoteCluster>>, any: bool)
    requires |metre| > 0 && (forall k :: 0 <= k < |metre| ==> metre[k].BeatEvent?) && tpb >= 0
    requires noteHold.Length == HoldSlots && percussionHold.Length == Pitches
    requires p == Progress(clusters, noteHold[..], percussionHold[..], frames - 1)
    modifies noteHold, percussionHold
    ensures r.Ok? ==> NextFrame(metre, tpb, final, p) == Ok(Progress(r.value, noteHold[..], percussionHold[..], frames))
    ensures r.Fail? ==> NextFrame(metre, tpb, final, p) == Fail(r.failure)
    ensures r.Ok? ==> (any <==> AnyHeld(p.holds, p.drums))
  {
    var index := BeatIndex(|metre|, tpb, frames);
    if index.Fail? {
      return Fail(index.failure), false;
    }
    var beat := metre[index.value];
    var order := if final then TruncRem(frames, 12) else TruncRem(frames, tpb);
    var cluster := NewCluster(beat.length, beat.chord, order);
    var noteEnds, anyNote := TickNotes(noteHold);
    var drumEnds, anyDrum := TickDrums(percussionHold);
    cluster := cluster.(noteEnds := noteEnds, percussionEnds := drumEnds);
    r := Ok(clusters + [cluster]);
    any := anyNote || anyDrum;
  }

  /** A new frame keeps the clusters in range and the tables valid. */
  lemma AdvanceKeeps(cs: seq<NoteCluster>, hs: seq<Hold>, ps: seq<int>, beat: MetaEvent, order: int)
    requires Valid(cs, hs, ps) && beat.BeatEvent?
    ensures Valid(cs + [FrameCluster(beat, order, hs, ps)], Ticked(hs), TickedDrums(ps))
  {
    var c := FrameCluster(beat, order, hs, ps);
    ExpiringFromSlots(hs);
    ExpiringDrumEnds(ps);
    forall e | e in c.noteEnds ensures InRange(e.channel as int, e.pitch as int) {
      var k := Slot(e.channel as int, e.pitch as int);
      assert k / Pitches == e.channel as int && k % Pitches == e.pitch as int;
    }
    assert Playable(c);
    var cs' := cs + [c];
    assert forall i :: 0 <= i < |cs| ==> cs'[i] == cs[i];
  }

  // ---------------------------------------------------------------------
  // The percussion branch

  /** Whether a hit of drum t already starts in the cluster. */
  predicate HasDrum(ps: seq<PercussionStart>, t: int)
  {
    exists p :: p in ps && p.drum as int == t
  }

  /** The percussion branch of Parse: a drum outside 35..82, or one that
      already starts in the current cluster, is skipped; otherwise a hit of
      that drum still held ends in the current cluster, the drum is held
      for the note's length and a hit starts there, its volume relative to
      the average. */
  function DrumHit(note: ControlEvent, f: int, average: real, cs: seq<NoteCluster>, ps: seq<int>): (r: (seq<NoteCluster>, seq<int>))
    requires note.NoteOn? && f > 0 && |cs| > 0 && |ps| == Pitches
    ensures |r.0| == |cs| && |r.1| == |ps|
    ensures forall i :: 0 <= i < |cs| - 1 ==> r.0[i] == cs[i]
    ensures forall k :: 0 <= k < |ps| && k != note.note as int ==> r.1[k] == ps[k]
  {
    var t := note.note as int;
    var c := cs[|cs| - 1];
    if !IsDrum(t) || HasDrum(c.percussionStarts, t) then (cs, ps)
    else
      var ends := if ps[t] > 0 then c.percussionEnds + [PercussionEnd(note.note)] else c.percussionEnds;
      var starts := c.percussionStarts + [PercussionStart(note.note, note.realVolume - average)];
      (cs[|cs| - 1 := c.(percussionEnds := ends, percussionStarts := starts)], ps[t := HoldLength(note.realLength, f)])
  }

  method HitDrum(note: ControlEvent, f: int, average: real, clusters: seq<NoteCluster>, percussionHold: array<int>)
    returns (clusters': seq<NoteCluster>)
    requires note.NoteOn? && f > 0 && |clusters| > 0 && percussionHold.Length == Pitches
    modifies percussionHold
    ensures (clusters', percussionHold[..]) == DrumHit(note, f, average, clusters, old(percussionHold[..]))
  {
    clusters' := clusters;
    var t := note.note as int;
    var last := |clusters| - 1;
    if t < PercussionMinNote || t > PercussionMaxNote {
      return;
    }
    if HasDrum(clusters[last].percussionStarts, t) {
      return;
    }
    var length := HoldLength(note.realLength, f);
    var c := clusters[last];
    if percussionHold[t] > 0 {
      c := c.(percussionEnds := c.percussionEnds + [PercussionEnd(note.note)]);
    }
    percussionHold[t] := length;
    c := c.(percussionStarts := c.percussionStarts + [PercussionStart(note.note, note.realVolume - average)]);
    clusters' := clusters[last := c];
  }

  /** A hit keeps the clusters playable (in particular no drum starts twice
      in a frame) and the tables valid. */
  lemma DrumHitKeeps(note: ControlEvent, f: int, average: real, cs: seq<NoteCluster>, hs: seq<Hold>, ps: seq<int>)
    requires note.NoteOn? && f > 0 && Valid(cs, hs, ps)
    ensures Valid(DrumHit(note, f, average, cs, ps).0, hs, DrumHit(note, f, average, cs, ps).1)
  {
    var t := note.note as int;
    var last := |cs| - 1;
    var c := cs[last];
    if IsDrum(t) && !HasDrum(c.percussionStarts, t) {
      var r := DrumHit(note, f, average, cs, ps);
      var c' := r.0[last];
      assert c'.percussionStarts == c.percussionStarts + [PercussionStart(note.note, note.realVolume - average)];
      forall i, j | 0 <= i < j < |c'.percussionStarts| ensures c'.percussionStarts[i].drum != c'.percussionStarts[j].drum {
        if j == |c.percussionStarts| {
          assert c'.percussionStarts[i] in c.percussionStarts;
        }
      }
      assert Playable(c');
      assert forall k :: 0 <= k < |ps| ==> r.1[k] >= 0 && (r.1[k] > 0 ==> IsDrum(k));
    }
  }

  // ---------------------------------------------------------------------
  // The melodic branch

  /** NoteStarts.Remove(NoteStarts.Find(matching channel and pitch)): the
      first start of that channel and pitch goes, the others stay in
      order. With no match, Find gives the default start (pitch 0, channel
      0); no start in range equals it, so nothing goes. */
  function WithoutStart(ss: seq<NoteStart>, pitch: int, channel: int): (r: seq<NoteStart>)
    ensures forall x :: x in r ==> x in ss
    ensures (exists k :: 0 <= k < |ss| && ss[k].pitch as int == pitch && ss[k].channel as int == channel) ==> |r| == |ss| - 1
    ensures (forall k :: 0 <= k < |ss| ==> ss[k].pitch as int != pitch || ss[k].channel as int != channel) ==> r == ss
  {
    if ss == [] then []
    else if ss[0].pitch as int == pitch && ss[0].channel as int == channel then ss[1..]
    else
      var rest := WithoutStart(ss[1..], pitch, channel);
      assert forall k :: 1 <= k < |ss| ==> ss[1..][k - 1] == ss[k];
      [ss[0]] + rest
  }

  /** The slot of noteHold a melodic note plays on: its cluster's channel
      and its pitch, shifted and wrapped into the cluster's range. */
  function StrikeSlot(note: ControlEvent, pitchChange: int): (k: int)
    requires Heard(note)
    ensures 0 <= k < HoldSlots && InRange(k / Pitches, k % Pitches)
  {
    var c := Cluster(note.instrument.value);
    ClusterChannel(c);
    var pitch := Wrapped(note.note as int + pitchChange, c);
    SlotParts(ClusterNumber(c), pitch);
    Slot(ClusterNumber(c), pitch)
  }

  /** A pitch that still sounds is struck again too soon (within 400 ms)
      by a note no louder than the one held: the new note is skipped. */
  predicate Ignored(prev: Hold, last: int, f: int, volume: real)
    requires f > 0
  {
    prev.length > 0 && last - prev.startIndex < RestrikeMillis / f && volume <= prev.volume
  }

  /** The held note of a pitch struck again: after 400 ms or more it ends
      in the current cluster; sooner, its start is taken back. */
  function Released(cs: seq<NoteCluster>, prev: Hold, pitch: int, channel: int, f: int): (r: seq<NoteCluster>)
    requires |cs| > 0 && f > 0 && 0 <= pitch < 256 && 0 <= channel < 256
    requires prev.length > 0 ==> 0 <= prev.startIndex < |cs|
    ensures |r| == |cs|
  {
    var last := |cs| - 1;
    if prev.length <= 0 then cs
    else if last - prev.startIndex >= RestrikeMillis / f then
      cs[last := cs[last].(noteEnds := cs[last].noteEnds + [NoteEnd(pitch as byte, channel as byte)])]
    else
      cs[prev.startIndex := cs[prev.startIndex].(noteStarts := WithoutStart(cs[prev.startIndex].noteStarts, pitch, channel))]
  }

  /** The melodic branch of Parse. The channel is the cluster's, the pitch
      is wrapped into its range. If that pitch still sounds on that
      channel, the new note is ignored or the old one released; unless
      ignored, the note is then held for its length and starts in the
      current cluster. */
  function NoteStruck(note: ControlEvent, f: int, average: real, pitchChange: int, cs: seq<NoteCluster>, hs: seq<Hold>)
    : (r: (seq<NoteCluster>, seq<Hold>))
    requires Heard(note) && f > 0 && |cs| > 0 && HoldsValid(hs, |cs|)
    ensures |r.0| == |cs| && |r.1| == |hs|
    ensures forall k :: 0 <= k < |hs| && k != StrikeSlot(note, pitchChange) ==> r.1[k] == hs[k]
  {
    var c := Cluster(note.instrument.value);
    ClusterChannel(c);
    var channel := ClusterNumber(c);
    var pitch := Wrapped(note.note as int + pitchChange, c);
    var slot := StrikeSlot(note, pitchChange);
    var prev := hs[slot];
    var last := |cs| - 1;
    if Ignored(prev, last, f, note.realVolume) then (cs, hs)
    else
      var cs1 := Released(cs, prev, pitch, channel, f);
      var start := NoteStart(pitch as byte, note.realVolume - average, note.instrument.value, channel as byte);
      (cs1[last := cs1[last].(noteStarts := cs1[last].noteStarts + [start])],
       hs[slot := Hold(HoldLength(note.realLength, f), last, note.realVolume)])
  }

  method StrikeNote(note: ControlEvent, f: int, average: real, pitchChange: int, clusters: seq<NoteCluster>,
                    noteHold: array<Hold>)
    returns (clusters': seq<NoteCluster>)
    requires Heard(note) && f > 0 && |clusters| > 0 && HoldsValid(noteHold[..], |clusters|)
    modifies noteHold
    ensures (clusters', noteHold[..]) == NoteStruck(note, f, average, pitchChange, clusters, old(noteHold[..]))
  {
    var cluster := Cluster(note.instrument.value);
    ClusterChannel(cluster);
    var channel := ClusterNumber(cluster);
    var pitch := WrapPitch(note.note as int + pitchChange, cluster);
    var slot := Slot(channel, pitch);
    StruckIs(note, f, average, pitchChange, clusters, noteHold[..], channel, pitch, slot);
    var prev := noteHold[slot];
    var last := |clusters| - 1;
    clusters' := clusters;
    if prev.length > 0 {
      if last - prev.startIndex >= RestrikeMillis / f {
        clusters' := clusters'[last := clusters'[last].(noteEnds := clusters'[last].noteEnds + [NoteEnd(pitch as byte, channel as byte)])];
      } else if note.realVolume <= prev.volume {
        return;
      } else {
        var s := prev.startIndex;
        clusters' := clusters'[s := clusters'[s].(noteStarts := WithoutStart(clusters'[s].noteStarts, pitch, channel))];
      }
    }
    assert clusters' == Released(clusters, prev, pitch, channel, f);
    var length := HoldLength(note.realLength, f);
    noteHold[slot] := Hold(length, last, note.realVolume);
    var start := NoteStart(pitch as byte, note.realVolume - average, note.instrument.value, channel as byte);
    clusters' := clusters'[last := clusters'[last].(noteStarts := clusters'[last].noteStarts + [start])];
  }

  /** NoteStruck in terms of the values StrikeNote computes first. */
  lemma StruckIs(note: ControlEvent, f: int, average: real, pitchChange: int, cs: seq<NoteCluster>, hs: seq<Hold>,
                 channel: int, pitch: int, slot: int)
    requires Heard(note) && f > 0 && |cs| > 0 && HoldsValid(hs, |cs|)
    requires channel == ClusterNumber(Cluster(note.instrument.value))
    requires pitch == Wrapped(note.note as int + pitchChange, Cluster(note.instrument.value))
    requires slot == Slot(channel, pitch)
    ensures slot == StrikeSlot(note, pitchChange) && 0 <= slot < |hs|
    ensures 0 <= pitch < 256 && 0 <= channel < 256 && (hs[slot].length > 0 ==> 0 <= hs[slot].startIndex < |cs|)
    ensures var last := |cs| - 1;
      NoteStruck(note, f, average, pitchChange, cs, hs) ==
      if Ignored(hs[slot], last, f, note.realVolume) then (cs, hs)
      else
        var cs1 := Released(cs, hs[slot], pitch, channel, f);
        var start := NoteStart(pitch as byte, note.realVolume - average, note.instrument.value, channel as byte);
        (cs1[last := cs1[last].(noteStarts := cs1[last].noteStarts + [start])],
         hs[slot := Hold(HoldLength(note.realLength, f), last, note.realVolume)])
  {
    ClusterChannel(Cluster(note.instrument.value));
    assert SlotValid(hs[slot], slot, |cs|);
  }

  /** Replacing one cluster by a playable one keeps the list playable. */
  lemma ReplaceKeeps(cs: seq<NoteCluster>, i: int, c: NoteCluster)
    requires AllPlayable(cs) && 0 <= i < |cs| && Playable(c)
    ensures AllPlayable(cs[i := c])
  {
  }

  lemma AddStartKeeps(c: NoteCluster, s: NoteStart)
    requires Playable(c) && InRange(s.channel as int, s.pitch as int)
    ensures Playable(c.(noteStarts := c.noteStarts + [s]))
  {
  }

  lemma AddEndKeeps(c: NoteCluster, e: NoteEnd)
    requires Playable(c) && InRange(e.channel as int, e.pitch as int)
    ensures Playable(c.(noteEnds := c.noteEnds + [e]))
  {
  }

  lemma RemoveStartKeeps(c: NoteCluster, pitch: int, channel: int)
    requires Playable(c)
    ensures Playable(c.(noteStarts := WithoutStart(c.noteStarts, pitch, channel)))
  {
  }

  lemma ReleasedKeeps(cs: seq<NoteCluster>, prev: Hold, pitch: int, channel: int, f: int)
    requires |cs| > 0 && AllPlayable(cs) && f > 0 && InRange(channel, pitch)
    requires prev.length > 0 ==> 0 <= prev.startIndex < |cs|
    ensures AllPlayable(Released(cs, prev, pitch, channel, f))
  {
    var last := |cs| - 1;
    if prev.length > 0 {
      if last - prev.startIndex >= RestrikeMillis / f {
        AddEndKeeps(cs[last], NoteEnd(pitch as byte, channel as byte));
        ReplaceKeeps(cs, last, cs[last].(noteEnds := cs[last].noteEnds + [NoteEnd(pitch as byte, channel as byte)]));
      } else {
        var i := prev.startIndex;
        RemoveStartKeeps(cs[i], pitch, channel);
        ReplaceKeeps(cs, i, cs[i].(noteStarts := WithoutStart(cs[i].noteStarts, pitch, channel)));
      }
    }
  }

  /** A melodic note keeps the clusters playable and the tables valid: the
      start and any end it adds are in the channel's range. */
  lemma NoteStruckKeeps(note: ControlEvent, f: int, average: real, pitchChange: int, cs: seq<NoteCluster>, hs: seq<Hold>, ps: seq<int>)
    requires Heard(note) && f > 0 && Valid(cs, hs, ps)
    ensures Valid(NoteStruck(note, f, average, pitchChange, cs, hs).0, NoteStruck(note, f, average, pitchChange, cs, hs).1, ps)
  {
    var c := Cluster(note.instrument.value);
    ClusterChannel(c);
    var channel := ClusterNumber(c);
    var pitch := Wrapped(note.note as int + pitchChange, c);
    var slot := Slot(channel, pitch);
    SlotParts(channel, pitch);
    var prev := hs[slot];
    var last := |cs| - 1;
    if !Ignored(prev, last, f, note.realVolume) {
      var cs1 := Released(cs, prev, pitch, channel, f);
      ReleasedKeeps(cs, prev, pitch, channel, f);
      var start := NoteStart(pitch as byte, note.realVolume - average, note.instrument.value, channel as byte);
      var cs2 := cs1[last := cs1[last].(noteStarts := cs1[last].noteStarts + [start])];
      assert NoteStruck(note, f, average, pitchChange, cs, hs).0 == cs2;
      AddStartKeeps(cs1[last], start);
      ReplaceKeeps(cs1, last, cs2[last]);
      var hs2 := hs[slot := Hold(HoldLength(note.realLength, f), last, note.realVolume)];
      assert NoteStruck(note, f, average, pitchChange, cs, hs).1 == hs2;
      SetHoldKeeps(hs, |cs|, slot, hs2[slot]);
    } else {
      assert NoteStruck(note, f, average, pitchChange, cs, hs) == (cs, hs);
    }
  }

  // ---------------------------------------------------------------------
  // The loops of Parse

  predicate Beats(metre: seq<MetaEvent>)
  {
    |metre| > 0 && forall k :: 0 <= k < |metre| ==> metre[k].BeatEvent?
  }

  /** The frames a delta moves on: the loop `for (j = 0; j < delta; j++)`
      runs no times for a negative delta. */
  function Positive(d: int): nat
  {
    if d > 0 then d else 0
  }

  /** The frames the note loop moves on over these pairs. */
  function Advanced(pairs: seq<(ControlEvent, int)>): nat
  {
    if pairs == [] then 0 else Positive(pairs[0].1) + Advanced(pairs[1..])
  }

  lemma {:induction false} AdvancedSnoc(pairs: seq<(ControlEvent, int)>, i: nat)
    requires i < |pairs|
    ensures Advanced(pairs[..i + 1]) == Advanced(pairs[..i]) + Positive(pairs[i].1)
  {
    if i != 0 {
      assert pairs[..i + 1][1..] == pairs[1..][..i];
      assert pairs[..i][1..] == pairs[1..][..i - 1];
      AdvancedSnoc(pairs[1..], i - 1);
    } else {
      assert pairs[..1][1..] == [];
    }
  }

  /** With every delta non-negative, the note loop moves on by the sum of
      the deltas: to the frame the last note is placed in. */
  lemma {:induction false} AdvancedIsSum(pairs: seq<(ControlEvent, int)>, ds: seq<int>)
    requires |ds| == |pairs| && forall k :: 0 <= k < |ds| ==> ds[k] >= 0 && pairs[k].1 == ds[k]
    ensures Advanced(pairs) == IntSum(ds)
  {
    if pairs != [] {
      AdvancedIsSum(pairs[1..], ds[1..]);
    }
  }

  /** What the loops of Parse carry from pass to pass: the clusters so far,
      the two hold tables and the frame counter. */
  datatype Progress = Progress(clusters: seq<NoteCluster>, holds: seq<Hold>, drums: seq<int>, frames: int)

  predicate ProgressValid(p: Progress)
  {
    Valid(p.clusters, p.holds, p.drums)
  }

  /** The tables have their sizes: a slot per channel and pitch, an entry
      per drum number. */
  predicate Shaped(p: Progress)
  {
    |p.holds| == HoldSlots && |p.drums| == Pitches
  }

  /** One frame on, as AdvanceFrame does it: the counter moves first, then
      the new cluster of the beat that frame falls in, then the tick-down
      of both tables. */
  function NextFrame(metre: seq<MetaEvent>, tpb: int, final: bool, p: Progress): (r: Result<Progress>)
    requires Beats(metre) && tpb >= 0 && Shaped(p)
    ensures r.Ok? ==> Shaped(r.value) && r.value.frames == p.frames + 1
    ensures r.Ok? ==> |r.value.clusters| == |p.clusters| + 1 && p.clusters < r.value.clusters
    ensures r.Fail? ==> r.failure == if tpb == 0 then DivideByZero else IndexOutOfRange
    ensures tpb > 0 && p.frames >= 0 ==> r.Ok?
  {
    var frames := p.frames + 1;
    match BeatIndex(|metre|, tpb, frames)
    case Fail(e) => Fail(e)
    case Ok(i) =>
      var order := if final then TruncRem(frames, 12) else TruncRem(frames, tpb);
      var c := FrameCluster(metre[i], order, p.holds, p.drums);
      Ok(Progress(p.clusters + [c], Ticked(p.holds), TickedDrums(p.drums), frames))
  }

  /** A frame on keeps the clusters playable and the tables valid. */
  lemma NextFrameKeeps(metre: seq<MetaEvent>, tpb: int, final: bool, p: Progress)
    requires Beats(metre) && tpb >= 0 && ProgressValid(p)
    ensures NextFrame(metre, tpb, final, p).Ok? ==> ProgressValid(NextFrame(metre, tpb, final, p).value)
  {
    var frames := p.frames + 1;
    if BeatIndex(|metre|, tpb, frames).Ok? {
      var i := BeatIndex(|metre|, tpb, frames).value;
      var order := if final then TruncRem(frames, 12) else TruncRem(frames, tpb);
      AdvanceKeeps(p.clusters, p.holds, p.drums, metre[i], order);
    }
  }

  /** n frames on, one after the other, as the loop over j < delta does. */
  function FramesOn(metre: seq<MetaEvent>, tpb: int, n: nat, p: Progress): (r: Result<Progress>)
    requires Beats(metre) && tpb >= 0 && Shaped(p)
    ensures r.Ok? ==> Shaped(r.value) && r.value.frames == p.frames + n
    ensures r.Ok? ==> |r.value.clusters| == |p.clusters| + n && p.clusters <= r.value.clusters
    ensures r.Fail? ==> n > 0 && r.failure == if tpb == 0 then DivideByZero else IndexOutOfRange
    ensures tpb > 0 && p.frames >= 0 ==> r.Ok?
  {
    if n == 0 then Ok(p)
    else
      var before :- FramesOn(metre, tpb, n - 1, p);
      NextFrame(metre, tpb, false, before)
  }

  /** Frames on keep the clusters playable and the tables valid. */
  lemma {:induction false} FramesOnKeeps(metre: seq<MetaEvent>, tpb: int, n: nat, p: Progress)
    requires Beats(metre) && tpb >= 0 && ProgressValid(p)
    ensures FramesOn(metre, tpb, n, p).Ok? ==> ProgressValid(FramesOn(metre, tpb, n, p).value)
  {
    if n > 0 && FramesOn(metre, tpb, n, p).Ok? {
      FramesOnKeeps(metre, tpb, n - 1, p);
      NextFrameKeeps(metre, tpb, false, FramesOn(metre, tpb, n - 1, p).value);
    }
  }

  /** One more frame on is the next frame after the first j. */
  lemma FramesOnStep(metre: seq<MetaEvent>, tpb: int, j: nat, p0: Progress, before: Progress)
    requires Beats(metre) && tpb >= 0 && Shaped(p0)
    requires FramesOn(metre, tpb, j, p0) == Ok(before)
    ensures FramesOn(metre, tpb, j + 1, p0) == NextFrame(metre, tpb, false, before)
  {
  }

  /** Once a frame fails, so does every later count of frames, with the
      same failure. */
  lemma {:induction false} FramesOnFailStays(metre: seq<MetaEvent>, tpb: int, j: nat, n: nat, p0: Progress)
    requires Beats(metre) && tpb >= 0 && Shaped(p0)
    requires j <= n && FramesOn(metre, tpb, j, p0).Fail?
    ensures FramesOn(metre, tpb, n, p0) == FramesOn(metre, tpb, j, p0)
    decreases n - j
  {
    if j < n {
      FramesOnFailStays(metre, tpb, j, n - 1, p0);
    }
  }

  /** A note in the current frame: a drum hit or a melodic note. */
  function NoteHeard(note: ControlEvent, f: int, average: real, pitchChange: int, p: Progress): (r: Progress)
    requires Heard(note) && f > 0 && ProgressValid(p)
    ensures ProgressValid(r) && r.frames == p.frames && |r.clusters| == |p.clusters|
  {
    if IsPercussion(note) then
      DrumHitKeeps(note, f, average, p.clusters, p.holds, p.drums);
      var hit := DrumHit(note, f, average, p.clusters, p.drums);
      Progress(hit.0, p.holds, hit.1, p.frames)
    else
      NoteStruckKeeps(note, f, average, pitchChange, p.clusters, p.holds, p.drums);
      var struck := NoteStruck(note, f, average, pitchChange, p.clusters, p.holds);
      Progress(struck.0, struck.1, p.drums, p.frames)
  }

  /** The start a melodic note adds: its pitch wrapped into its cluster's
      range, its volume relative to the average, on its cluster's channel. */
  function StrikeStart(note: ControlEvent, average: real, pitchChange: int): (s: NoteStart)
    requires Heard(note)
    ensures InRange(s.channel as int, s.pitch as int)
    ensures (note.note as int + pitchChange - s.pitch as int) % 12 == 0
  {
    var c := Cluster(note.instrument.value);
    ClusterChannel(c);
    var pitch := Wrapped(note.note as int + pitchChange, c);
    NoteStart(pitch as byte, note.realVolume - average, note.instrument.value, ClusterNumber(c) as byte)
  }

  /** A melodic note starts in the current cluster, the last one, and its
      pitch is held from there for its length; unless the same pitch, no
      quieter, started less than 400 ms before and still sounds, in which
      case nothing changes. */
  lemma MelodicNoteStarts(note: ControlEvent, f: int, average: real, pitchChange: int, p: Progress)
    requires Heard(note) && f > 0 && ProgressValid(p) && !IsPercussion(note)
    ensures var last := |p.clusters| - 1;
      var slot := StrikeSlot(note, pitchChange);
      Ignored(p.holds[slot], last, f, note.realVolume) ==> NoteHeard(note, f, average, pitchChange, p) == p
    ensures var last := |p.clusters| - 1;
      var slot := StrikeSlot(note, pitchChange);
      var r := NoteHeard(note, f, average, pitchChange, p);
      !Ignored(p.holds[slot], last, f, note.realVolume) ==>
        StrikeStart(note, average, pitchChange) in r.clusters[last].noteStarts &&
        r.holds[slot] == Hold(HoldLength(note.realLength, f), last, note.realVolume)
  {
    var last := |p.clusters| - 1;
    var r := NoteHeard(note, f, average, pitchChange, p);
    var s := StrikeStart(note, average, pitchChange);
    if !Ignored(p.holds[StrikeSlot(note, pitchChange)], last, f, note.realVolume) {
      assert r.clusters[last].noteStarts[|r.clusters[last].noteStarts| - 1] == s;
    }
  }

  /** A drum hit starts in the current cluster and holds its drum for its
      length, unless the note is no drum (outside 35..82) or the same drum
      already starts there, in which case nothing changes. */
  lemma DrumHitStarts(note: ControlEvent, f: int, average: real, pitchChange: int, p: Progress)
    requires Heard(note) && f > 0 && ProgressValid(p) && IsPercussion(note)
    ensures var last := |p.clusters| - 1;
      var t := note.note as int;
      !IsDrum(t) || HasDrum(p.clusters[last].percussionStarts, t) ==> NoteHeard(note, f, average, pitchChange, p) == p
    ensures var last := |p.clusters| - 1;
      var t := note.note as int;
      var r := NoteHeard(note, f, average, pitchChange, p);
      IsDrum(t) && !HasDrum(p.clusters[last].percussionStarts, t) ==>
        PercussionStart(note.note, note.realVolume - average) in r.clusters[last].percussionStarts &&
        r.drums[t] == HoldLength(note.realLength, f)
  {
    var last := |p.clusters| - 1;
    var t := note.note as int;
    var r := NoteHeard(note, f, average, pitchChange, p);
    if IsDrum(t) && !HasDrum(p.clusters[last].percussionStarts, t) {
      assert r.clusters[last].percussionStarts[|r.clusters[last].percussionStarts| - 1] == PercussionStart(note.note, note.realVolume - average);
    }
  }

  /** The note of pair i is heard in the cluster its deltas lead to: the
      fold up to it is the note heard in a state with
      |p0.clusters| + Advanced(pairs[..i + 1]) clusters, so the note lands in
      cluster |p0.clusters| - 1 + Advanced(pairs[..i + 1]). */
  lemma {:induction false} PlacedHearsInFrame(pairs: seq<(ControlEvent, int)>, i: nat, f: int, average: real, pitchChange: int,
                                              metre: seq<MetaEvent>, tpb: int, p0: Progress)
    requires f > 0 && Beats(metre) && tpb >= 0 && ProgressValid(p0) && i < |pairs|
    requires forall k :: 0 <= k < |pairs| ==> Heard(pairs[k].0)
    requires Placed(pairs[..i + 1], f, average, pitchChange, metre, tpb, p0).Ok?
    ensures exists q: Progress ::
      ProgressValid(q) && |q.clusters| == |p0.clusters| + Advanced(pairs[..i + 1]) &&
      Placed(pairs[..i + 1], f, average, pitchChange, metre, tpb, p0) == Ok(NoteHeard(pairs[i].0, f, average, pitchChange, q))
  {
    var prefix := pairs[..i + 1];
    assert prefix[..i] == pairs[..i];
    AdvancedSnoc(pairs, i);
    var before := Placed(pairs[..i], f, average, pitchChange, metre, tpb, p0);
    assert before.Ok?;
    PlacedStep(pairs, i, f, average, pitchChange, metre, tpb, p0, before.value);
    FramesOnKeeps(metre, tpb, Positive(pairs[i].1), before.value);
    var q := FramesOn(metre, tpb, Positive(pairs[i].1), before.value).value;
    assert Placed(prefix, f, average, pitchChange, metre, tpb, p0) == Ok(NoteHeard(pairs[i].0, f, average, pitchChange, q));
  }

  /** The foreach loop of Parse over the pairs: for each, its delta's
      frames, then the note in the frame reached. */
  function Placed(pairs: seq<(ControlEvent, int)>, f: int, average: real, pitchChange: int,
                  metre: seq<MetaEvent>, tpb: int, p: Progress): (r: Result<Progress>)
    requires f > 0 && Beats(metre) && tpb >= 0 && ProgressValid(p)
    requires forall k :: 0 <= k < |pairs| ==> Heard(pairs[k].0)
    ensures r.Ok? ==> ProgressValid(r.value)
    ensures r.Ok? ==> r.value.frames == p.frames + Advanced(pairs) && |r.value.clusters| == |p.clusters| + Advanced(pairs)
    ensures r.Fail? ==> r.failure == if tpb == 0 then DivideByZero else IndexOutOfRange
    ensures tpb > 0 && p.frames >= 0 ==> r.Ok?
  {
    if pairs == [] then Ok(p)
    else
      var n := |pairs| - 1;
      AdvancedSnoc(pairs, n);
      assert pairs[..n + 1] == pairs;
      var before :- Placed(pairs[..n], f, average, pitchChange, metre, tpb, p);
      PlaceOne(pairs[n], f, average, pitchChange, metre, tpb, before)
  }

  /** One pass of that loop: the pair's frames, then its note in the
      frame reached. */
  function PlaceOne(pair: (ControlEvent, int), f: int, average: real, pitchChange: int,
                    metre: seq<MetaEvent>, tpb: int, p: Progress): (r: Result<Progress>)
    requires f > 0 && Beats(metre) && tpb >= 0 && ProgressValid(p) && Heard(pair.0)
    ensures r.Ok? ==> ProgressValid(r.value)
    ensures r.Ok? ==> r.value.frames == p.frames + Positive(pair.1) && |r.value.clusters| == |p.clusters| + Positive(pair.1)
    ensures r.Fail? ==> r.failure == if tpb == 0 then DivideByZero else IndexOutOfRange
    ensures tpb > 0 && p.frames >= 0 ==> r.Ok?
  {
    FramesOnKeeps(metre, tpb, Positive(pair.1), p);
    var moved :- FramesOn(metre, tpb, Positive(pair.1), p);
    Ok(NoteHeard(pair.0, f, average, pitchChange, moved))
  }

  /** One more pair is its frames, then its note, after the first i. */
  lemma PlacedStep(pairs: seq<(ControlEvent, int)>, i: nat, f: int, average: real, pitchChange: int,
                   metre: seq<MetaEvent>, tpb: int, p0: Progress, before: Progress)
    requires f > 0 && Beats(metre) && tpb >= 0 && ProgressValid(p0) && i < |pairs|
    requires forall k :: 0 <= k < |pairs| ==> Heard(pairs[k].0)
    requires Placed(pairs[..i], f, average, pitchChange, metre, tpb, p0) == Ok(before)
    ensures Placed(pairs[..i + 1], f, average, pitchChange, metre, tpb, p0) == PlaceOne(pairs[i], f, average, pitchChange, metre, tpb, before)
  {
    assert pairs[..i + 1][..i] == pairs[..i];
  }

  /** Once the pairs up to i fail, the pairs up to any later n fail the
      same way. */
  lemma {:induction false} PlacedFailStays(pairs: seq<(ControlEvent, int)>, i: nat, n: nat, f: int, average: real, pitchChange: int,
                                           metre: seq<MetaEvent>, tpb: int, p0: Progress)
    requires f > 0 && Beats(metre) && tpb >= 0 && ProgressValid(p0) && i <= n <= |pairs|
    requires forall k :: 0 <= k < |pairs| ==> Heard(pairs[k].0)
    requires Placed(pairs[..i], f, average, pitchChange, metre, tpb, p0).Fail?
    ensures Placed(pairs[..n], f, average, pitchChange, metre, tpb, p0) == Placed(pairs[..i], f, average, pitchChange, metre, tpb, p0)
    decreases n - i
  {
    if i < n {
      PlacedFailStays(pairs, i, n - 1, f, average, pitchChange, metre, tpb, p0);
      var prefix := pairs[..n];
      assert prefix[..n - 1] == pairs[..n - 1];
      assert forall k :: 0 <= k < n ==> Heard(prefix[k].0);
      assert Placed(prefix, f, average, pitchChange, metre, tpb, p0) == Placed(prefix[..n - 1], f, average, pitchChange, metre, tpb, p0);
    }
  }

  /** The do-while loop at the end of Parse: frames on until a pass finds
      nothing held; it ends because every pass that finds something takes
      a frame off the tables' total. */
  function Drained(metre: seq<MetaEvent>, tpb: int, p: Progress): (r: Result<seq<NoteCluster>>)
    requires Beats(metre) && tpb >= 0 && ProgressValid(p)
    ensures r.Ok? ==> p.clusters < r.value && AllPlayable(r.value) && EndsSilent(r.value)
    ensures r.Fail? ==> r.failure == if tpb == 0 then DivideByZero else IndexOutOfRange
    ensures tpb == 0 ==> r.Fail?
    ensures tpb > 0 && p.frames >= 0 ==> r.Ok?
    decreases Total(p.holds) + DrumTotal(p.drums)
  {
    NextFrameKeeps(metre, tpb, true, p);
    var next :- NextFrame(metre, tpb, true, p);
    var frames := p.frames + 1;
    var i := BeatIndex(|metre|, tpb, frames).value;
    DrainStep(p.clusters, p.holds, p.drums, metre[i], TruncRem(frames, 12));
    if AnyHeld(p.holds, p.drums) then Drained(metre, tpb, next)
    else Ok(next.clusters)
  }

  /** Where the clusters start: one cluster for the first beat and fresh
      hold tables. */
  function Fresh(metre: seq<MetaEvent>, frames0: int): (p: Progress)
    requires Beats(metre)
    ensures ProgressValid(p)
  {
    var p := Progress([NewCluster(metre[0].length, metre[0].chord, 0)], seq(HoldSlots, _ => Hold(0, 0, 0.0)), seq(Pitches, _ => 0), frames0);
    assert Valid(p.clusters, p.holds, p.drums);
    p
  }

  /** The clusters of Parse: the note loop from the fresh start, then the
      final loop. */
  function Built(metre: seq<MetaEvent>, pairs: seq<(ControlEvent, int)>, f: int, average: real, pitchChange: int,
                 tpb: int, frames0: int): (r: Result<seq<NoteCluster>>)
    requires f > 0 && Beats(metre) && tpb >= 0
    requires forall k :: 0 <= k < |pairs| ==> Heard(pairs[k].0)
  {
    var placed :- Placed(pairs, f, average, pitchChange, metre, tpb, Fresh(metre, frames0));
    Drained(metre, tpb, placed)
  }

  /** The for loop over j < delta in Parse: delta new frames, each with the
      ends of what stops there. */
  method AdvanceFrames(metre: seq<MetaEvent>, tpb: int, delta: int, frames0: int, clusters0: seq<NoteCluster>,
                       noteHold: array<Hold>, percussionHold: array<int>)
    returns (r: Result<seq<NoteCluster>>, frames: int)
    requires Beats(metre) && tpb >= 0
    requires noteHold.Length == HoldSlots && percussionHold.Length == Pitches
    requires Valid(clusters0, noteHold[..], percussionHold[..])
    modifies noteHold, percussionHold
    ensures var p0 := Progress(clusters0, old(noteHold[..]), old(percussionHold[..]), frames0);
      r.Ok? ==> FramesOn(metre, tpb, Positive(delta), p0) == Ok(Progress(r.value, noteHold[..], percussionHold[..], frames))
    ensures var p0 := Progress(clusters0, old(noteHold[..]), old(percussionHold[..]), frames0);
      r.Fail? ==> FramesOn(metre, tpb, Positive(delta), p0) == Fail(r.failure)
  {
    ghost var p0 := Progress(clusters0, noteHold[..], percussionHold[..], frames0);
    frames := frames0;
    var clusters := clusters0;
    var j := 0;
    while j < delta
      invariant 0 <= j <= Positive(delta)
      invariant FramesOn(metre, tpb, j, p0) == Ok(Progress(clusters, noteHold[..], percussionHold[..], frames))
    {
      ghost var before := Progress(clusters, noteHold[..], percussionHold[..], frames);
      FramesOnStep(metre, tpb, j, p0, before);
      frames := frames + 1;
      var next, _ := AdvanceFrame(metre, tpb, false, frames, clusters, noteHold, percussionHold, before);
      if next.Fail? {
        FramesOnFailStays(metre, tpb, j + 1, Positive(delta), p0);
        return Fail(next.failure), frames;
      }
      clusters := next.value;
      j := j + 1;
    }
    r := Ok(clusters);
  }

  /** The foreach loop of Parse: for each note, its delta's new frames,
      then the note in the current frame. One cluster is added per frame
      moved on. */
  method PlaceNotes(pairs: seq<(ControlEvent, int)>, f: int, average: real, pitchChange: int,
                    metre: seq<MetaEvent>, tpb: int, frames0: int, clusters0: seq<NoteCluster>,
                    noteHold: array<Hold>, percussionHold: array<int>)
    returns (r: Result<seq<NoteCluster>>, frames: int)
    requires f > 0 && Beats(metre) && tpb >= 0
    requires forall k :: 0 <= k < |pairs| ==> Heard(pairs[k].0)
    requires noteHold.Length == HoldSlots && percussionHold.Length == Pitches
    requires Valid(clusters0, noteHold[..], percussionHold[..])
    modifies noteHold, percussionHold
    ensures var p0 := Progress(clusters0, old(noteHold[..]), old(percussionHold[..]), frames0);
      r.Ok? ==> Placed(pairs, f, average, pitchChange, metre, tpb, p0) == Ok(Progress(r.value, noteHold[..], percussionHold[..], frames))
    ensures var p0 := Progress(clusters0, old(noteHold[..]), old(percussionHold[..]), frames0);
      r.Fail? ==> Placed(pairs, f, average, pitchChange, metre, tpb, p0) == Fail(r.failure)
  {
    ghost var p0 := Progress(clusters0, noteHold[..], percussionHold[..], frames0);
    frames := frames0;
    var clusters := clusters0;
    for i := 0 to |pairs|
      invariant Placed(pairs[..i], f, average, pitchChange, metre, tpb, p0) == Ok(Progress(clusters, noteHold[..], percussionHold[..], frames))
    {
      var (note, delta) := pairs[i];
      ghost var before := Progress(clusters, noteHold[..], percussionHold[..], frames);
      PlacedStep(pairs, i, f, average, pitchChange, metre, tpb, p0, before);
      FramesOnKeeps(metre, tpb, Positive(delta), before);
      var next;
      next, frames := AdvanceFrames(metre, tpb, delta, frames, clusters, noteHold, percussionHold);
      if next.Fail? {
        PlacedFailStays(pairs, i + 1, |pairs|, f, average, pitchChange, metre, tpb, p0);
        assert pairs[..|pairs|] == pairs;
        return Fail(next.failure), frames;
      }
      clusters := next.value;
      if IsPercussion(note) {
        clusters := HitDrum(note, f, average, clusters, percussionHold);
      } else {
        clusters := StrikeNote(note, f, average, pitchChange, clusters, noteHold);
      }
    }
    assert pairs[..|pairs|] == pairs;
    r := Ok(clusters);
  }

  /** One pass of the final loop keeps the tables valid and takes a frame
      off their total when anything was held; when nothing was, its
      cluster is silent and so are the tables. */
  lemma DrainStep(cs: seq<NoteCluster>, hs: seq<Hold>, ps: seq<int>, beat: MetaEvent, order: int)
    requires Valid(cs, hs, ps) && beat.BeatEvent?
    ensures Valid(cs + [FrameCluster(beat, order, hs, ps)], Ticked(hs), TickedDrums(ps))
    ensures 0 <= Total(Ticked(hs)) + DrumTotal(TickedDrums(ps)) <= Total(hs) + DrumTotal(ps)
    ensures AnyHeld(hs, ps) ==> Total(Ticked(hs)) + DrumTotal(TickedDrums(ps)) < Total(hs) + DrumTotal(ps)
    ensures !AnyHeld(hs, ps) ==> IsEmpty(FrameCluster(beat, order, hs, ps)) && Silent(Ticked(hs), TickedDrums(ps))
  {
    AdvanceKeeps(cs, hs, ps, beat, order);
    TickedTotal(hs);
    TickedDrumTotal(ps);
    if !AnyHeld(hs, ps) {
      NothingExpires(hs, ps);
      SilentAfterTick(hs, ps);
    }
  }

  /** The do-while loop at the end of Parse: frames are added, each with
      the ends of what stops there, until a pass finds nothing left
      sounding. It only appends clusters, the last of them silent, and
      every note and hit has ended when it stops. */
  method Drain(metre: seq<MetaEvent>, tpb: int, frames0: int, clusters0: seq<NoteCluster>,
               noteHold: array<Hold>, percussionHold: array<int>)
    returns (r: Result<seq<NoteCluster>>)
    requires Beats(metre) && tpb >= 0
    requires noteHold.Length == HoldSlots && percussionHold.Length == Pitches
    requires Valid(clusters0, noteHold[..], percussionHold[..])
    modifies noteHold, percussionHold
    ensures r.Fail? ==> r.failure == if tpb == 0 then DivideByZero else IndexOutOfRange
    ensures tpb == 0 ==> r.Fail?
    ensures tpb > 0 && frames0 >= 0 ==> r.Ok?
    ensures r.Ok? ==> clusters0 < r.value && Valid(r.value, noteHold[..], percussionHold[..])
    ensures r.Ok? ==> EndsSilent(r.value) && Silent(noteHold[..], percussionHold[..])
    ensures r == Drained(metre, tpb, Progress(clusters0, old(noteHold[..]), old(percussionHold[..]), frames0))
  {
    ghost var p0 := Progress(clusters0, noteHold[..], percussionHold[..], frames0);
    var frames := frames0;
    var clusters := clusters0;
    var any := true;
    while any
      invariant frames >= frames0 && clusters0 <= clusters && Valid(clusters, noteHold[..], percussionHold[..])
      invariant any ==> Drained(metre, tpb, p0) == Drained(metre, tpb, Progress(clusters, noteHold[..], percussionHold[..], frames))
      invariant !any ==> Drained(metre, tpb, p0) == Ok(clusters)
      invariant !any ==> tpb > 0 && clusters0 < clusters && EndsSilent(clusters)
      invariant !any ==> Silent(noteHold[..], percussionHold[..])
      decreases Total(noteHold[..]) + DrumTotal(percussionHold[..]), any
    {
      ghost var before := Progress(clusters, noteHold[..], percussionHold[..], frames);
      frames := frames + 1;
      ghost var hs, ps := noteHold[..], percussionHold[..];
      var next;
      next, any := AdvanceFrame(metre, tpb, true, frames, clusters, noteHold, percussionHold, before);
      if next.Fail? {
        return Fail(next.failure);
      }
      DrainStep(clusters, hs, ps, metre[BeatIndex(|metre|, tpb, frames).value], TruncRem(frames, 12));
      clusters := next.value;
    }
    r := Ok(clusters);
  }

  // ---------------------------------------------------------------------
  // Parse

  /** notes.Average(n => n.RealVolume) over a list that is not empty. */
  function AverageVolume(notes: seq<ControlEvent>): real
    requires notes != [] && forall k :: 0 <= k < |notes| ==> notes[k].NoteOn?
  {
    Sum(seq(|notes|, k requires 0 <= k < |notes| => notes[k].realVolume)) / |notes| as real
  }

  /** The model carries the beats the metre analysis adds. */
  predicate Analysed(m: Model)
  {
    BeatNotes.BeatEventsOf(MetaEvents(m)) != []
  }

  /** GetNotes gives heard notes in onset order. */
  lemma GetNotesHeard(m: Model)
    requires GetNotes(m).Ok?
    ensures forall k :: 0 <= k < |GetNotes(m).value| ==> Heard(GetNotes(m).value[k])
    ensures forall a, b :: 0 <= a < b < |GetNotes(m).value| ==> GetNotes(m).value[a].time <= GetNotes(m).value[b].time
  {
    GetNotesSpec(m);
    var ns := GetNotes(m).value;
    assert forall k :: 0 <= k < |ns| ==> ns[k] in ns;
  }

  /** GetNotes returns notes, the first of them not before time zero. */
  predicate NotesFromZero(m: Model)
  {
    GetNotes(m).Ok? && GetNotes(m).value != [] && GetNotes(m).value[0].time >= 0.0
  }

  /** 600 / frameRateMillis is zero exactly for frame rates over 600 ms. */
  lemma TicksPerBeat(f: int)
    requires f > 0
    ensures MsPerBeat / f >= 0 && (MsPerBeat / f == 0 <==> f > MsPerBeat)
  {
  }

  /** The two loops of Parse, from the first cluster and fresh hold
      tables on: one cluster per frame up to the last note's, then as many
      as it takes for everything held to end. */
  method BuildClusters(metre: seq<MetaEvent>, pairs: seq<(ControlEvent, int)>, f: int, average: real, pitchChange: int,
                       tpb: int, frames0: int)
    returns (r: Result<seq<NoteCluster>>)
    requires f > 0 && Beats(metre) && tpb >= 0
    requires forall k :: 0 <= k < |pairs| ==> Heard(pairs[k].0)
    ensures r.Fail? ==> r.failure == if tpb == 0 then DivideByZero else IndexOutOfRange
    ensures tpb == 0 ==> r.Fail?
    ensures tpb > 0 && frames0 >= 0 ==> r.Ok?
    ensures r.Ok? ==> |r.value| >= Advanced(pairs) + 2 && AllPlayable(r.value) && EndsSilent(r.value)
    ensures r == Built(metre, pairs, f, average, pitchChange, tpb, frames0)
  {
    var noteHold := new Hold[HoldSlots](_ => Hold(0, 0, 0.0));
    var percussionHold := new int[Pitches](_ => 0);
    var clusters := [NewCluster(metre[0].length, metre[0].chord, 0)];
    assert Progress(clusters, noteHold[..], percussionHold[..], frames0) == Fresh(metre, frames0);
    var placed, frames := PlaceNotes(pairs, f, average, pitchChange, metre, tpb, frames0, clusters, noteHold, percussionHold);
    if placed.Fail? {
      return Fail(placed.failure);
    }
    r := Drain(metre, tpb, frames, placed.value, noteHold, percussionHold);
  }

  /** The frame counter's start, offset / frameRateMillis: not negative
      when the first note is not before time zero. */
  function FirstFrame(t0: real, f: int): (frames: int)
    requires f > 0
    ensures t0 >= 0.0 ==> frames >= 0
  {
    TruncDiv(Offset(t0), f)
  }

  /** Parse from GetNotes on, for notes that are not empty: the average
      volume, the offset, the pairs, the clusters and WriteClusters. */
  method ParseNotes(metre: seq<MetaEvent>, notes: seq<ControlEvent>, f: int, pitchChange: int)
    returns (r: Result<seq<Record>>, clusters: seq<NoteCluster>)
    requires Beats(metre) && notes != [] && f >= 0
    requires forall k :: 0 <= k < |notes| ==> Heard(notes[k])
    ensures f == 0 || f > MsPerBeat ==> r == Fail(DivideByZero)
    ensures 0 < f <= MsPerBeat && notes[0].time >= 0.0 ==> r.Ok?
    ensures r.Fail? ==> r.failure == DivideByZero || r.failure == IndexOutOfRange
    ensures r.Ok? ==> r.value == Stream(clusters) && AllPlayable(clusters) && EndsSilent(clusters)
    ensures f > 0 && r.Fail? ==> ClustersOfNotes(metre, notes, f, pitchChange) == Fail(r.failure)
    ensures r.Ok? ==> f > 0 && ClustersOfNotes(metre, notes, f, pitchChange) == Ok(clusters)
  {
    clusters := [];
    var average := AverageVolume(notes);
    if f == 0 {
      return Fail(DivideByZero), clusters;
    }
    var ticksPerBeat := MsPerBeat / f;
    TicksPerBeat(f);
    var offset := Offset(notes[0].time);
    var pairs := GetPairs(notes, f, offset as real);
    assert forall k :: 0 <= k < |pairs| ==> pairs[k].0 == notes[k];
    var frames := FirstFrame(notes[0].time, f);
    var built := BuildClusters(metre, pairs, f, average, pitchChange, ticksPerBeat, frames);
    if built.Fail? {
      return Fail(built.failure), clusters;
    }
    clusters := built.value;
    PlayableWritable(clusters);
    var calls := WriteClusters(clusters);
    r := Ok(calls);
  }

  /** The clusters Parse writes for notes that are not empty: each note
      paired with its delta from the frame of the offset, the note loop
      from the first frame, then the final loop. */
  function ClustersOfNotes(metre: seq<MetaEvent>, notes: seq<ControlEvent>, f: int, pitchChange: int): Result<seq<NoteCluster>>
    requires Beats(metre) && notes != [] && f > 0
    requires forall k :: 0 <= k < |notes| ==> Heard(notes[k])
  {
    assert forall k :: 0 <= k < |notes| ==> notes[k].NoteOn? by {
      forall k | 0 <= k < |notes| ensures notes[k].NoteOn? {
        assert Heard(notes[k]);
      }
    }
    Built(metre, Paired(notes, f, Offset(notes[0].time) as real), f, AverageVolume(notes), pitchChange,
          MsPerBeat / f, FirstFrame(notes[0].time, f))
  }

  /** The clusters of Parse for a model: none without beats, a null
      reference for a note without instrument, none for no notes, a
      division by zero for a zero frame rate. */
  function ParsedClusters(m: Model, f: int, pitchChange: int): Result<seq<NoteCluster>>
  {
    var metre := BeatNotes.BeatsInTimeOrder(MetaEvents(m));
    if |metre| == 0 then Fail(NotAnalyzed)
    else match GetNotes(m)
      case Fail(e) => Fail(e)
      case Ok(notes) =>
        if notes == [] then Ok([])
        else if f <= 0 then Fail(DivideByZero)
        else
          GetNotesHeard(m);
          ClustersOfNotes(metre, notes, f, pitchChange)
  }

  /** Parse(midi, writer, frameRateMillis, pitchChange): the records written
      for the model and the clusters they were written from. Without beats
      it throws NonanalyzedMidiException; a note without an instrument
      throws a null reference; with no notes nothing is written; a zero
      frame rate divides by zero, and so does one over 600 ms, which makes
      ticksPerBeat zero. A frame rate up to 600 ms with no note before time
      zero succeeds. On success every record can be written and read back,
      and the last frame is silent. */
  method Parse(m: Model, f: int, pitchChange: int) returns (r: Result<seq<Record>>, clusters: seq<NoteCluster>)
    requires f >= 0
    ensures r == Fail(NotAnalyzed) <==> !Analysed(m)
    ensures Analysed(m) && GetNotes(m).Fail? ==> r == Fail(NullReference)
    ensures Analysed(m) && GetNotes(m) == Ok([]) ==> r == Ok([])
    ensures Analysed(m) && GetNotes(m).Ok? && GetNotes(m).value != [] && (f == 0 || f > MsPerBeat) ==> r == Fail(DivideByZero)
    ensures Analysed(m) && NotesFromZero(m) && 0 < f <= MsPerBeat ==> r.Ok?
    ensures r.Fail? ==> r.failure in {NotAnalyzed, NullReference, DivideByZero, IndexOutOfRange}
    ensures r.Ok? && r.value != [] ==> r.value == Stream(clusters) && AllPlayable(clusters) && EndsSilent(clusters)
    ensures r.Ok? ==> ParsedClusters(m, f, pitchChange) == Ok(clusters)
    ensures r.Fail? ==> ParsedClusters(m, f, pitchChange) == Fail(r.failure)
  {
    clusters := [];
    var metre := BeatNotes.BeatsInTimeOrder(MetaEvents(m));
    if |metre| == 0 {
      return Fail(NotAnalyzed), clusters;
    }
    var got := GetNotes(m);
    if got.Fail? {
      return Fail(got.failure), clusters;
    }
    if |got.value| == 0 {
      return Ok([]), clusters;
    }
    GetNotesHeard(m);
    r, clusters := ParseNotes(metre, got.value, f, pitchChange);
  }
}
