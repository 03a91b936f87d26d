/** ChordAnalyzer.cs as functions: which beats, notes and keys the chord
    detector works on, how the notes are spread over the beats and pooled
    over half bars and bars, the Viterbi pass over the 24 chords, the
    backtrack that labels every beat, and the chord notes played back. The
    class that runs these steps in place is ChordAnalyzers.ChordAnalyzer. */
module ChordAnalysis {
  import opened Wrappers
  import opened MathExt
  import opened Keys
  import opened Events
  import opened Tracks
  import opened Ordering
  import opened SegmentNotes
  import opened ChordSegments

  /** The channel AddChordNotesToModel plays the chords on. */
  const ChordChannel: ChannelNumber := 11

  // ---------------------------------------------------------------------
  // Beats

  /** Where the beat events sit among the meta events, in LinqToMidi order. */
  function BeatPositions(ms: seq<MetaEvent>): (ps: seq<nat>)
    ensures forall k :: 0 <= k < |ps| ==> ps[k] < |ms| && ms[ps[k]].BeatEvent?
    ensures forall a, b :: 0 <= a < b < |ps| ==> ps[a] < ps[b]
    ensures forall i :: 0 <= i < |ms| && ms[i].BeatEvent? ==> i in ps
  {
    if ms == [] then []
    else
      var n := |ms| - 1;
      var init := BeatPositions(ms[..n]);
      assert forall i :: 0 <= i < n && ms[i].BeatEvent? ==> ms[..n][i].BeatEvent?;
      init + if ms[n].BeatEvent? then [n] else []
  }

  function TimesAt(ms: seq<MetaEvent>, ps: seq<nat>): (r: seq<real>)
    requires forall k :: 0 <= k < |ps| ==> ps[k] < |ms|
    ensures |r| == |ps| && forall k :: 0 <= k < |ps| ==> r[k] == ms[ps[k]].time
  {
    seq(|ps|, k requires 0 <= k < |ps| => ms[ps[k]].time)
  }

  /** EventsOfType<BeatEvent>().OrderBy(b => b.AbsoluteRealTime), as the
      position of each beat among the meta events. */
  function BeatOrder(ms: seq<MetaEvent>): (ps: seq<nat>)
    ensures forall k :: 0 <= k < |ps| ==> ps[k] < |ms| && ms[ps[k]].BeatEvent?
  {
    var all := BeatPositions(ms);
    Arranged(all, StableSort(TimesAt(ms, all)))
  }

  /** Every beat event is visited once, in time order. */
  lemma BeatOrderVisitsEachBeat(ms: seq<MetaEvent>)
    ensures var ps := BeatOrder(ms);
      (forall a, b :: 0 <= a < b < |ps| ==> ms[ps[a]].time <= ms[ps[b]].time) &&
      (forall a, b :: 0 <= a < |ps| && 0 <= b < |ps| && a != b ==> ps[a] != ps[b]) &&
      (forall i :: 0 <= i < |ms| && ms[i].BeatEvent? ==> i in ps)
  {
    var all := BeatPositions(ms);
    var order := StableSort(TimesAt(ms, all));
    assert BeatOrder(ms) == Arranged(all, order);
    BeatOrderInTime(ms, all, order);
    BeatOrderDistinct(ms, all, order);
    BeatOrderCovers(ms, all, order);
  }

  lemma BeatOrderInTime(ms: seq<MetaEvent>, all: seq<nat>, order: seq<nat>)
    requires all == BeatPositions(ms) && StableOrder(TimesAt(ms, all), order)
    ensures var ps := Arranged(all, order);
      forall a, b :: 0 <= a < b < |ps| ==> ms[ps[a]].time <= ms[ps[b]].time
  {
    var keys := TimesAt(ms, all);
    var ps := Arranged(all, order);
    forall a, b | 0 <= a < b < |ps|
      ensures ms[ps[a]].time <= ms[ps[b]].time
    {
      StableOrderMonotone(keys, order, a, b);
    }
  }

  lemma BeatOrderDistinct(ms: seq<MetaEvent>, all: seq<nat>, order: seq<nat>)
    requires all == BeatPositions(ms) && StableOrder(TimesAt(ms, all), order)
    ensures var ps := Arranged(all, order);
      forall a, b :: 0 <= a < |ps| && 0 <= b < |ps| && a != b ==> ps[a] != ps[b]
  {
    var ps := Arranged(all, order);
    StableOrderDistinct(TimesAt(ms, all), order);
    forall a, b | 0 <= a < |ps| && 0 <= b < |ps| && a != b
      ensures ps[a] != ps[b]
    {
      assert order[a] != order[b];
      if order[a] < order[b] {
        assert all[order[a]] < all[order[b]];
      } else {
        assert all[order[b]] < all[order[a]];
      }
    }
  }

  lemma BeatOrderCovers(ms: seq<MetaEvent>, all: seq<nat>, order: seq<nat>)
    requires all == BeatPositions(ms) && StableOrder(TimesAt(ms, all), order)
    ensures forall i :: 0 <= i < |ms| && ms[i].BeatEvent? ==> i in Arranged(all, order)
  {
    var ps := Arranged(all, order);
    forall i | 0 <= i < |ms| && ms[i].BeatEvent?
      ensures i in ps
    {
      var j :| 0 <= j < |all| && all[j] == i;
      assert j in order;
      var k :| 0 <= k < |order| && order[k] == j;
      assert ps[k] == i;
    }
  }

  /** The beat events at the given positions. */
  function BeatsAt(ms: seq<MetaEvent>, ps: seq<nat>): (bs: seq<MetaEvent>)
    requires forall k :: 0 <= k < |ps| ==> ps[k] < |ms|
    ensures |bs| == |ps| && forall k :: 0 <= k < |ps| ==> bs[k] == ms[ps[k]]
  {
    seq(|ps|, k requires 0 <= k < |ps| => ms[ps[k]])
  }

  // ---------------------------------------------------------------------
  // Notes

  /** The notes the detector listens to: not percussion, not silent. */
  predicate Heard(e: ControlEvent)
  {
    e.NoteOn? && !IsPercussion(e) && e.volume > 0
  }

  /** A NoteOn as the detector reads it; its identity is its index among
      the model's control events. */
  function AsNote(e: ControlEvent, id: nat): Note
    requires e.NoteOn?
  {
    Note(id, e.time, e.end, e.note, e.realVolume)
  }

  /** EventsOfType<NoteOn>(n => !n.IsPercussion && n.Volume > 0). */
  function HeardNotes(es: seq<ControlEvent>): (ns: seq<Note>)
    ensures |ns| <= |es|
    ensures forall k :: 0 <= k < |ns| ==> ns[k].id < |es| && Heard(es[ns[k].id]) && ns[k] == AsNote(es[ns[k].id], ns[k].id)
    ensures forall a, b :: 0 <= a < b < |ns| ==> ns[a].id < ns[b].id
  {
    if es == [] then []
    else
      var n := |es| - 1;
      var init := HeardNotes(es[..n]);
      assert forall k :: 0 <= k < |init| ==> es[..n][init[k].id] == es[init[k].id];
      init + if Heard(es[n]) then [AsNote(es[n], n)] else []
  }

  /** Every heard note is taken. */
  lemma {:induction false} HeardNotesComplete(es: seq<ControlEvent>, i: nat)
    requires i < |es| && Heard(es[i])
    ensures exists k :: 0 <= k < |HeardNotes(es)| && HeardNotes(es)[k] == AsNote(es[i], i)
  {
    var n := |es| - 1;
    if i < n {
      HeardNotesComplete(es[..n], i);
      var k :| 0 <= k < |HeardNotes(es[..n])| && HeardNotes(es[..n])[k] == AsNote(es[..n][i], i);
      assert HeardNotes(es)[k] == HeardNotes(es[..n])[k];
    } else {
      assert HeardNotes(es)[|HeardNotes(es)| - 1] == AsNote(es[i], i);
    }
  }

  function Onsets(ns: seq<Note>): (r: seq<real>)
    ensures |r| == |ns| && forall k :: 0 <= k < |ns| ==> r[k] == ns[k].time
  {
    seq(|ns|, k requires 0 <= k < |ns| => ns[k].time)
  }

  /** OrderBy(n => n.AbsoluteRealTime). */
  function ByOnset(ns: seq<Note>): (r: seq<Note>)
    ensures |r| == |ns|
  {
    Arranged(ns, StableSort(Onsets(ns)))
  }

  /** The notes are visited by onset, each once. */
  lemma ByOnsetSorted(ns: seq<Note>)
    ensures var r := ByOnset(ns);
      (forall a, b :: 0 <= a < b < |r| ==> r[a].time <= r[b].time) &&
      (forall k :: 0 <= k < |r| ==> r[k] in ns) && (forall n :: n in ns ==> n in r)
  {
    var order := StableSort(Onsets(ns));
    var r := ByOnset(ns);
    forall a, b | 0 <= a < b < |r|
      ensures r[a].time <= r[b].time
    {
      StableOrderMonotone(Onsets(ns), order, a, b);
    }
    forall n | n in ns
      ensures n in r
    {
      var j :| 0 <= j < |ns| && ns[j] == n;
      assert j in order;
      var k :| 0 <= k < |order| && order[k] == j;
      assert r[k] == n;
    }
  }

  /** Min(n => n.NoteNumber): Min of nothing throws. */
  function LowestPitch(ns: seq<Note>): (r: Result<byte>)
    ensures r.Fail? <==> ns == []
    ensures r.Fail? ==> r.failure == InvalidOperation
    ensures r.Ok? ==> (exists k :: 0 <= k < |ns| && ns[k].pitch == r.value) && forall k :: 0 <= k < |ns| ==> r.value <= ns[k].pitch
  {
    if ns == [] then Fail(InvalidOperation)
    else
      var n := |ns| - 1;
      var init := LowestPitch(ns[..n]);
      if init.Ok? && init.value <= ns[n].pitch then
        assert forall k :: 0 <= k < n ==> ns[..n][k] == ns[k];
        init
      else
        Ok(ns[n].pitch)
  }

  // ---------------------------------------------------------------------
  // Keys

  /** The key signatures among the meta events, in LinqToMidi order. */
  function KeySignaturesOf(ms: seq<MetaEvent>): (ks: seq<MetaEvent>)
    ensures |ks| <= |ms| && forall k :: 0 <= k < |ks| ==> ks[k].KeySignature? && ks[k] in ms
  {
    if ms == [] then []
    else
      var n := |ms| - 1;
      KeySignaturesOf(ms[..n]) + if ms[n].KeySignature? then [ms[n]] else []
  }

  function EventTimes(ms: seq<MetaEvent>): (r: seq<real>)
    ensures |r| == |ms| && forall k :: 0 <= k < |ms| ==> r[k] == ms[k].time
  {
    seq(|ms|, k requires 0 <= k < |ms| => ms[k].time)
  }

  /** The queue of key changes: the key signatures by time. */
  function KeyQueue(ms: seq<MetaEvent>): (q: seq<MetaEvent>)
    ensures forall k :: 0 <= k < |q| ==> q[k].KeySignature?
  {
    var ks := KeySignaturesOf(ms);
    Arranged(ks, StableSort(EventTimes(ks)))
  }

  predicate TimeOrdered(ms: seq<MetaEvent>)
  {
    forall a, b :: 0 <= a < b < |ms| ==> ms[a].time <= ms[b].time
  }

  lemma KeyQueueOrdered(ms: seq<MetaEvent>)
    ensures TimeOrdered(KeyQueue(ms))
  {
    var ks := KeySignaturesOf(ms);
    var order := StableSort(EventTimes(ks));
    forall a, b | 0 <= a < b < |KeyQueue(ms)|
      ensures KeyQueue(ms)[a].time <= KeyQueue(ms)[b].time
    {
      StableOrderMonotone(EventTimes(ks), order, a, b);
    }
  }

  /** The key of the first segment and the key changes left in the queue:
      the first key signature when the key came from the file (Dequeue of
      an empty queue throws), otherwise midi.Key (Value of null throws). */
  function FirstKey(m: Model): (r: Result<(Key, seq<MetaEvent>)>)
    ensures r.Fail? ==> r.failure == InvalidOperation
    ensures r.Ok? ==> forall k :: 0 <= k < |r.value.1| ==> r.value.1[k].KeySignature?
  {
    if m.keyFromFile then
      var q := KeyQueue(MetaEvents(m));
      if q == [] then Fail(InvalidOperation) else Ok((q[0].key, q[1..]))
    else if m.key.None? then Fail(InvalidOperation)
    else Ok((m.key.value, []))
  }

  /** The while loop of the constructor: every queued change at or before
      t is taken. */
  function Advance(queue: seq<MetaEvent>, key: Key, t: real): (r: (seq<MetaEvent>, Key))
    requires forall k :: 0 <= k < |queue| ==> queue[k].KeySignature?
    ensures |r.0| <= |queue| && r.0 == queue[|queue| - |r.0|..]
    decreases |queue|
  {
    if queue != [] && queue[0].time <= t then Advance(queue[1..], queue[0].key, t)
    else (queue, key)
  }

  /** The keys of segments 1 onwards, at the given beat times. */
  function KeysFrom(times: seq<real>, queue: seq<MetaEvent>, key: Key): (ks: seq<Key>)
    requires forall k :: 0 <= k < |queue| ==> queue[k].KeySignature?
    ensures |ks| == |times|
    decreases |times|
  {
    if times == [] then []
    else
      var next := Advance(queue, key, times[0]);
      [next.1] + KeysFrom(times[1..], next.0, next.1)
  }

  /** The key of every segment: the first key, then the changes as the
      beats reach them. */
  function SegmentKeys(times: seq<real>, queue: seq<MetaEvent>, first: Key): (ks: seq<Key>)
    requires forall k :: 0 <= k < |queue| ==> queue[k].KeySignature?
    ensures |ks| == |times| && (times != [] ==> ks[0] == first)
  {
    if times == [] then [] else [first] + KeysFrom(times[1..], queue, first)
  }

  /** The reference: the key of the last queued change at or before t,
      or `key` when there is none, looking at every change in the queue. */
  function LastKeyAtOrBefore(queue: seq<MetaEvent>, key: Key, t: real): Key
    requires forall k :: 0 <= k < |queue| ==> queue[k].KeySignature?
    decreases |queue|
  {
    if queue == [] then key
    else LastKeyAtOrBefore(queue[1..], if queue[0].time <= t then queue[0].key else key, t)
  }

  /** No change at or before t: the key stays. */
  lemma {:induction false} LastKeyNoneReached(queue: seq<MetaEvent>, key: Key, t: real)
    requires forall k :: 0 <= k < |queue| ==> queue[k].KeySignature? && queue[k].time > t
    ensures LastKeyAtOrBefore(queue, key, t) == key
    decreases |queue|
  {
    if queue != [] {
      LastKeyNoneReached(queue[1..], key, t);
    }
  }

  /** The last change at or before t gives the key. */
  lemma {:induction false} LastKeyIsLast(queue: seq<MetaEvent>, key: Key, t: real, j: nat)
    requires forall k :: 0 <= k < |queue| ==> queue[k].KeySignature?
    requires j < |queue| && queue[j].time <= t
    requires forall k :: j < k < |queue| ==> queue[k].time > t
    ensures LastKeyAtOrBefore(queue, key, t) == queue[j].key
    decreases |queue|
  {
    if j == 0 {
      LastKeyNoneReached(queue[1..], queue[0].key, t);
    } else {
      LastKeyIsLast(queue[1..], if queue[0].time <= t then queue[0].key else key, t, j - 1);
    }
  }

  /** Advance takes the changes at or before t, which in a queue in time
      order are exactly the ones the reference finds. */
  lemma {:induction false} AdvanceIsLatest(queue: seq<MetaEvent>, key: Key, t: real)
    requires forall k :: 0 <= k < |queue| ==> queue[k].KeySignature?
    requires TimeOrdered(queue)
    ensures Advance(queue, key, t).1 == LastKeyAtOrBefore(queue, key, t)
    decreases |queue|
  {
    if queue != [] {
      if queue[0].time <= t {
        assert TimeOrdered(queue[1..]);
        AdvanceIsLatest(queue[1..], queue[0].key, t);
      } else {
        LastKeyNoneReached(queue, key, t);
      }
    }
  }

  /** After advancing to t, the rest of the queue and the key reached give
      the same key as the whole queue at any later time. */
  lemma {:induction false} AdvanceKeepsLatest(queue: seq<MetaEvent>, key: Key, t: real, u: real)
    requires forall k :: 0 <= k < |queue| ==> queue[k].KeySignature?
    requires t <= u
    ensures var next := Advance(queue, key, t);
      LastKeyAtOrBefore(next.0, next.1, u) == LastKeyAtOrBefore(queue, key, u)
    decreases |queue|
  {
    if queue != [] && queue[0].time <= t {
      AdvanceKeepsLatest(queue[1..], queue[0].key, t, u);
    }
  }

  lemma SuffixOrdered(ms: seq<MetaEvent>, c: nat)
    requires TimeOrdered(ms) && c <= |ms|
    ensures TimeOrdered(ms[c..])
  {
    forall a, b | 0 <= a < b < |ms| - c
      ensures ms[c..][a].time <= ms[c..][b].time
    {
      assert ms[c..][a] == ms[c + a] && ms[c..][b] == ms[c + b];
    }
  }

  /** The key of each later segment is the last change at or before its
      beat, for a queue and beats in time order. */
  lemma {:induction false} KeysFromAreLatest(times: seq<real>, queue: seq<MetaEvent>, key: Key, i: nat)
    requires forall k :: 0 <= k < |queue| ==> queue[k].KeySignature?
    requires TimeOrdered(queue)
    requires Ascending(times)
    requires i < |times|
    ensures KeysFrom(times, queue, key)[i] == LastKeyAtOrBefore(queue, key, times[i])
    decreases i
  {
    KeysFromAt(times, queue, key, i);
    if i == 0 {
      AdvanceIsLatest(queue, key, times[0]);
    } else {
      var next := AdvancedOrdered(queue, key, times[0]);
      TailAscending(times);
      KeysFromAreLatest(times[1..], next.0, next.1, i - 1);
      assert times[0] <= times[i];
      AdvanceKeepsLatest(queue, key, times[0], times[i]);
      calc {
        KeysFrom(times, queue, key)[i];
        KeysFrom(times[1..], next.0, next.1)[i - 1];
        LastKeyAtOrBefore(next.0, next.1, times[i]);
        LastKeyAtOrBefore(queue, key, times[i]);
      }
    }
  }

  /** Times that never decrease. */
  predicate Ascending(times: seq<real>)
  {
    forall a, b :: 0 <= a < b < |times| ==> times[a] <= times[b]
  }

  lemma TailAscending(times: seq<real>)
    requires Ascending(times) && times != []
    ensures Ascending(times[1..])
  {
    forall a, b | 0 <= a < b < |times| - 1
      ensures times[1..][a] <= times[1..][b]
    {
      assert times[1..][a] == times[a + 1] && times[1..][b] == times[b + 1];
    }
  }

  /** What Advance leaves of a queue in time order is a queue in time order. */
  lemma AdvancedOrdered(queue: seq<MetaEvent>, key: Key, t: real) returns (next: (seq<MetaEvent>, Key))
    requires forall k :: 0 <= k < |queue| ==> queue[k].KeySignature?
    requires TimeOrdered(queue)
    ensures next == Advance(queue, key, t)
    ensures forall k :: 0 <= k < |next.0| ==> next.0[k].KeySignature?
    ensures TimeOrdered(next.0)
  {
    next := Advance(queue, key, t);
    SuffixOrdered(queue, |queue| - |next.0|);
  }

  /** Key i is the key Advance reaches at beat 0 for i = 0, and otherwise
      key i - 1 of the remaining beats from there. */
  lemma KeysFromAt(times: seq<real>, queue: seq<MetaEvent>, key: Key, i: nat)
    requires forall k :: 0 <= k < |queue| ==> queue[k].KeySignature?
    requires i < |times|
    ensures var next := Advance(queue, key, times[0]);
      KeysFrom(times, queue, key)[i] ==
        if i == 0 then next.1 else KeysFrom(times[1..], next.0, next.1)[i - 1]
    ensures 0 < i ==> times[1..][i - 1] == times[i]
  {
  }

  /** The key of segment i: the first key for segment 0; for every later
      segment, the last key signature queued at or before its beat, or the
      first key when none is. */
  lemma SegmentKeysAreLatest(times: seq<real>, queue: seq<MetaEvent>, first: Key, i: nat)
    requires forall k :: 0 <= k < |queue| ==> queue[k].KeySignature?
    requires TimeOrdered(queue)
    requires forall a, b :: 0 <= a < b < |times| ==> times[a] <= times[b]
    requires 0 < i < |times|
    ensures SegmentKeys(times, queue, first)[i] == LastKeyAtOrBefore(queue, first, times[i])
  {
    assert Ascending(times);
    TailAscending(times);
    KeysFromAreLatest(times[1..], queue, first, i - 1);
  }

  // ---------------------------------------------------------------------
  // Segments

  /** Every pool a segment refers to holds the 24 chord scores. */
  predicate Shaped(s: Segment)
  {
    |s.level2.scores| == 24 && |s.level1.scores| == 24 && |s.level0.scores| == 24
  }

  /** The constructor's segments: one per beat, in time order, each with
      its key and an empty pool for its own notes. */
  function InitialSegments(beats: seq<MetaEvent>, keys: seq<Key>, lowestPitch: byte): (segs: seq<Segment>)
    requires |keys| == |beats| && forall k :: 0 <= k < |beats| ==> beats[k].BeatEvent?
    ensures |segs| == |beats|
    ensures forall k :: 0 <= k < |segs| ==>
      Shaped(segs[k]) && segs[k].key == keys[k] && segs[k].time == beats[k].time &&
      segs[k].length == beats[k].length && segs[k].level == beats[k].level && segs[k].level2.notes == []
  {
    seq(|beats|, k requires 0 <= k < |beats| => NewSegment(keys[k], beats[k].time, beats[k].length, beats[k].level, lowestPitch))
  }

  // ---------------------------------------------------------------------
  // Spreading the notes over the beats

  /** The while loop of AddNotesToSegments: from segment c on, the first
      segment that has not ended by t; indexing past the last segment
      throws. */
  function Walk(segs: seq<Segment>, c: nat, t: real): (r: Result<nat>)
    requires c <= |segs|
    ensures r.Fail? ==> r.failure == IndexOutOfRange && forall s :: c <= s < |segs| ==> segs[s].time + segs[s].length <= t
    ensures r.Ok? ==> c <= r.value < |segs| && t < segs[r.value].time + segs[r.value].length
    ensures r.Ok? ==> forall s :: c <= s < r.value ==> segs[s].time + segs[s].length <= t
    decreases |segs| - c
  {
    if c == |segs| then Fail(IndexOutOfRange)
    else if segs[c].time + segs[c].length <= t then Walk(segs, c + 1, t)
    else Ok(c)
  }

  /** The bound of the span loop: the first segment from c on that does not
      start before `end`. */
  function SpanEnd(segs: seq<Segment>, c: nat, end: real): (r: nat)
    requires c <= |segs|
    ensures c <= r <= |segs| && (forall s :: c <= s < r ==> segs[s].time < end) && (r < |segs| ==> segs[r].time >= end)
    decreases |segs| - c
  {
    if c < |segs| && segs[c].time < end then SpanEnd(segs, c + 1, end) else c
  }

  /** The note added to every segment of its span. */
  function AddToSpan(segs: seq<Segment>, c: nat, n: Note): (r: seq<Segment>)
    requires c <= |segs|
    ensures |r| == |segs|
  {
    var e := SpanEnd(segs, c, n.end);
    seq(|segs|, s requires 0 <= s < |segs| => if c <= s < e then segs[s].(level2 := AddNote(segs[s].level2, n)) else segs[s])
  }

  /** A note goes to segment s exactly when s is at or after the cursor and
      every segment from the cursor up to s starts before the note ends; it
      joins at weight 0 after the notes already there, and nothing else
      changes. */
  lemma AddToSpanReaches(segs: seq<Segment>, c: nat, n: Note, s: nat)
    requires c <= |segs| && s < |segs|
    ensures var r := AddToSpan(segs, c, n);
      r[s] == segs[s].(level2 := r[s].level2) &&
      r[s].level2 == segs[s].level2.(notes := r[s].level2.notes) &&
      r[s].level2.notes == segs[s].level2.notes +
        if c <= s && forall j :: c <= j <= s ==> segs[j].time < n.end then [(n, 0.0)] else []
  {
    var e := SpanEnd(segs, c, n.end);
    if c <= s && s >= e {
      assert segs[e].time >= n.end;
    }
  }

  /** The foreach loop of AddNotesToSegments: the notes in onset order, the
      cursor carried from one note to the next. */
  function Distribute(segs: seq<Segment>, ns: seq<Note>, c: nat): (r: Result<seq<Segment>>)
    requires c <= |segs|
    decreases |ns|
  {
    if ns == [] then Ok(segs)
    else match Walk(segs, c, ns[0].time)
      case Fail(f) => Fail(f)
      case Ok(cur) => Distribute(AddToSpan(segs, cur, ns[0]), ns[1..], cur)
  }

  /** Spreading the notes changes only the beats' own pools; a beat receives
      only notes of the list that have not ended when it starts, each at
      weight 0. */
  lemma {:induction false} DistributePlaces(segs: seq<Segment>, ns: seq<Note>, c: nat)
    requires c <= |segs|
    ensures var r := Distribute(segs, ns, c);
      r.Ok? ==> (|r.value| == |segs| &&
        forall s :: 0 <= s < |segs| ==>
          r.value[s] == segs[s].(level2 := r.value[s].level2) &&
          r.value[s].level2 == segs[s].level2.(notes := r.value[s].level2.notes) &&
          forall x :: x in r.value[s].level2.notes ==> x in segs[s].level2.notes || (x.0 in ns && x.1 == 0.0 && segs[s].time < x.0.end))
    decreases |ns|
  {
    if ns != [] {
      var w := Walk(segs, c, ns[0].time);
      if w.Ok? {
        var next := AddToSpan(segs, w.value, ns[0]);
        DistributePlaces(next, ns[1..], w.value);
        var r := Distribute(segs, ns, c);
        if r.Ok? {
          forall s | 0 <= s < |segs|
            ensures r.value[s] == segs[s].(level2 := r.value[s].level2)
            ensures r.value[s].level2 == segs[s].level2.(notes := r.value[s].level2.notes)
            ensures forall x :: x in r.value[s].level2.notes ==> x in segs[s].level2.notes || (x.0 in ns && x.1 == 0.0 && segs[s].time < x.0.end)
          {
            AddToSpanReaches(segs, w.value, ns[0], s);
            forall x | x in r.value[s].level2.notes
              ensures x in segs[s].level2.notes || (x.0 in ns && x.1 == 0.0 && segs[s].time < x.0.end)
            {
              if x !in next[s].level2.notes {
                assert x.0 in ns[1..];
              } else if x !in segs[s].level2.notes {
                assert x == (ns[0], 0.0);
                assert segs[s].time < ns[0].end;
              }
            }
          }
        }
      }
    }
  }

  /** With at least one beat, no note is lost to the cursor when every note
      starts before the last beat ends. */
  lemma {:induction false} DistributeSucceeds(segs: seq<Segment>, ns: seq<Note>, c: nat)
    requires c < |segs|
    requires forall k :: 0 <= k < |ns| ==> ns[k].time < segs[|segs| - 1].time + segs[|segs| - 1].length
    ensures Distribute(segs, ns, c).Ok?
    decreases |ns|
  {
    if ns != [] {
      var w := Walk(segs, c, ns[0].time);
      var next := AddToSpan(segs, w.value, ns[0]);
      assert next[|segs| - 1].time == segs[|segs| - 1].time && next[|segs| - 1].length == segs[|segs| - 1].length;
      DistributeSucceeds(next, ns[1..], w.value);
    }
  }

  /** A note that starts once every beat has ended sends the cursor past
      the last segment, and the index throws. */
  lemma {:induction false} DistributeFails(segs: seq<Segment>, ns: seq<Note>, c: nat, k: nat)
    requires c <= |segs| && k < |ns|
    requires forall s :: 0 <= s < |segs| ==> segs[s].time + segs[s].length <= ns[k].time
    ensures Distribute(segs, ns, c) == Fail(IndexOutOfRange)
    decreases |ns|
  {
    var w := Walk(segs, c, ns[0].time);
    if w.Ok? {
      var next := AddToSpan(segs, w.value, ns[0]);
      forall s | 0 <= s < |segs|
        ensures next[s].time + next[s].length <= ns[1..][k - 1].time
      {
        assert next[s].time == segs[s].time && next[s].length == segs[s].length;
      }
      DistributeFails(next, ns[1..], w.value, k - 1);
    }
  }

  // ---------------------------------------------------------------------
  // Pools over half bars and bars

  /** A beat of this level closes the pool and opens a new one: every
      strong beat for the bar pool, every strong or medium beat for the
      half-bar pool. */
  predicate Opens(level: int, bar: bool)
  {
    level == 0 || (!bar && level == 1)
  }

  /** The segment that opened the pool segment i belongs to; None while the
      pool made before the loop is still open. */
  function GroupStart(segs: seq<Segment>, i: nat, bar: bool): (r: Option<nat>)
    requires i < |segs|
    ensures r.Some? ==> r.value <= i && Opens(segs[r.value].level, bar)
    ensures r.Some? ==> forall j :: r.value < j <= i ==> !Opens(segs[j].level, bar)
    ensures r.None? ==> forall j :: 0 <= j <= i ==> !Opens(segs[j].level, bar)
    decreases i
  {
    if Opens(segs[i].level, bar) then Some(i)
    else if i == 0 then None
    else GroupStart(segs, i - 1, bar)
  }

  /** The segment that closes the pool of segment i, or the end. */
  function GroupEnd(segs: seq<Segment>, i: nat, bar: bool): (r: nat)
    requires i < |segs|
    ensures i < r <= |segs| && (forall j :: i < j < r ==> !Opens(segs[j].level, bar)) &&
      (r < |segs| ==> Opens(segs[r].level, bar))
    decreases |segs| - i
  {
    if i + 1 == |segs| then |segs|
    else if Opens(segs[i + 1].level, bar) then i + 1
    else GroupEnd(segs, i + 1, bar)
  }

  /** The pool joined with the own notes of segments lo..hi-1 in turn. */
  function JoinAll(pool: NotesInSegment, segs: seq<Segment>, lo: nat, hi: nat): NotesInSegment
    requires lo <= hi <= |segs|
    decreases hi
  {
    if hi == lo then pool else Join(JoinAll(pool, segs, lo, hi - 1), segs[hi - 1].level2)
  }

  /** The first segment of a pool and the pool's start time: the opening
      beat's onset, or 0 for the pool made before the loop. */
  function GroupFirst(segs: seq<Segment>, i: nat, bar: bool): (r: (nat, real))
    requires i < |segs|
    ensures r.0 <= i
  {
    match GroupStart(segs, i, bar)
    case Some(g) => (g, segs[g].time)
    case None => (0, 0.0)
  }

  /** The scored pool segment i refers to once AddNotesToSegments is done:
      the bar pool scored without the on-beat bonus, the half-bar pool with
      it. */
  function Pool(segs: seq<Segment>, i: nat, bar: bool, lowestPitch: byte): (p: NotesInSegment)
    requires i < |segs|
    ensures |p.scores| == 24
  {
    var first := GroupFirst(segs, i, bar);
    Scored(JoinAll(New(first.1, 0.0, lowestPitch), segs, first.0, GroupEnd(segs, i, bar)), !bar)
  }

  /** Every segment with its two pools. */
  function Pooled(segs: seq<Segment>, lowestPitch: byte): (r: seq<Segment>)
    ensures |r| == |segs|
    ensures forall i :: 0 <= i < |segs| ==>
      r[i] == segs[i].(level0 := r[i].level0, level1 := r[i].level1) && |r[i].level0.scores| == 24 && |r[i].level1.scores| == 24
  {
    seq(|segs|, i requires 0 <= i < |segs| => segs[i].(level0 := Pool(segs, i, true, lowestPitch), level1 := Pool(segs, i, false, lowestPitch)))
  }

  function PoolNotes(p: NotesInSegment): set<Note>
  {
    set x | x in NotesOf(p.notes)
  }

  lemma {:induction false} JoinAllHolds(pool: NotesInSegment, segs: seq<Segment>, lo: nat, hi: nat)
    requires lo <= hi <= |segs|
    ensures var j := JoinAll(pool, segs, lo, hi);
      j.scores == pool.scores && j.lowestPitch == pool.lowestPitch &&
      (hi > lo ==> forall k :: 0 <= k < |j.notes| ==> j.notes[k].1 == 0.0) &&
      forall n :: n in PoolNotes(j) <==> n in PoolNotes(pool) || exists s :: lo <= s < hi && n in PoolNotes(segs[s].level2)
    decreases hi
  {
    if hi > lo {
      var prev := JoinAll(pool, segs, lo, hi - 1);
      JoinAllHolds(pool, segs, lo, hi - 1);
      JoinShape(prev, segs[hi - 1].level2);
      JoinedMembers(pool, prev, segs, lo, hi);
    }
  }

  /** The membership step of JoinAllHolds: joining segment hi - 1's notes
      to the pool of lo .. hi - 1 gives the pool of lo .. hi. */
  lemma JoinedMembers(pool: NotesInSegment, prev: NotesInSegment, segs: seq<Segment>, lo: nat, hi: nat)
    requires lo < hi <= |segs|
    requires forall n :: n in PoolNotes(prev) <==> n in PoolNotes(pool) || exists s :: lo <= s < hi - 1 && n in PoolNotes(segs[s].level2)
    requires PoolNotes(Join(prev, segs[hi - 1].level2)) == PoolNotes(prev) + PoolNotes(segs[hi - 1].level2)
    ensures forall n :: n in PoolNotes(Join(prev, segs[hi - 1].level2)) <==> n in PoolNotes(pool) || exists s :: lo <= s < hi && n in PoolNotes(segs[s].level2)
  {
    forall n
      ensures n in PoolNotes(Join(prev, segs[hi - 1].level2)) <==> n in PoolNotes(pool) || exists s :: lo <= s < hi && n in PoolNotes(segs[s].level2)
    {
      if n in PoolNotes(segs[hi - 1].level2) {
        assert lo <= hi - 1 < hi;
      }
      if exists s :: lo <= s < hi && n in PoolNotes(segs[s].level2) {
        var s :| lo <= s < hi && n in PoolNotes(segs[s].level2);
        if s < hi - 1 {
          assert n in PoolNotes(prev);
        }
      }
    }
  }

  /** A pool holds each note of the beats it spans once, and every segment
      of the same half bar (bar) refers to the same pool: the references the
      source shares are equal values here. */
  lemma PoolHoldsItsBeats(segs: seq<Segment>, i: nat, bar: bool, lowestPitch: byte)
    requires i < |segs|
    ensures var first := GroupFirst(segs, i, bar);
      var p := Pool(segs, i, bar, lowestPitch);
      (forall n :: n in PoolNotes(p) <==> exists s :: first.0 <= s < GroupEnd(segs, i, bar) && n in PoolNotes(segs[s].level2)) &&
      NoDuplicates(NotesOf(p.notes)) &&
      forall j :: first.0 <= j < GroupEnd(segs, i, bar) ==> Pool(segs, j, bar, lowestPitch) == p
  {
    var first := GroupFirst(segs, i, bar);
    var hi := GroupEnd(segs, i, bar);
    var pool := New(first.1, 0.0, lowestPitch);
    var joined := JoinAll(pool, segs, first.0, hi);
    JoinAllHolds(pool, segs, first.0, hi);
    JoinAllDistinct(pool, segs, first.0, hi);
    assert NotesOf(pool.notes) == [];
    assert PoolNotes(pool) == {};
    assert NotesOf(Pool(segs, i, bar, lowestPitch).notes) == NotesOf(joined.notes);
    assert PoolNotes(Pool(segs, i, bar, lowestPitch)) == PoolNotes(joined);
    forall j | first.0 <= j < hi
      ensures Pool(segs, j, bar, lowestPitch) == Pool(segs, i, bar, lowestPitch)
    {
      SameGroup(segs, i, j, bar);
    }
  }

  lemma JoinAllDistinct(pool: NotesInSegment, segs: seq<Segment>, lo: nat, hi: nat)
    requires lo < hi <= |segs|
    ensures NoDuplicates(NotesOf(JoinAll(pool, segs, lo, hi).notes))
  {
    JoinShape(JoinAll(pool, segs, lo, hi - 1), segs[hi - 1].level2);
  }

  /** Two segments between the same opening beats have the same group. */
  lemma SameGroup(segs: seq<Segment>, i: nat, j: nat, bar: bool)
    requires i < |segs| && GroupFirst(segs, i, bar).0 <= j < GroupEnd(segs, i, bar)
    ensures GroupFirst(segs, j, bar) == GroupFirst(segs, i, bar) && GroupEnd(segs, j, bar) == GroupEnd(segs, i, bar)
  {
    var g := GroupStart(segs, i, bar);
    var lo := GroupFirst(segs, i, bar).0;
    var hi := GroupEnd(segs, i, bar);
    if j <= i {
      GroupStartWithin(segs, i, j, bar);
      GroupEndWithin(segs, j, i, bar);
    } else {
      GroupStartWithin(segs, j, i, bar);
      GroupEndWithin(segs, i, j, bar);
    }
  }

  /** No opening beat in (a, b]: the same group start. */
  lemma {:induction false} GroupStartWithin(segs: seq<Segment>, b: nat, a: nat, bar: bool)
    requires a <= b < |segs| && forall j :: a < j <= b ==> !Opens(segs[j].level, bar)
    ensures GroupStart(segs, b, bar) == GroupStart(segs, a, bar)
    decreases b - a
  {
    if a < b {
      GroupStartWithin(segs, b - 1, a, bar);
    }
  }

  /** No opening beat in (a, b]: the same group end. */
  lemma {:induction false} GroupEndWithin(segs: seq<Segment>, a: nat, b: nat, bar: bool)
    requires a <= b < |segs| && forall j :: a < j <= b ==> !Opens(segs[j].level, bar)
    ensures GroupEnd(segs, a, bar) == GroupEnd(segs, b, bar)
    decreases b - a
  {
    if a < b {
      GroupEndWithin(segs, a + 1, b, bar);
    }
  }

  // ---------------------------------------------------------------------
  // The Viterbi pass

  /** Segment 0: its scores are its base scores. */
  function FirstScored(s: Segment): (r: Segment)
    requires Shaped(s)
    ensures |r.scores| == 24 && |r.baseScores| == 24
  {
    var b := BaseScored(s);
    b.(scores := b.baseScores)
  }

  /** Segment k after ConnectSegments: segment 0 scored on its own, every
      later one connected to segment k - 1. */
  function ConnectedAt(segs: seq<Segment>, k: nat): (r: Segment)
    requires k < |segs| && forall j :: 0 <= j < |segs| ==> Shaped(segs[j])
    ensures |r.scores| == 24 && |r.baseScores| == 24
    ensures k > 0 ==> Linked1(r)
    decreases k
  {
    if k == 0 then FirstScored(segs[0])
    else
      assert Shaped(segs[k]);
      Connected(BaseScored(segs[k]), ConnectedAt(segs, k - 1).scores)
  }

  /** The 24 back links of a connected segment each name a chord. */
  predicate Linked1(s: Segment)
  {
    |s.bestPrevious| == 24 && forall d :: 0 <= d < 24 ==> 0 <= s.bestPrevious[d] < 24
  }

  /** Every segment after the first carries 24 back links to chords. */
  predicate Linked(r: seq<Segment>)
  {
    forall k :: 1 <= k < |r| ==> Linked1(r[k])
  }

  /** ConnectSegments: base scores everywhere, then each segment connected
      to the one before it. */
  function ConnectAll(segs: seq<Segment>): (r: seq<Segment>)
    requires forall k :: 0 <= k < |segs| ==> Shaped(segs[k])
    ensures |r| == |segs| && Linked(r)
    ensures forall k :: 0 <= k < |r| ==> |r[k].scores| == 24 && |r[k].baseScores| == 24
  {
    seq(|segs|, k requires 0 <= k < |segs| => ConnectedAt(segs, k))
  }

  /** The recurrence ConnectSegments leaves behind at a segment that
      follows prev: every chord's score is at least each of its 24
      candidates, the predecessor is a chord, and a score above the
      sentinel is the candidate of that predecessor. */
  predicate Follows(prev: Segment, s: Segment)
  {
    |prev.scores| == 24 && |s.scores| == 24 && |s.baseScores| == 24 && Linked1(s) &&
    (forall c, q :: 0 <= c < 24 && 0 <= q < 24 ==> Candidate(prev.scores, s, c, q) <= s.scores[c]) &&
    forall c :: 0 <= c < 24 && s.scores[c] > MinValue ==>
      s.scores[c] == Candidate(prev.scores, s, c, s.bestPrevious[c])
  }

  predicate PassAt(r: seq<Segment>, k: nat)
    requires 1 <= k < |r|
  {
    Follows(r[k - 1], r[k])
  }

  /** A Viterbi pass over the segments: the first segment scores its base
      scores, every later one satisfies the recurrence. */
  predicate IsPass(r: seq<Segment>)
  {
    (forall k :: 0 <= k < |r| ==> |r[k].scores| == 24 && |r[k].baseScores| == 24) &&
    (|r| > 0 ==> r[0].scores == r[0].baseScores) &&
    forall k :: 1 <= k < |r| ==> PassAt(r, k)
  }

  /** ConnectSegments computes a Viterbi pass. */
  lemma ConnectAllIsPass(segs: seq<Segment>)
    requires forall k :: 0 <= k < |segs| ==> Shaped(segs[k])
    ensures IsPass(ConnectAll(segs))
  {
    var r := ConnectAll(segs);
    if |r| > 0 {
      assert r[0] == FirstScored(segs[0]);
    }
    forall k | 1 <= k < |r|
      ensures PassAt(r, k)
    {
      ConnectedIsPass(segs, k);
    }
  }

  lemma ConnectedIsPass(segs: seq<Segment>, k: nat)
    requires forall j :: 0 <= j < |segs| ==> Shaped(segs[j])
    requires 1 <= k < |segs|
    ensures PassAt(ConnectAll(segs), k)
  {
    var r := ConnectAll(segs);
    var s := BaseScored(segs[k]);
    var prev := ConnectedAt(segs, k - 1);
    var here := Connected(s, prev.scores);
    assert r[k - 1] == prev;
    assert r[k] == ConnectedAt(segs, k) == here;
    forall c, q | 0 <= c < 24 && 0 <= q < 24
      ensures Candidate(prev.scores, here, c, q) == Candidate(prev.scores, s, c, q)
    {
    }
    forall c, q | 0 <= c < 24 && 0 <= q < 24
      ensures Candidate(prev.scores, here, c, q) <= here.scores[c]
    {
      CandidateAtMost(s, prev.scores, c, q);
    }
    forall c | 0 <= c < 24 && here.scores[c] > MinValue
      ensures here.scores[c] == Candidate(prev.scores, here, c, here.bestPrevious[c])
    {
      CandidateChosen(s, prev.scores, c);
    }
  }

  /** ConnectedIsBest for one candidate. */
  lemma CandidateAtMost(s: Segment, prev: seq<real>, c: nat, q: nat)
    requires |prev| == 24 && |s.baseScores| == 24 && c < 24 && q < 24
    ensures Candidate(prev, s, c, q) <= Connected(s, prev).scores[c]
  {
    ConnectedIsBest(s, prev, c);
  }

  /** ConnectedIsBest for the chosen candidate. */
  lemma CandidateChosen(s: Segment, prev: seq<real>, c: nat)
    requires |prev| == 24 && |s.baseScores| == 24 && c < 24
    requires Connected(s, prev).scores[c] > MinValue
    ensures Connected(s, prev).scores[c] == Candidate(prev, s, c, Connected(s, prev).bestPrevious[c])
  {
    ConnectedIsBest(s, prev, c);
  }

  /** The score of a sequence of chords over segments 0..n: the base
      scores of its chords and the penalties between them. */
  function PathScore(r: seq<Segment>, path: seq<nat>, n: nat): real
    requires n < |path| <= |r|
    requires forall k :: 0 <= k < |path| ==> path[k] < 24
    requires forall k :: 0 <= k < |r| ==> |r[k].baseScores| == 24
    decreases n
  {
    if n == 0 then r[0].baseScores[path[0]]
    else
      PathScore(r, path, n - 1) + r[n].baseScores[path[n]] +
      Transition(KeyOfIndex(path[n]), KeyOfIndex(path[n - 1]), r[n].noteSum, r[n].level)
  }

  /** Only the chords up to n count. */
  lemma {:induction false} PathScorePrefix(r: seq<Segment>, a: seq<nat>, b: seq<nat>, n: nat)
    requires n < |a| <= |r| && n < |b| <= |r|
    requires (forall k :: 0 <= k < |a| ==> a[k] < 24) && (forall k :: 0 <= k < |b| ==> b[k] < 24)
    requires forall k :: 0 <= k < |r| ==> |r[k].baseScores| == 24
    requires forall k :: 0 <= k <= n ==> a[k] == b[k]
    ensures PathScore(r, a, n) == PathScore(r, b, n)
    decreases n
  {
    if n > 0 {
      PathScorePrefix(r, a, b, n - 1);
    }
  }

  /** No chord sequence scores more than the pass's score of its last chord. */
  lemma {:induction false} NoPathScoresMore(r: seq<Segment>, path: seq<nat>, n: nat)
    requires IsPass(r)
    requires n < |path| <= |r| && forall k :: 0 <= k < |path| ==> path[k] < 24
    ensures PathScore(r, path, n) <= r[n].scores[path[n]]
    decreases n
  {
    if n > 0 {
      NoPathScoresMore(r, path, n - 1);
      assert PassAt(r, n);
      PathStep(r, path, n);
    }
  }

  /** One step of a path adds what the step adds to a candidate. */
  lemma PathStep(r: seq<Segment>, path: seq<nat>, n: nat)
    requires 0 < n < |path| <= |r| && forall k :: 0 <= k < |path| ==> path[k] < 24
    requires forall k :: 0 <= k < |r| ==> |r[k].scores| == 24 && |r[k].baseScores| == 24
    ensures PathScore(r, path, n) - PathScore(r, path, n - 1) ==
      Candidate(r[n - 1].scores, r[n], path[n], path[n - 1]) - r[n - 1].scores[path[n - 1]]
  {
  }

  /** ChooseBestChords' backtrack from chord c of segment i. */
  function Backtrack(r: seq<Segment>, i: nat, c: nat): (path: seq<nat>)
    requires i < |r| && c < 24 && Linked(r)
    ensures |path| == i + 1 && path[i] == c && forall k :: 0 <= k < |path| ==> path[k] < 24
    decreases i
  {
    if i == 0 then [c] else Backtrack(r, i - 1, r[i].bestPrevious[c]) + [c]
  }

  /** No pass score fell back to the sentinel double.MinValue: some
      candidate beat it, as it does for every finite score. */
  predicate AboveSentinel(r: seq<Segment>)
  {
    forall k, c :: 1 <= k < |r| && 0 <= c < |r[k].scores| ==> r[k].scores[c] > MinValue
  }

  /** The backtracked chords score exactly the pass's score. */
  lemma {:induction false} BacktrackAchieves(r: seq<Segment>, i: nat, c: nat)
    requires IsPass(r) && AboveSentinel(r)
    requires i < |r| && c < 24
    ensures Linked(r) && PathScore(r, Backtrack(r, i, c), i) == r[i].scores[c]
    decreases i
  {
    assert Linked(r) by {
      forall k | 1 <= k < |r|
        ensures Linked1(r[k])
      {
        assert PassAt(r, k);
      }
    }
    if i > 0 {
      assert PassAt(r, i);
      var p := r[i].bestPrevious[c];
      BacktrackAchieves(r, i - 1, p);
      BacktrackStep(r, i, c, p);
    }
  }

  /** The induction step: the path to the chosen predecessor scores the
      predecessor's score, so the path through it scores this one. */
  lemma BacktrackStep(r: seq<Segment>, i: nat, c: nat, p: nat)
    requires forall k :: 0 <= k < |r| ==> |r[k].scores| == 24 && |r[k].baseScores| == 24
    requires Linked(r) && 0 < i < |r| && c < 24 && p == r[i].bestPrevious[c]
    requires Follows(r[i - 1], r[i]) && r[i].scores[c] > MinValue
    requires PathScore(r, Backtrack(r, i - 1, p), i - 1) == r[i - 1].scores[p]
    ensures PathScore(r, Backtrack(r, i, c), i) == r[i].scores[c]
  {
    var sub := Backtrack(r, i - 1, p);
    var path := Backtrack(r, i, c);
    assert path == sub + [c];
    PathScorePrefix(r, path, sub, i - 1);
    PathStep(r, path, i);
  }

  /** ChooseBestChords: the first chord of highest score in the last
      segment, then each segment's chord from its successor's BestPrevious. */
  function BestChords(r: seq<Segment>): (chords: seq<nat>)
    requires |r| > 0 && |r[|r| - 1].scores| == 24 && Linked(r)
    ensures |chords| == |r| && forall k :: 0 <= k < |chords| ==> chords[k] < 24
  {
    Backtrack(r, |r| - 1, MaxWithIndex(r[|r| - 1].scores).value.0)
  }

  /** The last chord is the first of highest score; each earlier one is its
      successor's BestPrevious. */
  lemma BestChordsChain(r: seq<Segment>)
    requires |r| > 0 && |r[|r| - 1].scores| == 24 && Linked(r)
    ensures var chords := BestChords(r);
      var last := r[|r| - 1].scores;
      (forall d :: 0 <= d < 24 ==> last[d] <= last[chords[|r| - 1]]) &&
      (forall d :: 0 <= d < chords[|r| - 1] ==> last[d] < last[chords[|r| - 1]]) &&
      forall k :: 1 <= k < |r| ==> ChainedAt(r, chords, k)
  {
    var best := MaxWithIndex(r[|r| - 1].scores).value.0;
    BacktrackChain(r, |r| - 1, best);
    assert BestChords(r)[|r| - 1] == best;
  }

  /** The chord of segment k - 1 is segment k's BestPrevious of its chord. */
  predicate ChainedAt(r: seq<Segment>, path: seq<nat>, k: nat)
  {
    1 <= k < |path| && k < |r| && Linked1(r[k]) && path[k] < 24 && path[k - 1] == r[k].bestPrevious[path[k]]
  }

  lemma {:induction false} BacktrackChain(r: seq<Segment>, i: nat, c: nat)
    requires i < |r| && c < 24 && Linked(r)
    ensures forall k :: 1 <= k <= i ==> ChainedAt(r, Backtrack(r, i, c), k)
    decreases i
  {
    if i > 0 {
      var sub := Backtrack(r, i - 1, r[i].bestPrevious[c]);
      BacktrackChain(r, i - 1, r[i].bestPrevious[c]);
      var path := Backtrack(r, i, c);
      assert path == sub + [c];
      forall k | 1 <= k <= i
        ensures ChainedAt(r, path, k)
      {
        if k < i {
          assert ChainedAt(r, sub, k);
        }
      }
    }
  }

  /** The Viterbi property of any pass: no sequence of chords over all
      the segments scores more than the backtracked one. */
  lemma PassIsOptimal(r: seq<Segment>, path: seq<nat>)
    requires IsPass(r) && AboveSentinel(r) && |r| > 0
    requires |path| == |r| && forall k :: 0 <= k < |path| ==> path[k] < 24
    ensures Linked(r) && PathScore(r, path, |r| - 1) <= PathScore(r, BestChords(r), |r| - 1)
  {
    var n := |r| - 1;
    var best := MaxWithIndex(r[n].scores).value.0;
    NoPathScoresMore(r, path, n);
    BacktrackAchieves(r, n, best);
  }

  /** The chords ChooseBestChords picks after ConnectSegments score at
      least as much as any other sequence of chords. */
  lemma BestChordsAreOptimal(segs: seq<Segment>, path: seq<nat>)
    requires forall k :: 0 <= k < |segs| ==> Shaped(segs[k])
    requires |segs| > 0 && AboveSentinel(ConnectAll(segs))
    requires |path| == |segs| && forall k :: 0 <= k < |path| ==> path[k] < 24
    ensures PathScore(ConnectAll(segs), path, |segs| - 1) <= PathScore(ConnectAll(segs), BestChords(ConnectAll(segs)), |segs| - 1)
  {
    ConnectAllIsPass(segs);
    PassIsOptimal(ConnectAll(segs), path);
  }

  // ---------------------------------------------------------------------
  // Playing the chords

  /** The four notes of a chord: the root an octave below, the root (the
      tone in the octave above middle C's), the third and the fifth. */
  function ChordPitches(chord: Key): (ps: seq<int>)
    ensures |ps| == 4
  {
    var root := chord.tone + 4 * 12;
    [root - 12, root, root + (if chord.scale == Major then 4 else 3), root + 7]
  }

  /** The chord is spelled by its pitches: root, root, third and fifth of
      its tone and mode, every one within a byte. */
  lemma ChordPitchesSpell(chord: Key)
    ensures var ps := ChordPitches(chord);
      36 <= ps[0] && ps[3] <= 66 &&
      ps[1] - ps[0] == 12 && ps[3] - ps[1] == 7 &&
      (ps[2] - ps[1] == 4 <==> chord.scale == Major) && (ps[2] - ps[1] == 3 <==> chord.scale == Minor) &&
      ps[1] % 12 == chord.tone && ps[0] % 12 == chord.tone
  {
  }

  /** (byte)(volume * (1 - beat.Level * 0.125)): the double truncated, its
      low eight bits kept. */
  function ChordVolume(level: int, volume: int): byte
  {
    Trunc(volume as real * (1.0 - level as real * 0.125)) % 256
  }

  /** A chord note: on the chord channel, sounding for the whole beat. */
  function ChordNote(b: MetaEvent, pitch: int, volume: int): (e: ControlEvent)
    requires b.BeatEvent? && 0 <= pitch < 256
  {
    NoteOn(b.tick, b.time, ChordChannel, pitch, ChordVolume(b.level, volume), 0.0, 0, None, b.length, b.time + b.length, [])
  }

  function ChordNotesOf(b: MetaEvent, volume: int): (es: seq<ControlEvent>)
    requires b.BeatEvent?
    ensures |es| == 4
  {
    var ps := ChordPitches(b.chord);
    ChordPitchesSpell(b.chord);
    seq(4, j requires 0 <= j < 4 => ChordNote(b, ps[j], volume))
  }

  /** The notes of AddChordNotesToModel: four per beat, beat by beat. */
  function ChordNotesFor(beats: seq<MetaEvent>, volume: int): (es: seq<ControlEvent>)
    requires forall k :: 0 <= k < |beats| ==> beats[k].BeatEvent?
    ensures |es| == 4 * |beats|
  {
    if beats == [] then []
    else
      var n := |beats| - 1;
      ChordNotesFor(beats[..n], volume) + ChordNotesOf(beats[n], volume)
  }

  /** Note 4k + j plays pitch j of beat k's chord on channel 11 for the
      whole beat. */
  lemma {:induction false} ChordNotesAt(beats: seq<MetaEvent>, volume: int, k: nat, j: nat)
    requires forall i :: 0 <= i < |beats| ==> beats[i].BeatEvent?
    requires k < |beats| && j < 4
    ensures var e := ChordNotesFor(beats, volume)[4 * k + j];
      e.NoteOn? && e.channel == ChordChannel && e.note == ChordPitches(beats[k].chord)[j] &&
      e.tick == beats[k].tick && e.time == beats[k].time && e.realLength == beats[k].length &&
      e.end == beats[k].time + beats[k].length && e.volume == ChordVolume(beats[k].level, volume)
    decreases |beats|
  {
    var n := |beats| - 1;
    ChordPitchesSpell(beats[k].chord);
    if k < n {
      ChordNotesAt(beats[..n], volume, k, j);
    }
  }

  /** Within the byte range, a strong beat plays at the given volume and
      each level down takes an eighth of it off, rounded down. */
  lemma ChordVolumeByLevel(level: int, volume: int)
    requires 0 <= volume <= 255 && 0 <= level <= 2
    ensures level == 0 ==> ChordVolume(level, volume) == volume
    ensures ChordVolume(level, volume) as real <= volume as real * (1.0 - level as real * 0.125) < ChordVolume(level, volume) as real + 1.0
  {
    var x := volume as real * (1.0 - level as real * 0.125);
    if level == 0 {
      assert x == volume as real;
    } else if level == 1 {
      assert x == volume as real * 0.875;
    } else {
      assert x == volume as real * 0.75;
    }
    assert 0 <= Trunc(x) < 256;
  }
}
