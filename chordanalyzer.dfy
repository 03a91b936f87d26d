/** ChordAnalyzer: the driver of the chord decoder. The constructor makes
    one segment per beat with the key in force at that beat; Analyze
    spreads the notes over the beats and pools them by half bar and bar,
    runs the Viterbi pass and writes the chosen chord into every beat
    event; AddChordNotesToModel plays the chords. */
module ChordAnalyzers {
  import opened Wrappers
  import opened MathExt
  import opened Keys
  import opened Events
  import opened Tracks
  import opened SegmentNotes
  import opened ChordSegments
  import opened ChordAnalysis
  import VolumeChangeCollector

  // ---------------------------------------------------------------------
  // Construction

  /** What the constructor builds, or what it throws: Min over no notes
      and a missing key throw InvalidOperationException, in that order,
      and then _beats[0] of no beats throws IndexOutOfRangeException. */
  function Start(m: Model): Result<seq<Segment>>
  {
    var ms := MetaEvents(m);
    var ps := BeatOrder(ms);
    var lp := LowestPitch(HeardNotes(ControlEvents(m)));
    if lp.Fail? then Fail(lp.failure)
    else match FirstKey(m)
      case Fail(f) => Fail(f)
      case Ok(first) =>
        if ps == [] then Fail(IndexOutOfRange)
        else Ok(InitialSegments(BeatsAt(ms, ps), SegmentKeys(TimesAt(ms, ps), first.1, first.0), lp.value))
  }

  /** The constructor throws InvalidOperationException when no note is
      heard or no key is known, then IndexOutOfRangeException exactly when
      there is no beat, and otherwise builds one segment per beat. */
  lemma StartOutcome(m: Model)
    ensures HeardNotes(ControlEvents(m)) == [] ==> Start(m) == Fail(InvalidOperation)
    ensures FirstKey(m).Fail? ==> Start(m) == Fail(InvalidOperation)
    ensures HeardNotes(ControlEvents(m)) != [] && FirstKey(m).Ok? ==> (Start(m).Fail? <==> BeatOrder(MetaEvents(m)) == [])
    ensures HeardNotes(ControlEvents(m)) != [] && FirstKey(m).Ok? && Start(m).Fail? ==> Start(m).failure == IndexOutOfRange
    ensures Start(m).Ok? ==> |Start(m).value| == |BeatOrder(MetaEvents(m))|
  {
  }

  /** The pieces a successful start is built from. */
  lemma StartParts(m: Model) returns (ms: seq<MetaEvent>, ps: seq<nat>, first: (Key, seq<MetaEvent>), lp: byte)
    requires Start(m).Ok?
    ensures ms == MetaEvents(m) && ps == BeatOrder(ms) && |ps| > 0
    ensures forall k :: 0 <= k < |ps| ==> ps[k] < |ms| && ms[ps[k]].BeatEvent?
    ensures LowestPitch(HeardNotes(ControlEvents(m))) == Ok(lp) && FirstKey(m) == Ok(first)
    ensures forall k :: 0 <= k < |first.1| ==> first.1[k].KeySignature?
    ensures Start(m).value == InitialSegments(BeatsAt(ms, ps), SegmentKeys(TimesAt(ms, ps), first.1, first.0), lp)
  {
    ms := MetaEvents(m);
    ps := BeatOrder(ms);
    first := FirstKey(m).value;
    lp := LowestPitch(HeardNotes(ControlEvents(m))).value;
  }

  /** The segments follow the beats in time order, one each, and all of
      them start with no notes. */
  lemma StartFollowsBeats(m: Model)
    requires Start(m).Ok?
    ensures var ms := MetaEvents(m);
      var ps := BeatOrder(ms);
      var segs := Start(m).value;
      (forall k :: 0 <= k < |segs| ==>
        segs[k].time == ms[ps[k]].time && segs[k].length == ms[ps[k]].length &&
        segs[k].level == ms[ps[k]].level && segs[k].level2.notes == [] && Shaped(segs[k])) &&
      forall a, b :: 0 <= a < b < |segs| ==> segs[a].time <= segs[b].time
  {
    var ms, ps, first, lp := StartParts(m);
    var beats := BeatsAt(ms, ps);
    var segs := InitialSegments(beats, SegmentKeys(TimesAt(ms, ps), first.1, first.0), lp);
    BeatOrderVisitsEachBeat(ms);
    FollowsBeats(ms, ps, beats, segs);
  }

  /** Segments made one per beat, in the order the beats are visited. */
  lemma FollowsBeats(ms: seq<MetaEvent>, ps: seq<nat>, beats: seq<MetaEvent>, segs: seq<Segment>)
    requires |segs| == |beats| == |ps| && forall k :: 0 <= k < |ps| ==> ps[k] < |ms| && beats[k] == ms[ps[k]] && beats[k].BeatEvent?
    requires forall a, b :: 0 <= a < b < |ps| ==> ms[ps[a]].time <= ms[ps[b]].time
    requires forall k :: 0 <= k < |segs| ==>
      Shaped(segs[k]) && segs[k].time == beats[k].time &&
      segs[k].length == beats[k].length && segs[k].level == beats[k].level && segs[k].level2.notes == []
    ensures forall k :: 0 <= k < |segs| ==>
      segs[k].time == ms[ps[k]].time && segs[k].length == ms[ps[k]].length &&
      segs[k].level == ms[ps[k]].level && segs[k].level2.notes == [] && Shaped(segs[k])
    ensures forall a, b :: 0 <= a < b < |segs| ==> segs[a].time <= segs[b].time
  {
  }

  /** The first segment has the starting key and every later one the last
      key change at or before its beat (the starting key when there is
      none). */
  lemma StartKeys(m: Model)
    requires Start(m).Ok?
    ensures var segs := Start(m).value;
      var first := FirstKey(m).value;
      segs[0].key == first.0 &&
      forall k :: 0 < k < |segs| ==> segs[k].key == LastKeyAtOrBefore(first.1, first.0, segs[k].time)
  {
    var ms := MetaEvents(m);
    var first := FirstKey(m).value;
    BeatTimesOrdered(ms);
    QueueOrdered(m);
    AllKeysLatest(TimesAt(ms, BeatOrder(ms)), first.1, first.0);
  }

  /** The beat times in the order the beats are visited never decrease. */
  lemma BeatTimesOrdered(ms: seq<MetaEvent>)
    ensures var times := TimesAt(ms, BeatOrder(ms));
      forall a, b :: 0 <= a < b < |times| ==> times[a] <= times[b]
  {
    BeatOrderVisitsEachBeat(ms);
  }

  /** Every segment after the first has the last key change at or before
      its time. */
  lemma AllKeysLatest(times: seq<real>, queue: seq<MetaEvent>, first: Key)
    requires forall k :: 0 <= k < |queue| ==> queue[k].KeySignature?
    requires TimeOrdered(queue)
    requires forall a, b :: 0 <= a < b < |times| ==> times[a] <= times[b]
    ensures forall k :: 0 < k < |times| ==> SegmentKeys(times, queue, first)[k] == LastKeyAtOrBefore(queue, first, times[k])
  {
    forall k | 0 < k < |times|
      ensures SegmentKeys(times, queue, first)[k] == LastKeyAtOrBefore(queue, first, times[k])
    {
      SegmentKeysAreLatest(times, queue, first, k);
    }
  }

  /** The key changes left after the first are in time order. */
  lemma QueueOrdered(m: Model)
    requires FirstKey(m).Ok?
    ensures TimeOrdered(FirstKey(m).value.1)
  {
    if m.keyFromFile {
      KeyQueueOrdered(MetaEvents(m));
    }
  }

  // ---------------------------------------------------------------------
  // Spreading the notes

  /** The foreach loop of AddNotesToSegments over the notes in onset order:
      the cursor walks to the first beat the note has not outlived, and the
      note joins every beat from there that starts before it ends. */
  method SpreadNotes(segs: seq<Segment>, notes: seq<Note>) returns (r: Result<seq<Segment>>)
    ensures r == Distribute(segs, notes, 0)
  {
    var out := segs;
    var current: nat := 0;
    for j := 0 to |notes|
      invariant current <= |out| == |segs|
      invariant Distribute(segs, notes, 0) == Distribute(out, notes[j..], current)
    {
      var walked := WalkCursor(out, current, notes[j].time);
      DistributeStep(out, notes, j, current);
      if walked.Fail? {
        return Fail(IndexOutOfRange);
      }
      current := walked.value;
      out := AddToBeats(out, current, notes[j]);
    }
    r := Ok(out);
  }

  /** Distribute from note j on: the walk for note j, then the rest. */
  lemma DistributeStep(segs: seq<Segment>, notes: seq<Note>, j: nat, c: nat)
    requires c <= |segs| && j < |notes|
    ensures Distribute(segs, notes[j..], c) ==
      match Walk(segs, c, notes[j].time)
      case Fail(f) => Fail(f)
      case Ok(cur) => Distribute(AddToSpan(segs, cur, notes[j]), notes[j + 1..], cur)
  {
    assert notes[j..][1..] == notes[j + 1..];
  }

  /** Lines 116-119: the cursor moves past every beat that has ended by t;
      indexing past the last beat throws. */
  method WalkCursor(segs: seq<Segment>, c: nat, t: real) returns (r: Result<nat>)
    requires c <= |segs|
    ensures r == Walk(segs, c, t)
  {
    var current := c;
    while current < |segs| && segs[current].time + segs[current].length <= t
      invariant c <= current <= |segs|
      invariant Walk(segs, current, t) == Walk(segs, c, t)
      decreases |segs| - current
    {
      current := current + 1;
    }
    if current == |segs| {
      return Fail(IndexOutOfRange);
    }
    r := Ok(current);
  }

  /** Lines 121-124: the note joins every beat from the cursor on that
      starts before the note ends. */
  method AddToBeats(segs: seq<Segment>, c: nat, note: Note) returns (out: seq<Segment>)
    requires c <= |segs|
    ensures out == AddToSpan(segs, c, note)
  {
    out := segs;
    var span := c;
    while span < |out| && out[span].time < note.end
      invariant c <= span <= SpanEnd(segs, c, note.end) && |out| == |segs|
      invariant forall s :: 0 <= s < |out| ==>
        out[s] == (if c <= s < span then segs[s].(level2 := AddNote(segs[s].level2, note)) else segs[s])
      decreases |out| - span
    {
      out := out[span := out[span].(level2 := AddNote(out[span].level2, note))];
      span := span + 1;
    }
  }

  // ---------------------------------------------------------------------
  // Pooling by half bar and bar

  /** The pool open at step i of the pooling loop: opened by segment lo at
      its onset or, before any opening beat, the pool made before the loop
      at time 0; no segment after lo and before i opens another. */
  predicate OpenGroup(d: seq<Segment>, bar: bool, lo: nat, i: nat, start: real)
  {
    lo <= i <= |d| &&
    (forall j :: lo < j < i ==> !Opens(d[j].level, bar)) &&
    if lo < i && Opens(d[lo].level, bar) then start == d[lo].time else lo == 0 && start == 0.0
  }

  /** When segment i opens a new pool, or the segments run out, every
      segment of the open pool has that pool: it starts at lo and ends at i. */
  lemma GroupOf(d: seq<Segment>, bar: bool, lo: nat, i: nat, start: real, j: nat)
    requires OpenGroup(d, bar, lo, i, start) && lo <= j < i
    requires i == |d| || Opens(d[i].level, bar)
    ensures GroupFirst(d, j, bar) == (lo, start) && GroupEnd(d, j, bar) == i
  {
    GroupStartWithin(d, j, lo, bar);
    GroupEndWithin(d, j, i - 1, bar);
  }

  /** The bar pool (bar) or the half-bar pool of a segment. */
  function Level(s: Segment, bar: bool): NotesInSegment
  {
    if bar then s.level0 else s.level1
  }

  /** The segment referring to another bar pool (bar) or half-bar pool. */
  function WithLevel(s: Segment, bar: bool, p: NotesInSegment): (r: Segment)
    ensures Level(r, bar) == p && Level(r, !bar) == Level(s, !bar) && r.level2 == s.level2
  {
    if bar then s.(level0 := p) else s.(level1 := p)
  }

  /** Segments lo..hi-1 get the scored pool at the given level. */
  method WriteGroup(out: seq<Segment>, lo: nat, hi: nat, bar: bool, p: NotesInSegment) returns (r: seq<Segment>)
    requires lo <= hi <= |out|
    ensures |r| == |out|
    ensures forall j :: 0 <= j < |out| ==> r[j] == (if lo <= j < hi then WithLevel(out[j], bar, p) else out[j])
  {
    r := out;
    for j := lo to hi
      invariant |r| == |out|
      invariant forall k :: 0 <= k < |out| ==> r[k] == (if lo <= k < j then WithLevel(out[k], bar, p) else out[k])
    {
      if bar {
        r := r[j := r[j].(level0 := p)];
      } else {
        r := r[j := r[j].(level1 := p)];
      }
    }
  }

  /** The segments keep everything but their bar and half-bar pools. */
  ghost predicate Kept(d: seq<Segment>, out: seq<Segment>)
  {
    |out| == |d| &&
    forall j :: 0 <= j < |d| ==> out[j] == d[j].(level0 := out[j].level0, level1 := out[j].level1)
  }

  /** Segments 0..n-1 hold their scored pool at the given level. */
  ghost predicate PooledUpTo(d: seq<Segment>, out: seq<Segment>, bar: bool, n: nat, lp: byte)
  {
    n <= |d| == |out| &&
    forall j {:trigger Pool(d, j, bar, lp)} :: 0 <= j < n ==> Level(out[j], bar) == Pool(d, j, bar, lp)
  }

  /** r is out with only the given level of some segments replaced. */
  ghost predicate OnlyLevel(out: seq<Segment>, r: seq<Segment>, bar: bool)
  {
    |r| == |out| &&
    forall j :: 0 <= j < |out| ==> r[j] == WithLevel(out[j], bar, Level(r[j], bar))
  }

  lemma KeptWritten(d: seq<Segment>, out: seq<Segment>, r: seq<Segment>, bar: bool)
    requires Kept(d, out) && OnlyLevel(out, r, bar)
    ensures Kept(d, r)
  {
  }

  /** Writing one level leaves the pools held at the other. */
  lemma OtherKept(d: seq<Segment>, out: seq<Segment>, r: seq<Segment>, bar: bool, n: nat, lp: byte)
    requires PooledUpTo(d, out, !bar, n, lp) && OnlyLevel(out, r, bar)
    ensures PooledUpTo(d, r, !bar, n, lp)
  {
    forall j | 0 <= j < n
      ensures Level(r[j], !bar) == Pool(d, j, !bar, lp)
    {
      assert r[j] == WithLevel(out[j], bar, Level(r[j], bar));
    }
  }

  /** Closing a pool: it is scored, and every segment from lo to hi, which
      refers to it, holds the scored pool. */
  method CloseGroup(d: seq<Segment>, out: seq<Segment>, bar: bool, lo: nat, hi: nat, ghost start: real, pool: NotesInSegment, lp: byte)
    returns (r: seq<Segment>)
    requires OpenGroup(d, bar, lo, hi, start) && (hi == |d| || Opens(d[hi].level, bar))
    requires pool == JoinAll(New(start, 0.0, lp), d, lo, hi) && PooledUpTo(d, out, bar, lo, lp)
    ensures OnlyLevel(out, r, bar) && PooledUpTo(d, r, bar, hi, lp)
  {
    var scored := ScorePool(d, bar, lo, hi, start, pool, lp);
    r := WriteGroup(out, lo, hi, bar, scored);
    forall j | 0 <= j < hi
      ensures Level(r[j], bar) == Pool(d, j, bar, lp)
    {
      assert r[j] == (if lo <= j < hi then WithLevel(out[j], bar, scored) else out[j]);
    }
  }

  /** The closed pool scored is the scored pool of each of its segments. */
  method ScorePool(d: seq<Segment>, bar: bool, lo: nat, hi: nat, ghost start: real, pool: NotesInSegment, lp: byte)
    returns (scored: NotesInSegment)
    requires OpenGroup(d, bar, lo, hi, start) && (hi == |d| || Opens(d[hi].level, bar))
    requires pool == JoinAll(New(start, 0.0, lp), d, lo, hi)
    ensures forall j :: lo <= j < hi ==> Pool(d, j, bar, lp) == scored
  {
    JoinAllHolds(New(start, 0.0, lp), d, lo, hi);
    scored := ComputeScores(pool, !bar);
    forall j | lo <= j < hi
      ensures Pool(d, j, bar, lp) == scored
    {
      GroupOf(d, bar, lo, hi, start, j);
    }
  }

  /** One pool's part of a step of the pooling loop: a segment that opens
      a pool closes the open one and starts a new one at its own onset;
      then its own notes join the open pool. */
  method PoolStep(d: seq<Segment>, out: seq<Segment>, bar: bool, i: nat, lo: nat, ghost start: real, pool: NotesInSegment, lp: byte)
    returns (out': seq<Segment>, lo': nat, ghost start': real, pool': NotesInSegment)
    requires i < |d| && Pooling(d, out, bar, lo, i, start, pool, lp)
    ensures Pooling(d, out', bar, lo', i + 1, start', pool', lp) && OnlyLevel(out, out', bar)
  {
    if Opens(d[i].level, bar) {
      out' := CloseGroup(d, out, bar, lo, i, start, pool, lp);
      KeptWritten(d, out, out', bar);
      lo', start', pool' := i, d[i].time, Join(New(d[i].time, 0.0, lp), d[i].level2);
    } else {
      out', lo', start', pool' := out, lo, start, Join(pool, d[i].level2);
    }
  }

  /** The second foreach loop of AddNotesToSegments and the two scorings
      after it: every segment refers to the bar pool and the half-bar pool
      it lies in, each scored once it is complete. */
  method PoolSegments(d: seq<Segment>, lp: byte) returns (out: seq<Segment>)
    ensures out == Pooled(d, lp)
  {
    var lo0, lo1, pool0, pool1;
    ghost var start0, start1;
    out, lo0, lo1, start0, start1, pool0, pool1 := PoolLoop(d, lp);
    out := CloseBoth(d, out, lo0, lo1, start0, start1, pool0, pool1, lp);
  }

  /** The loop itself: each segment in turn, first for the half-bar pool,
      then for the bar pool. */
  method PoolLoop(d: seq<Segment>, lp: byte)
    returns (out: seq<Segment>, lo0: nat, lo1: nat, ghost start0: real, ghost start1: real, pool0: NotesInSegment, pool1: NotesInSegment)
    ensures Pooling(d, out, true, lo0, |d|, start0, pool0, lp)
    ensures Pooling(d, out, false, lo1, |d|, start1, pool1, lp)
  {
    out := d;
    pool0 := New(0.0, 0.0, lp);
    pool1 := New(0.0, 0.0, lp);
    lo0, lo1 := 0, 0;
    start0, start1 := 0.0, 0.0;
    for i := 0 to |d|
      invariant Pooling(d, out, true, lo0, i, start0, pool0, lp)
      invariant Pooling(d, out, false, lo1, i, start1, pool1, lp)
    {
      out, lo0, lo1, start0, start1, pool0, pool1 := PoolBoth(d, out, i, lo0, lo1, start0, start1, pool0, pool1, lp);
    }
  }

  /** One step of the loop: segment i for the half-bar pool, then for the
      bar pool. */
  method PoolBoth(d: seq<Segment>, out: seq<Segment>, i: nat, lo0: nat, lo1: nat, ghost start0: real, ghost start1: real,
    pool0: NotesInSegment, pool1: NotesInSegment, lp: byte)
    returns (out': seq<Segment>, lo0': nat, lo1': nat, ghost start0': real, ghost start1': real, pool0': NotesInSegment, pool1': NotesInSegment)
    requires i < |d|
    requires Pooling(d, out, true, lo0, i, start0, pool0, lp)
    requires Pooling(d, out, false, lo1, i, start1, pool1, lp)
    ensures Pooling(d, out', true, lo0', i + 1, start0', pool0', lp)
    ensures Pooling(d, out', false, lo1', i + 1, start1', pool1', lp)
  {
    var half;
    half, lo1', start1', pool1' := PoolStep(d, out, false, i, lo1, start1, pool1, lp);
    OtherKept(d, out, half, false, lo0, lp);
    out', lo0', start0', pool0' := PoolStep(d, half, true, i, lo0, start0, pool0, lp);
    OtherKept(d, half, out', true, lo1', lp);
  }

  /** The two scorings after the loop: the pools still open are closed. */
  method CloseBoth(d: seq<Segment>, out: seq<Segment>, lo0: nat, lo1: nat, ghost start0: real, ghost start1: real,
    pool0: NotesInSegment, pool1: NotesInSegment, lp: byte) returns (r: seq<Segment>)
    requires Pooling(d, out, true, lo0, |d|, start0, pool0, lp)
    requires Pooling(d, out, false, lo1, |d|, start1, pool1, lp)
    ensures r == Pooled(d, lp)
  {
    r := CloseGroup(d, out, true, lo0, |d|, start0, pool0, lp);
    OtherKept(d, out, r, true, lo1, lp);
    KeptWritten(d, out, r, true);
    ghost var before := r;
    r := CloseGroup(d, r, false, lo1, |d|, start1, pool1, lp);
    OtherKept(d, before, r, false, |d|, lp);
    KeptWritten(d, before, r, false);
    PooledAll(d, r, lp);
  }

  /** The state of one pool during the pooling loop at step i: the segments
      keep everything but their bar and half-bar pools, the open pool holds
      the own notes of segments lo..i-1, and every segment before lo holds
      its scored pool. */
  ghost predicate Pooling(d: seq<Segment>, out: seq<Segment>, bar: bool, lo: nat, i: nat, start: real, pool: NotesInSegment, lp: byte)
  {
    Kept(d, out) && OpenGroup(d, bar, lo, i, start) && pool == JoinAll(New(start, 0.0, lp), d, lo, i) &&
    PooledUpTo(d, out, bar, lo, lp)
  }

  /** With both pools of every segment in place the pooling is done. */
  lemma PooledAll(d: seq<Segment>, out: seq<Segment>, lp: byte)
    requires Kept(d, out) && PooledUpTo(d, out, true, |d|, lp) && PooledUpTo(d, out, false, |d|, lp)
    ensures out == Pooled(d, lp)
  {
    forall j | 0 <= j < |d|
      ensures out[j] == Pooled(d, lp)[j]
    {
      assert Level(out[j], true) == Pool(d, j, true, lp) && Level(out[j], false) == Pool(d, j, false, lp);
    }
  }

  /** Spreading notes keeps every pool's 24 scores. */
  lemma DistributeKeepsShape(segs: seq<Segment>, ns: seq<Note>)
    requires forall k :: 0 <= k < |segs| ==> Shaped(segs[k])
    ensures Distribute(segs, ns, 0).Ok? ==>
      |Distribute(segs, ns, 0).value| == |segs| && forall k :: 0 <= k < |segs| ==> Shaped(Distribute(segs, ns, 0).value[k])
  {
    DistributePlaces(segs, ns, 0);
  }

  /** AddNotesToSegments: the notes spread over the beats, then the pools;
      the cursor running past the last beat throws. */
  function NotesAdded(m: Model, segs: seq<Segment>, lp: byte): (r: Result<seq<Segment>>)
    requires forall k :: 0 <= k < |segs| ==> Shaped(segs[k])
    ensures r.Ok? ==> |r.value| == |segs| && forall k :: 0 <= k < |segs| ==> Shaped(r.value[k])
  {
    var ns := ByOnset(HeardNotes(ControlEvents(m)));
    DistributeKeepsShape(segs, ns);
    match Distribute(segs, ns, 0)
    case Fail(f) => Fail(f)
    case Ok(d) =>
      assert forall k :: 0 <= k < |segs| ==> Pooled(d, lp)[k].level2 == d[k].level2;
      Ok(Pooled(d, lp))
  }

  /** Segment i's pool at that level holds each note of the own notes of
      segments lo..hi-1 once, and all of those segments refer to it. */
  ghost predicate SharedPool(r: seq<Segment>, lo: nat, hi: nat, i: nat, bar: bool)
    requires lo <= i < hi <= |r|
  {
    var p := Level(r[i], bar);
    (forall n :: n in PoolNotes(p) <==> exists s :: lo <= s < hi && n in PoolNotes(r[s].level2)) &&
    NoDuplicates(NotesOf(p.notes)) &&
    forall j :: lo <= j < hi ==> Level(r[j], bar) == p
  }

  /** After AddNotesToSegments each segment keeps its beat, and its own
      pool gains only heard notes that have not ended when its beat starts,
      at weight 0. */
  lemma NotesAddedOwn(m: Model, segs: seq<Segment>, lp: byte, i: nat)
    requires forall k :: 0 <= k < |segs| ==> Shaped(segs[k])
    requires NotesAdded(m, segs, lp).Ok? && i < |segs|
    ensures var ns := ByOnset(HeardNotes(ControlEvents(m)));
      var r := NotesAdded(m, segs, lp).value;
      r[i] == segs[i].(level2 := r[i].level2, level1 := r[i].level1, level0 := r[i].level0) &&
      r[i].level2 == segs[i].level2.(notes := r[i].level2.notes) &&
      forall x :: x in r[i].level2.notes ==> x in segs[i].level2.notes || (x.0 in ns && x.1 == 0.0 && segs[i].time < x.0.end)
  {
    var ns := ByOnset(HeardNotes(ControlEvents(m)));
    DistributePlaces(segs, ns, 0);
    var d := Distribute(segs, ns, 0).value;
    assert NotesAdded(m, segs, lp).value[i] == Pooled(d, lp)[i];
  }

  /** After AddNotesToSegments the bar pool (bar) or half-bar pool of a
      segment is shared by the beats of its bar or half bar, from the
      opening beat up to the next, and holds exactly their notes. */
  lemma NotesAddedPool(m: Model, segs: seq<Segment>, lp: byte, i: nat, bar: bool)
    requires forall k :: 0 <= k < |segs| ==> Shaped(segs[k])
    requires NotesAdded(m, segs, lp).Ok? && i < |segs|
    ensures var d := Distribute(segs, ByOnset(HeardNotes(ControlEvents(m))), 0).value;
      SharedPool(NotesAdded(m, segs, lp).value, GroupFirst(d, i, bar).0, GroupEnd(d, i, bar), i, bar)
  {
    var d := Distribute(segs, ByOnset(HeardNotes(ControlEvents(m))), 0).value;
    assert NotesAdded(m, segs, lp).value == Pooled(d, lp);
    PooledShares(d, lp, i, bar);
  }

  /** Each pool of the pooled segments is shared by its group and holds
      the group's own notes once each. */
  lemma PooledShares(d: seq<Segment>, lp: byte, i: nat, bar: bool)
    requires i < |d|
    ensures SharedPool(Pooled(d, lp), GroupFirst(d, i, bar).0, GroupEnd(d, i, bar), i, bar)
  {
    var r := Pooled(d, lp);
    var lo, hi := GroupFirst(d, i, bar).0, GroupEnd(d, i, bar);
    var p := Pool(d, i, bar, lp);
    GroupPool(d, i, bar, lp, lo, hi, p);
    assert Level(r[i], bar) == p;
    PooledLevels(d, lp, r, i, bar, lo, hi, p);
    PooledMembers(d, lp, r, p, lo, hi);
    SharedFrom(r, lo, hi, i, bar, p);
  }

  /** PoolHoldsItsBeats with the group's bounds and pool named. */
  lemma GroupPool(d: seq<Segment>, i: nat, bar: bool, lp: byte, lo: nat, hi: nat, p: NotesInSegment)
    requires i < |d| && lo == GroupFirst(d, i, bar).0 && hi == GroupEnd(d, i, bar) && p == Pool(d, i, bar, lp)
    ensures lo <= i < hi <= |d|
    ensures forall n :: n in PoolNotes(p) <==> exists s :: lo <= s < hi && n in PoolNotes(d[s].level2)
    ensures NoDuplicates(NotesOf(p.notes))
    ensures forall j :: lo <= j < hi ==> Pool(d, j, bar, lp) == p
  {
    PoolHoldsItsBeats(d, i, bar, lp);
  }

  /** Every segment of the group refers to the pool of segment i. */
  lemma PooledLevels(d: seq<Segment>, lp: byte, r: seq<Segment>, i: nat, bar: bool, lo: nat, hi: nat, p: NotesInSegment)
    requires i < |d| && r == Pooled(d, lp) && lo == GroupFirst(d, i, bar).0 && hi == GroupEnd(d, i, bar)
    requires p == Pool(d, i, bar, lp) && forall j :: lo <= j < hi ==> Pool(d, j, bar, lp) == p
    ensures forall j :: lo <= j < hi ==> Level(r[j], bar) == p
  {
    forall j | lo <= j < hi
      ensures Level(r[j], bar) == p
    {
      assert Level(r[j], bar) == Pool(d, j, bar, lp);
    }
  }

  /** Pooling keeps each segment's own notes, so the pool holds the own
      notes of the pooled group. */
  lemma PooledMembers(d: seq<Segment>, lp: byte, r: seq<Segment>, p: NotesInSegment, lo: nat, hi: nat)
    requires lo <= hi <= |d| && r == Pooled(d, lp)
    requires forall n :: n in PoolNotes(p) <==> exists s :: lo <= s < hi && n in PoolNotes(d[s].level2)
    ensures forall n :: n in PoolNotes(p) <==> exists s :: lo <= s < hi && n in PoolNotes(r[s].level2)
  {
    forall n
      ensures n in PoolNotes(p) <==> exists s :: lo <= s < hi && n in PoolNotes(r[s].level2)
    {
      if n in PoolNotes(p) {
        var s :| lo <= s < hi && n in PoolNotes(d[s].level2);
        assert r[s].level2 == d[s].level2;
      }
      if exists s :: lo <= s < hi && n in PoolNotes(r[s].level2) {
        var s :| lo <= s < hi && n in PoolNotes(r[s].level2);
        assert r[s].level2 == d[s].level2;
      }
    }
  }

  lemma SharedFrom(r: seq<Segment>, lo: nat, hi: nat, i: nat, bar: bool, p: NotesInSegment)
    requires lo <= i < hi <= |r| && Level(r[i], bar) == p
    requires forall n :: n in PoolNotes(p) <==> exists s :: lo <= s < hi && n in PoolNotes(r[s].level2)
    requires NoDuplicates(NotesOf(p.notes))
    requires forall j :: lo <= j < hi ==> Level(r[j], bar) == p
    ensures SharedPool(r, lo, hi, i, bar)
  {
  }

  // ---------------------------------------------------------------------
  // The loops of the constructor, ConnectSegments, ChooseBestChords and
  // AddChordNotesToModel, on values

  /** Lines 33-40: the first segment with the first key, then every later
      one with the key reached by dequeuing each change its beat has
      reached. */
  method BuildSegments(beats: seq<MetaEvent>, queue0: seq<MetaEvent>, first: Key, lp: byte) returns (segs: seq<Segment>)
    requires |beats| > 0 && forall k :: 0 <= k < |beats| ==> beats[k].BeatEvent?
    requires forall k :: 0 <= k < |queue0| ==> queue0[k].KeySignature?
    ensures segs == InitialSegments(beats, SegmentKeys(BeatTimes(beats), queue0, first), lp)
  {
    var key := first;
    var queue := queue0;
    segs := [NewSegment(key, beats[0].time, beats[0].length, beats[0].level, lp)];
    ghost var keys := [key];
    for i := 1 to |beats|
      invariant Built(beats, queue0, first, lp, i, segs, keys, queue, key)
    {
      segs, keys, queue, key := BuildStep(beats, queue0, first, lp, i, segs, keys, queue, key);
    }
    BuiltAll(beats, queue0, first, lp, segs, keys, queue, key);
  }

  /** The state of the construction loop before beat i: the keys of the
      first i segments, which hold those keys, followed by the keys still to
      come from the queue, are the keys of all segments. */
  ghost predicate Built(beats: seq<MetaEvent>, queue0: seq<MetaEvent>, first: Key, lp: byte, i: nat,
    segs: seq<Segment>, keys: seq<Key>, queue: seq<MetaEvent>, key: Key)
  {
    0 < i && KeysSoFar(BeatTimes(beats), queue0, first, i, keys, queue, key) && SegmentsSoFar(beats, lp, segs, keys)
  }

  /** The keys of the first i beats, then those Advance gives from the
      queue left, are the keys of all beats. */
  ghost predicate KeysSoFar(times: seq<real>, queue0: seq<MetaEvent>, first: Key, i: nat,
    keys: seq<Key>, queue: seq<MetaEvent>, key: Key)
  {
    |keys| == i <= |times| &&
    (forall k :: 0 <= k < |queue0| ==> queue0[k].KeySignature?) &&
    (forall k :: 0 <= k < |queue| ==> queue[k].KeySignature?) &&
    keys + KeysFrom(times[i..], queue, key) == SegmentKeys(times, queue0, first)
  }

  /** Each segment so far is the new segment of its beat with its key. */
  ghost predicate SegmentsSoFar(beats: seq<MetaEvent>, lp: byte, segs: seq<Segment>, keys: seq<Key>)
  {
    |segs| == |keys| <= |beats| &&
    (forall k :: 0 <= k < |beats| ==> beats[k].BeatEvent?) &&
    forall k :: 0 <= k < |segs| ==> segs[k] == NewSegment(keys[k], beats[k].time, beats[k].length, beats[k].level, lp)
  }

  lemma KeyStep(times: seq<real>, queue0: seq<MetaEvent>, first: Key, i: nat, keys: seq<Key>, queue: seq<MetaEvent>, key: Key)
    requires i < |times| && KeysSoFar(times, queue0, first, i, keys, queue, key)
    ensures var next := Advance(queue, key, times[i]);
      KeysSoFar(times, queue0, first, i + 1, keys + [next.1], next.0, next.1)
  {
    KeysFromFirst(keys, times, i, queue, key);
  }

  lemma SegmentStep(beats: seq<MetaEvent>, lp: byte, segs: seq<Segment>, keys: seq<Key>, key: Key)
    requires SegmentsSoFar(beats, lp, segs, keys) && |segs| < |beats|
    ensures var i := |segs|;
      SegmentsSoFar(beats, lp, segs + [NewSegment(key, beats[i].time, beats[i].length, beats[i].level, lp)], keys + [key])
  {
  }

  /** One pass of the loop: dequeue what beat i has reached, then add its
      segment with the key reached. */
  method BuildStep(beats: seq<MetaEvent>, queue0: seq<MetaEvent>, first: Key, lp: byte, i: nat,
    segs: seq<Segment>, ghost keys: seq<Key>, queue: seq<MetaEvent>, key: Key)
    returns (segs': seq<Segment>, ghost keys': seq<Key>, queue': seq<MetaEvent>, key': Key)
    requires i < |beats| && Built(beats, queue0, first, lp, i, segs, keys, queue, key)
    ensures Built(beats, queue0, first, lp, i + 1, segs', keys', queue', key')
  {
    queue', key' := DequeueReached(queue, key, beats[i].time);
    KeyStep(BeatTimes(beats), queue0, first, i, keys, queue, key);
    SegmentStep(beats, lp, segs, keys, key');
    keys' := keys + [key'];
    segs' := segs + [NewSegment(key', beats[i].time, beats[i].length, beats[i].level, lp)];
  }

  /** After the last beat the segments are the initial segments. */
  lemma BuiltAll(beats: seq<MetaEvent>, queue0: seq<MetaEvent>, first: Key, lp: byte,
    segs: seq<Segment>, keys: seq<Key>, queue: seq<MetaEvent>, key: Key)
    requires Built(beats, queue0, first, lp, |beats|, segs, keys, queue, key)
    ensures segs == InitialSegments(beats, SegmentKeys(BeatTimes(beats), queue0, first), lp)
  {
    assert BeatTimes(beats)[|beats|..] == [];
    assert keys == SegmentKeys(BeatTimes(beats), queue0, first);
  }

  /** Lines 36-37: every queued key change at or before t is dequeued,
      the last of them giving the key. */
  method DequeueReached(queue: seq<MetaEvent>, key: Key, t: real) returns (rest: seq<MetaEvent>, k: Key)
    requires forall j :: 0 <= j < |queue| ==> queue[j].KeySignature?
    ensures (rest, k) == Advance(queue, key, t)
  {
    rest, k := queue, key;
    while rest != [] && rest[0].time <= t
      invariant forall j :: 0 <= j < |rest| ==> rest[j].KeySignature?
      invariant Advance(rest, k, t) == Advance(queue, key, t)
      decreases |rest|
    {
      AdvanceStep(rest, k, t);
      k := rest[0].key;
      rest := rest[1..];
    }
  }

  lemma AdvanceStep(queue: seq<MetaEvent>, key: Key, t: real)
    requires forall j :: 0 <= j < |queue| ==> queue[j].KeySignature?
    requires queue != [] && queue[0].time <= t
    ensures forall j :: 0 <= j < |queue| - 1 ==> queue[1..][j].KeySignature?
    ensures Advance(queue[1..], queue[0].key, t) == Advance(queue, key, t)
  {
  }

  /** The keys up to beat i - 1, then those from beat i on, are the keys
      up to beat i, then those from beat i + 1 on, where beat i has the
      key Advance reaches there. */
  lemma KeysFromFirst(keys: seq<Key>, times: seq<real>, i: nat, queue: seq<MetaEvent>, key: Key)
    requires forall k :: 0 <= k < |queue| ==> queue[k].KeySignature?
    requires i < |times|
    ensures var next := Advance(queue, key, times[i]);
      (keys + [next.1]) + KeysFrom(times[i + 1..], next.0, next.1) == keys + KeysFrom(times[i..], queue, key)
  {
    assert times[i..][1..] == times[i + 1..];
  }

  function BeatTimes(beats: seq<MetaEvent>): (r: seq<real>)
    ensures |r| == |beats| && forall k :: 0 <= k < |beats| ==> r[k] == beats[k].time
  {
    seq(|beats|, k requires 0 <= k < |beats| => beats[k].time)
  }

  /** Lines 98-105: segment 0 scored on its own, each later one connected
      to the scores of the one before. */
  method ConnectEach(segs: seq<Segment>) returns (out: seq<Segment>)
    requires |segs| > 0 && forall k :: 0 <= k < |segs| ==> Shaped(segs[k])
    ensures out == ConnectAll(segs)
  {
    var first := CalculateBaseScores(segs[0]);
    first := first.(scores := first.baseScores);
    out := [first];
    for i := 1 to |segs|
      invariant |out| == i && forall k :: 0 <= k < i ==> out[k] == ConnectedAt(segs, k)
    {
      var s := CalculateBaseScores(segs[i]);
      s := ConnectToPreviousSegment(s, out[i - 1].scores);
      out := out + [s];
    }
  }

  /** The beat events at positions ps[i..] carry their chords and every
      other meta event is as it was. */
  predicate WrittenFrom(out: seq<MetaEvent>, ms: seq<MetaEvent>, ps: seq<nat>, chords: seq<nat>, i: nat)
    requires |out| == |ms| && |chords| == |ps| && i <= |ps|
    requires forall k :: 0 <= k < |ps| ==> ps[k] < |ms| && chords[k] < 24 && ms[ps[k]].BeatEvent?
  {
    (forall k :: i <= k < |ps| ==> out[ps[k]] == ms[ps[k]].(chord := KeyOfIndex(chords[k]))) &&
    (forall j :: 0 <= j < |ms| && j !in ps[i..] ==> out[j] == ms[j])
  }

  /** Writing the chord of beat i - 1 extends the written part by one. */
  lemma WrittenStep(out: seq<MetaEvent>, ms: seq<MetaEvent>, ps: seq<nat>, chords: seq<nat>, i: nat)
    requires |out| == |ms| && |chords| == |ps| && 0 < i <= |ps|
    requires forall k :: 0 <= k < |ps| ==> ps[k] < |ms| && chords[k] < 24 && ms[ps[k]].BeatEvent?
    requires forall a, b :: 0 <= a < |ps| && 0 <= b < |ps| && a != b ==> ps[a] != ps[b]
    requires WrittenFrom(out, ms, ps, chords, i)
    ensures WrittenFrom(out[ps[i - 1] := out[ps[i - 1]].(chord := KeyOfIndex(chords[i - 1]))], ms, ps, chords, i - 1)
  {
    assert ps[i - 1..] == [ps[i - 1]] + ps[i..];
    assert ps[i - 1] !in ps[i..];
  }

  /** Lines 86-93: the chord of the last segment is the first of highest
      score, and each earlier one is its successor's BestPrevious; each is
      written into its beat event, position ps[i] among the meta events. */
  method WriteChords(ms: seq<MetaEvent>, ps: seq<nat>, r: seq<Segment>) returns (out: seq<MetaEvent>)
    requires |r| == |ps| > 0 && Linked(r) && |r[|r| - 1].scores| == 24
    requires forall k :: 0 <= k < |ps| ==> ps[k] < |ms| && ms[ps[k]].BeatEvent?
    requires forall a, b :: 0 <= a < |ps| && 0 <= b < |ps| && a != b ==> ps[a] != ps[b]
    ensures |out| == |ms|
    ensures forall k :: 0 <= k < |ps| ==> out[ps[k]] == ms[ps[k]].(chord := KeyOfIndex(BestChords(r)[k]))
    ensures forall i :: 0 <= i < |ms| && i !in ps ==> out[i] == ms[i]
  {
    var n := |r|;
    ghost var chords := BestChords(r);
    BestChordsChain(r);
    var index := MaxWithIndex(r[n - 1].scores).value.0;
    out := ms;
    assert ps[n..] == [];
    WrittenStep(out, ms, ps, chords, n);
    out := out[ps[n - 1] := out[ps[n - 1]].(chord := KeyOfIndex(index))];
    var i := n - 1;
    while i > 0
      invariant 0 <= i < n && index == chords[i] && |out| == |ms|
      invariant WrittenFrom(out, ms, ps, chords, i)
    {
      assert ChainedAt(r, chords, i);
      WrittenStep(out, ms, ps, chords, i);
      i := i - 1;
      index := r[i + 1].bestPrevious[index];
      out := out[ps[i] := out[ps[i]].(chord := KeyOfIndex(index))];
    }
    assert ps[0..] == ps;
  }

  /** Lines 59-78: four notes per beat, beat by beat. */
  method PlayChords(beats: seq<MetaEvent>, volume: int) returns (notes: seq<ControlEvent>)
    requires forall k :: 0 <= k < |beats| ==> beats[k].BeatEvent?
    ensures notes == ChordNotesFor(beats, volume)
  {
    notes := [];
    for i := 0 to |beats|
      invariant notes == ChordNotesFor(beats[..i], volume)
    {
      var beat := beats[i];
      var pitches := ChordPitches(beat.chord);
      ChordPitchesSpell(beat.chord);
      for j := 0 to 4
        invariant notes == ChordNotesFor(beats[..i], volume) + ChordNotesOf(beat, volume)[..j]
      {
        var note := NoteOn(beat.tick, beat.time, ChordChannel, pitches[j], ChordVolume(beat.level, volume),
          0.0, 0, None, beat.length, beat.time + beat.length, []);
        notes := notes + [note];
      }
      assert beats[..i + 1][..i] == beats[..i];
    }
    assert beats[..|beats|] == beats;
  }

  /** A control event after the loudness pass: a note differs at most in
      its loudness, anything else not at all. */
  /** The model AddChordNotesToModel leaves: the chord notes appended to
      channel 11 of the first track, then every note's loudness determined
      again over the whole model; a model with no track throws. */
  function ChordsAdded(m: Model, notes: seq<ControlEvent>): (r: Result<Model>)
    requires WellFormed(m)
    ensures r.Ok? <==> m.tracks != []
    ensures r.Fail? ==> r.failure == IndexOutOfRange
    ensures r.Ok? ==> MetaEvents(r.value) == MetaEvents(m)
    ensures r.Ok? ==> AppendToChannel(m, ChordChannel, notes).Ok?
    ensures r.Ok? ==> |ControlEvents(r.value)| == |ControlEvents(AppendToChannel(m, ChordChannel, notes).value)|
  {
    if m.tracks == [] then Fail(IndexOutOfRange)
    else
      assert WellFormedTrack(m.tracks[0]);
      var added := AppendToChannel(m, ChordChannel, notes);
      AppendShape(m, ChordChannel, notes);
      MetaOfSameMeta(m.tracks, added.value.tracks);
      Ok(VolumeChangeCollector.Loudened(added.value))
  }

  predicate Relouded(after: ControlEvent, before: ControlEvent)
  {
    if before.NoteOn? then after.NoteOn? && after == before.(realVolume := after.realVolume) else after == before
  }

  /** What the constructor leaves: the beats in time order, the start
      segments and the lowest heard pitch. */
  predicate Started(m: Model, ps: seq<nat>, segs: seq<Segment>, lp: byte)
  {
    Start(m).Ok? && ps == BeatOrder(MetaEvents(m)) && segs == Start(m).value &&
    LowestPitch(HeardNotes(ControlEvents(m))) == Ok(lp)
  }

  /** The constructor's work: the beats in time order, the lowest heard
      pitch and the first segments. */
  method Starting(m: Model) returns (ps: seq<nat>, segs: seq<Segment>, lp: byte)
    requires Start(m).Ok?
    ensures Started(m, ps, segs, lp)
    ensures Formed(m, ps, segs) && ShapedAll(segs)
  {
    var beats, first;
    ps, beats, first, lp := StartInputs(m);
    segs := BuildSegments(beats, first.1, first.0, lp);
    StartedBy(m, MetaEvents(m), ps, beats, first, lp, segs);
  }

  /** The constructor's inputs to the segments: the beats in time order,
      the first key with the key signatures after it, and the lowest
      heard pitch. */
  method StartInputs(m: Model) returns (ps: seq<nat>, beats: seq<MetaEvent>, first: (Key, seq<MetaEvent>), lp: byte)
    requires Start(m).Ok?
    ensures ps == BeatOrder(MetaEvents(m)) && beats == BeatsAt(MetaEvents(m), ps)
    ensures FirstKey(m) == Ok(first) && LowestPitch(HeardNotes(ControlEvents(m))) == Ok(lp)
    ensures |beats| > 0 && forall k :: 0 <= k < |beats| ==> beats[k].BeatEvent?
    ensures forall k :: 0 <= k < |first.1| ==> first.1[k].KeySignature?
  {
    ghost var ms', ps', first', lp' := StartParts(m);
    var ms := MetaEvents(m);
    ps := BeatOrder(ms);
    assert ps == ps' && ms == ms';
    beats := BeatsAt(ms, ps);
    forall k | 0 <= k < |beats|
      ensures beats[k].BeatEvent?
    {
      assert beats[k] == ms[ps[k]];
    }
    lp := LowestPitch(HeardNotes(ControlEvents(m))).value;
    first := FirstKey(m).value;
  }

  /** What Starting computes is the start. */
  lemma StartedBy(m: Model, ms: seq<MetaEvent>, ps: seq<nat>, beats: seq<MetaEvent>, first: (Key, seq<MetaEvent>), lp: byte,
                  segs: seq<Segment>)
    requires Start(m).Ok? && ms == MetaEvents(m) && ps == BeatOrder(ms) && beats == BeatsAt(ms, ps)
    requires FirstKey(m) == Ok(first) && LowestPitch(HeardNotes(ControlEvents(m))) == Ok(lp)
    requires segs == InitialSegments(beats, SegmentKeys(BeatTimes(beats), first.1, first.0), lp)
    ensures Started(m, ps, segs, lp) && Formed(m, ps, segs) && ShapedAll(segs)
  {
    ghost var ms', ps', first', lp' := StartParts(m);
    BeatTimesAt(ms, ps);
    StartFormed(m);
  }

  lemma BeatTimesAt(ms: seq<MetaEvent>, ps: seq<nat>)
    requires forall k :: 0 <= k < |ps| ==> ps[k] < |ms| && ms[ps[k]].BeatEvent?
    ensures BeatTimes(BeatsAt(ms, ps)) == TimesAt(ms, ps)
  {
  }

  /** The start is one shaped segment per beat, each beat a distinct beat
      event of the model. */
  lemma StartFormed(m: Model)
    requires Start(m).Ok?
    ensures Formed(m, BeatOrder(MetaEvents(m)), Start(m).value) && ShapedAll(Start(m).value)
  {
    BeatOrderVisitsEachBeat(MetaEvents(m));
    StartFollowsBeats(m);
  }

  /** One segment per beat position, each a distinct beat event of m. */
  predicate Formed(m: Model, ps: seq<nat>, segs: seq<Segment>)
  {
    |segs| == |ps| > 0 &&
    (forall k :: 0 <= k < |ps| ==> ps[k] < |MetaEvents(m)| && MetaEvents(m)[ps[k]].BeatEvent?) &&
    forall a, b :: 0 <= a < |ps| && 0 <= b < |ps| && a != b ==> ps[a] != ps[b]
  }

  predicate ShapedAll(segs: seq<Segment>)
  {
    forall k :: 0 <= k < |segs| ==> Shaped(segs[k])
  }

  // ---------------------------------------------------------------------
  // The analyser

  class ChordAnalyzer {
    var midi: Model
    /** _beats, as the position of each beat event among the meta events. */
    var positions: seq<nat>
    var segments: seq<Segment>
    var lowestPitch: byte

    /** One segment per beat, each beat a distinct beat event of the model. */
    predicate Valid()
      reads this
    {
      Formed(midi, positions, segments)
    }

    predicate AllShaped()
      reads this
    {
      ShapedAll(segments)
    }

    /** The constructor, for a model it does not throw on. */
    constructor (m: Model)
      requires Start(m).Ok?
      ensures midi == m && Started(m, positions, segments, lowestPitch)
      ensures Valid() && AllShaped()
    {
      var ps, segs, lp := Starting(m);
      midi, positions, segments, lowestPitch := m, ps, segs, lp;
    }

    /** new ChordAnalyzer(midi), with the exception it throws as a failure. */
    static method Create(m: Model) returns (r: Result<ChordAnalyzer>)
      ensures r.Fail? <==> Start(m).Fail?
      ensures r.Fail? ==> r.failure == Start(m).failure
      ensures r.Ok? ==> fresh(r.value) && r.value.Valid() && r.value.AllShaped()
      ensures r.Ok? ==> r.value.midi == m && r.value.segments == Start(m).value
    {
      StartOutcome(m);
      if HeardNotes(ControlEvents(m)) == [] || FirstKey(m).Fail? {
        return Fail(InvalidOperation);
      }
      if BeatOrder(MetaEvents(m)) == [] {
        return Fail(IndexOutOfRange);
      }
      var a := new ChordAnalyzer(m);
      r := Ok(a);
    }

    /** AddNotesToSegments; when it throws, the segments are left as they
        were. */
    method AddNotesToSegments() returns (ok: bool)
      requires Valid() && AllShaped()
      modifies this
      ensures midi == old(midi) && positions == old(positions) && lowestPitch == old(lowestPitch)
      ensures ok == NotesAdded(midi, old(segments), lowestPitch).Ok?
      ensures ok ==> segments == NotesAdded(midi, old(segments), lowestPitch).value
      ensures !ok ==> segments == old(segments)
      ensures Valid() && AllShaped()
    {
      var notes := ByOnset(HeardNotes(ControlEvents(midi)));
      var spread := SpreadNotes(segments, notes);
      if spread.Fail? {
        return false;
      }
      var pooled := PoolSegments(spread.value, lowestPitch);
      segments := pooled;
      ok := true;
    }

    /** ConnectSegments. */
    method ConnectSegments()
      requires Valid() && AllShaped()
      modifies this
      ensures midi == old(midi) && positions == old(positions) && lowestPitch == old(lowestPitch)
      ensures segments == ConnectAll(old(segments))
      ensures Valid() && Linked(segments) && |segments[|segments| - 1].scores| == 24
    {
      segments := ConnectEach(segments);
    }

    /** ChooseBestChords: the chords of BestChords written into the beat
        events; every other meta event and every control event stays. */
    method ChooseBestChords()
      requires Valid() && Linked(segments) && |segments[|segments| - 1].scores| == 24
      modifies this
      ensures positions == old(positions) && segments == old(segments) && lowestPitch == old(lowestPitch)
      ensures midi == old(midi).(tracks := midi.tracks) && ControlEvents(midi) == ControlEvents(old(midi))
      ensures |MetaEvents(midi)| == |MetaEvents(old(midi))|
      ensures forall k :: 0 <= k < |positions| ==>
        MetaEvents(midi)[positions[k]] == MetaEvents(old(midi))[positions[k]].(chord := KeyOfIndex(BestChords(segments)[k]))
      ensures forall i :: 0 <= i < |MetaEvents(midi)| && i !in positions ==> MetaEvents(midi)[i] == MetaEvents(old(midi))[i]
      ensures WellFormed(old(midi)) ==> WellFormed(midi)
      ensures Valid()
    {
      var ms := WriteChords(MetaEvents(midi), positions, segments);
      midi := ReplaceMeta(midi, ms);
    }

    /** Analyze: the three passes in turn; the chords are written only when
        the notes could be placed. */
    method Analyze() returns (ok: bool)
      requires Valid() && AllShaped()
      modifies this
      ensures positions == old(positions) && lowestPitch == old(lowestPitch) && Valid()
      ensures ok == NotesAdded(old(midi), old(segments), lowestPitch).Ok?
      ensures !ok ==> midi == old(midi) && segments == old(segments)
      ensures ok ==> segments == ConnectAll(NotesAdded(old(midi), old(segments), lowestPitch).value)
      ensures |MetaEvents(midi)| == |MetaEvents(old(midi))|
      ensures ok ==> forall k :: 0 <= k < |positions| ==>
        MetaEvents(midi)[positions[k]] == MetaEvents(old(midi))[positions[k]].(chord := KeyOfIndex(BestChords(segments)[k]))
      ensures ok ==> forall i :: 0 <= i < |MetaEvents(midi)| && i !in positions ==> MetaEvents(midi)[i] == MetaEvents(old(midi))[i]
      ensures ControlEvents(midi) == ControlEvents(old(midi)) && (WellFormed(old(midi)) ==> WellFormed(midi))
    {
      ok := AddNotesToSegments();
      if !ok {
        return;
      }
      ConnectSegments();
      ChooseBestChords();
    }

    /** AddChordNotesToModel: four notes per beat on channel 11 of the first
        track, beat by beat in time order, then the loudness pass; a model
        with no track throws. */
    method AddChordNotesToModel(volume: int) returns (ok: bool)
      requires Valid() && WellFormed(midi)
      modifies this
      ensures positions == old(positions) && segments == old(segments) && lowestPitch == old(lowestPitch)
      ensures ok == (old(midi).tracks != [])
      ensures var added := AppendToChannel(old(midi), ChordChannel, ChordNotesFor(BeatsAt(MetaEvents(old(midi)), positions), volume));
        ok ==> added.Ok? && |ControlEvents(midi)| == |ControlEvents(added.value)|
      ensures var added := AppendToChannel(old(midi), ChordChannel, ChordNotesFor(BeatsAt(MetaEvents(old(midi)), positions), volume));
        ok ==> added.Ok? && forall i :: 0 <= i < |ControlEvents(midi)| ==> Relouded(ControlEvents(midi)[i], ControlEvents(added.value)[i])
      ensures ok ==> WellFormed(midi) && MetaEvents(midi) == MetaEvents(old(midi))
      ensures ok ==> Ok(midi) == ChordsAdded(old(midi), ChordNotesFor(BeatsAt(MetaEvents(old(midi)), positions), volume))
      ensures !ok ==> midi == old(midi)
      ensures Valid()
    {
      if midi.tracks == [] {
        return false;
      }
      assert WellFormedTrack(midi.tracks[0]);
      var notes := PlayChords(BeatsAt(MetaEvents(midi), positions), volume);
      var added := AppendToChannel(midi, ChordChannel, notes);
      AppendShape(midi, ChordChannel, notes);
      MetaOfSameMeta(midi.tracks, added.value.tracks);
      var collector := VolumeChangeCollector.NewCollector(added.value);
      var loud := VolumeChangeCollector.DetermineVolumes(collector, added.value);
      midi := loud;
      ok := true;
    }
  }
}
