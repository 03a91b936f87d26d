/** BeatStrengthAnalyzer.cs: gives every detected beat a level (0 strong,
    1 ordinary, 2 weak) by finding the best chain of strong beats 2 to 7
    beats apart, and marking the beats between them. */
module BeatStrength {
  import opened Wrappers
  import opened MathExt
  import opened Ordering
  import opened BeatSegments

  /** A BeatEvent: onset and length in milliseconds, and its level. */
  datatype Beat = Beat(time: real, length: real, level: int)

  /** A note may start this many milliseconds before or after its beat. */
  const Tolerance := 50.0

  function BeatTimes(beats: seq<Beat>): (r: seq<real>)
    ensures |r| == |beats| && forall k :: 0 <= k < |beats| ==> r[k] == beats[k].time
  {
    seq(|beats|, k requires 0 <= k < |beats| => beats[k].time)
  }

  function NoteTimes(notes: seq<Note>): (r: seq<real>)
    ensures |r| == |notes| && forall k :: 0 <= k < |notes| ==> r[k] == notes[k].time
  {
    seq(|notes|, k requires 0 <= k < |notes| => notes[k].time)
  }

  /** The beats ordered by onset, equal onsets in their original order. */
  function InTimeOrder(beats: seq<Beat>): seq<Beat>
  {
    Arranged(beats, StableSort(BeatTimes(beats)))
  }

  /** The notes with a positive velocity, in their original order. */
  function Loud(notes: seq<Note>): (r: seq<Note>)
    ensures |r| <= |notes|
  {
    if notes == [] then []
    else
      var last := notes[|notes| - 1];
      Loud(notes[..|notes| - 1]) + if last.volume > 0 then [last] else []
  }

  /** Exactly the notes with a positive velocity are kept. */
  lemma {:induction false} LoudKeepsLoud(notes: seq<Note>)
    ensures forall k :: 0 <= k < |Loud(notes)| ==> Loud(notes)[k].volume > 0 && Loud(notes)[k] in notes
    ensures forall n :: n in notes && n.volume > 0 ==> n in Loud(notes)
  {
    if notes != [] {
      var init := notes[..|notes| - 1];
      assert notes == init + [notes[|notes| - 1]];
      LoudKeepsLoud(init);
    }
  }

  /** The notes AddNotesToSegments walks: the loud ones by onset. */
  function LoudInTimeOrder(notes: seq<Note>): seq<Note>
  {
    Arranged(Loud(notes), StableSort(NoteTimes(Loud(notes))))
  }

  /** The inner while loop of AddNotesToSegments: from segment c, move on
      while this is not the last segment and it ends no later than 50 ms
      after the note's onset t. */
  function Walk(beats: seq<Beat>, c: nat, t: real): (r: nat)
    requires c < |beats| || c == 0
    ensures c <= r && (r < |beats| || r == 0)
    decreases |beats| - c
  {
    if c + 1 < |beats| && beats[c].time + beats[c].length <= t + Tolerance then Walk(beats, c + 1, t) else c
  }

  /** The walk passes only segments that end no later than 50 ms after the
      onset, and stops at the last segment or at one that ends later. */
  lemma {:induction false} WalkStops(beats: seq<Beat>, c: nat, t: real)
    requires c < |beats| || c == 0
    ensures forall m :: c <= m < Walk(beats, c, t) ==> beats[m].time + beats[m].length <= t + Tolerance
    ensures Walk(beats, c, t) + 1 < |beats| ==> beats[Walk(beats, c, t)].time + beats[Walk(beats, c, t)].length > t + Tolerance
    decreases |beats| - c
  {
    if c + 1 < |beats| && beats[c].time + beats[c].length <= t + Tolerance {
      WalkStops(beats, c + 1, t);
    }
  }

  /** The cursor after the notes ns have been walked. */
  function CursorAfter(beats: seq<Beat>, ns: seq<Note>): (c: nat)
    ensures c < |beats| || c == 0
  {
    if ns == [] then 0 else Walk(beats, CursorAfter(beats, ns[..|ns| - 1]), ns[|ns| - 1].time)
  }

  /** The cursor never moves back: a longer prefix of the notes leaves it
      at the same segment or a later one. */
  lemma {:induction false} CursorMonotone(beats: seq<Beat>, ns: seq<Note>, i: nat, j: nat)
    requires i <= j <= |ns|
    ensures CursorAfter(beats, ns[..i]) <= CursorAfter(beats, ns[..j])
    decreases j
  {
    if i < j {
      CursorMonotone(beats, ns, i, j - 1);
      assert ns[..j][..j - 1] == ns[..j - 1];
    }
  }

  /** Note n starts within 50 ms of the onset of beat c. */
  predicate Near(beats: seq<Beat>, c: nat, n: Note)
  {
    c < |beats| && -Tolerance <= beats[c].time - n.time <= Tolerance
  }

  /** The notes among ns that AddNotesToSegments adds to segment k: those
      the cursor reaches k for and that start near beat k. */
  function Collected(beats: seq<Beat>, ns: seq<Note>, k: nat): (r: seq<Note>)
  {
    if ns == [] then []
    else
      var init := ns[..|ns| - 1];
      var last := ns[|ns| - 1];
      assert ns == init + [last];
      Collected(beats, init, k) + if CursorAfter(beats, ns) == k && Near(beats, k, last) then [last] else []
  }

  /** The start of AddNotesToSegments: the loud notes ordered by onset. */
  method LoudNotesInTimeOrder(notes: seq<Note>) returns (sorted: seq<Note>)
    ensures sorted == LoudInTimeOrder(notes)
  {
    var loud := Loud(notes);
    var order := OrderBy(NoteTimes(loud));
    StableOrderUnique(NoteTimes(loud), order, StableSort(NoteTimes(loud)));
    sorted := Arranged(loud, order);
  }

  /** The inner while loop of AddNotesToSegments. */
  method WalkCursor(beats: seq<Beat>, c: nat, t: real) returns (r: nat)
    requires c < |beats| || c == 0
    ensures r == Walk(beats, c, t)
  {
    r := c;
    while r + 1 < |beats| && beats[r].time + beats[r].length <= t + Tolerance
      invariant r < |beats| || r == 0
      invariant Walk(beats, r, t) == Walk(beats, c, t)
      decreases |beats| - r
    {
      r := r + 1;
    }
  }

  /** A segment collects only notes of ns that start near its beat. */
  lemma {:induction false} CollectedNear(beats: seq<Beat>, ns: seq<Note>, k: nat)
    ensures forall n :: n in Collected(beats, ns, k) ==> n in ns && Near(beats, k, n)
  {
    if ns != [] {
      var init := ns[..|ns| - 1];
      assert ns == init + [ns[|ns| - 1]];
      CollectedNear(beats, init, k);
    }
  }

  /** The segments with the notes among ns added that each collects. */
  function Gathered(segs: seq<Segment>, beats: seq<Beat>, ns: seq<Note>): (r: seq<Segment>)
    ensures |r| == |segs|
    ensures AllShaped(segs) ==> AllShaped(r)
  {
    seq(|segs|, k requires 0 <= k < |segs| =>
      segs[k].(notes := segs[k].notes + Collected(beats, ns, k)))
  }

  /** Gathering notes changes nothing but the notes. */
  lemma GatheredKeeps(segs: seq<Segment>, beats: seq<Beat>, ns: seq<Note>)
    ensures forall k :: 0 <= k < |segs| ==> Gathered(segs, beats, ns)[k] == segs[k].(notes := Gathered(segs, beats, ns)[k].notes)
  {
  }

  /** With no notes every segment is left as it was. */
  lemma GatheredNothing(segs: seq<Segment>, beats: seq<Beat>)
    ensures Gathered(segs, beats, []) == segs
  {
    forall k | 0 <= k < |segs|
      ensures Gathered(segs, beats, [])[k] == segs[k]
    {
      assert segs[k].notes + [] == segs[k].notes;
    }
  }

  /** The next note joins the segment the cursor stops at for it, when it
      starts near that segment's beat, and no other. */
  lemma GatheredStep(segs: seq<Segment>, beats: seq<Beat>, ns: seq<Note>, i: nat)
    requires i < |ns| && |segs| == |beats|
    ensures CursorAfter(beats, ns[..i + 1]) < |segs| || |segs| == 0
    ensures |segs| > 0 ==>
      var g := Gathered(segs, beats, ns[..i]);
      var c := CursorAfter(beats, ns[..i + 1]);
      Gathered(segs, beats, ns[..i + 1]) == if Near(beats, c, ns[i]) then g[c := g[c].(notes := g[c].notes + [ns[i]])] else g
  {
    assert ns[..i + 1][..i] == ns[..i];
    if |segs| > 0 {
      var g := Gathered(segs, beats, ns[..i]);
      var c := CursorAfter(beats, ns[..i + 1]);
      var h := if Near(beats, c, ns[i]) then g[c := g[c].(notes := g[c].notes + [ns[i]])] else g;
      forall k | 0 <= k < |segs|
        ensures Gathered(segs, beats, ns[..i + 1])[k] == h[k]
      {
        if k == c && Near(beats, c, ns[i]) {
          assert segs[k].notes + Collected(beats, ns[..i], k) + [ns[i]] == segs[k].notes + (Collected(beats, ns[..i], k) + [ns[i]]);
        }
      }
    }
  }

  /** The segments after AddNotesToSegments. */
  function Filled(segs: seq<Segment>, beats: seq<Beat>, notes: seq<Note>): (r: seq<Segment>)
    ensures |r| == |segs|
    ensures AllShaped(segs) ==> AllShaped(r)
  {
    Gathered(segs, beats, LoudInTimeOrder(notes))
  }

  /** Segment k with its base score computed from its notes. */
  function Scored(segs: seq<Segment>, k: nat): (r: seq<Segment>)
    requires k < |segs|
    ensures |r| == |segs|
    ensures AllShaped(segs) ==> AllShaped(r)
    ensures forall m :: 0 <= m < |segs| && m != k ==> r[m] == segs[m]
  {
    segs[k := segs[k].(baseScore := BaseScore(segs[k].notes))]
  }

  /** The segments after ConnectSegments has handled the first n. */
  function ConnectedAll(segs: seq<Segment>, n: nat): (r: seq<Segment>)
    requires n <= |segs| && AllShaped(segs)
    ensures |r| == |segs| && AllShaped(r)
    decreases n
  {
    if n == 0 then segs
    else
      var q := Scored(ConnectedAll(segs, n - 1), n - 1);
      q[n - 1 := Connected(q, n - 1)]
  }

  /** The segments not yet handled are left alone. */
  lemma {:induction false} ConnectedAllUntouched(segs: seq<Segment>, n: nat)
    requires n <= |segs| && AllShaped(segs)
    ensures forall m :: n <= m < |segs| ==> ConnectedAll(segs, n)[m] == segs[m]
    decreases n
  {
    if n > 0 {
      ConnectedAllUntouched(segs, n - 1);
    }
  }

  /** Handling later segments leaves the earlier ones as they were. */
  lemma {:induction false} ConnectedAllStable(segs: seq<Segment>, n: nat, p: nat)
    requires n <= p <= |segs| && AllShaped(segs)
    ensures forall m :: 0 <= m < n ==> ConnectedAll(segs, p)[m] == ConnectedAll(segs, n)[m]
    decreases p
  {
    if n < p {
      ConnectedAllStable(segs, n, p - 1);
    }
  }

  /** Segment k ends as ConnectSegments left it at step k. */
  lemma ConnectedAllAt(segs: seq<Segment>, k: nat)
    requires k < |segs| && AllShaped(segs)
    ensures ConnectedAll(segs, |segs|)[k] == Connected(Scored(ConnectedAll(segs, k), k), k)
  {
    ConnectedAllStable(segs, k + 1, |segs|);
  }

  /** Segment k ends with the base score of its notes. */
  lemma ConnectedAllScored(segs: seq<Segment>, k: nat)
    requires k < |segs| && AllShaped(segs)
    ensures ConnectedAll(segs, |segs|)[k].baseScore == BaseScore(segs[k].notes)
  {
    ConnectedAllAt(segs, k);
    ConnectedAllUntouched(segs, k);
    assert Scored(ConnectedAll(segs, k), k)[k].notes == segs[k].notes;
  }

  /** The segments before k end with the tables they had at step k. */
  lemma ConnectedAllBefore(segs: seq<Segment>, k: nat)
    requires k < |segs| && AllShaped(segs)
    ensures forall m :: 0 <= m < k ==> ConnectedAll(segs, |segs|)[m].scores == Scored(ConnectedAll(segs, k), k)[m].scores
  {
    ConnectedAllStable(segs, k, |segs|);
  }

  /** After ConnectSegments every segment satisfies the recurrence: its base
      score is that of its notes, and its tables and best entry are what
      ConnectToPreviousSegments computes from the final tables of the
      segments before it. */
  lemma ConnectedAllSolves(segs: seq<Segment>, k: nat)
    requires k < |segs| && AllShaped(segs)
    ensures ConnectedAll(segs, |segs|)[k].baseScore == BaseScore(segs[k].notes)
    ensures ConnectedAll(segs, |segs|)[k] == Connected(ConnectedAll(segs, |segs|), k)
  {
    ConnectedAllAt(segs, k);
    ConnectedAllScored(segs, k);
    ConnectedAllBefore(segs, k);
    ConnectedOnPrefix(ConnectedAll(segs, |segs|), Scored(ConnectedAll(segs, k), k), k);
  }

  /** The levels of the beats, in order. */
  function Levels(beats: seq<Beat>): (r: seq<int>)
    ensures |r| == |beats| && forall k :: 0 <= k < |beats| ==> r[k] == beats[k].level
  {
    seq(|beats|, k requires 0 <= k < |beats| => beats[k].level)
  }

  /** The beats with their levels replaced. */
  function WithLevels(beats: seq<Beat>, levels: seq<int>): (r: seq<Beat>)
    requires |levels| == |beats|
    ensures Levels(r) == levels
  {
    seq(|beats|, k requires 0 <= k < |beats| => beats[k].(level := levels[k]))
  }

  /** Beat x given level l. */
  function SetLevel(beats: seq<Beat>, x: nat, l: int): (r: seq<Beat>)
    requires x < |beats|
    ensures |r| == |beats| && Levels(r) == Levels(beats)[x := l] && Onsets(r) == Onsets(beats)
  {
    beats[x := beats[x].(level := l)]
  }

  /** The onsets and lengths of the beats, in order. */
  function Onsets(beats: seq<Beat>): (r: seq<(real, real)>)
    ensures |r| == |beats| && forall k :: 0 <= k < |beats| ==> r[k] == (beats[k].time, beats[k].length)
  {
    seq(|beats|, k requires 0 <= k < |beats| => (beats[k].time, beats[k].length))
  }

  /** Beats are determined by their onsets, lengths and levels. */
  lemma OnsetsAndLevels(a: seq<Beat>, b: seq<Beat>)
    requires Onsets(a) == Onsets(b)
    ensures a == WithLevels(b, Levels(a))
  {
    forall k | 0 <= k < |a|
      ensures a[k] == WithLevels(b, Levels(a))[k]
    {
      assert Onsets(a)[k] == Onsets(b)[k];
    }
  }

  /** The weak beats a strong beat s marks with an interval to the previous
      strong one: for 3 the two beats between them, for 4 the first and
      third before s, for 6 all but the middle one, for other intervals
      none. Only beats strictly between the two strong ones change. */
  function MarkWeak(levels: seq<int>, s: nat, interval: int): (r: seq<int>)
    requires 0 < s - interval && s < |levels| && 2 <= interval
    ensures |r| == |levels|
  {
    if interval == 3 then levels[s - 1 := 2][s - 2 := 2]
    else if interval == 4 then levels[s - 1 := 2][s - 3 := 2]
    else if interval == 6 then levels[s - 1 := 2][s - 2 := 2][s - 4 := 2][s - 5 := 2]
    else levels
  }

  /** Marking changes only beats strictly between the two strong ones, and
      only to weak. */
  lemma MarkWeakBetween(levels: seq<int>, s: nat, interval: int)
    requires 0 < s - interval && s < |levels| && 2 <= interval
    ensures forall x :: 0 <= x < |levels| && MarkWeak(levels, s, interval)[x] != levels[x] ==>
      s - interval < x < s && MarkWeak(levels, s, interval)[x] == 2
  {
  }

  /** The backtracking loop of ChooseStrongBeats from segment s, reached
      with `interval` and the predecessor `prev` still to follow. */
  function Backtrack(segs: seq<Segment>, s: nat, interval: Option<int>, prev: Option<Slot>, levels: seq<int>): (r: seq<int>)
    requires AllShaped(segs) && s < |segs| && |levels| == |segs|
    requires (interval.Some? ==> 2 <= interval.value)
    ensures |r| == |levels|
    decreases s
  {
    if interval.Some? && s - interval.value > 0 then
      var next := s - interval.value;
      Backtrack(segs, next, IndexToInterval(prev), GetPreviousIndex(segs[next], prev),
        MarkWeak(levels[s := 0], s, interval.value))
    else levels[s := 0]
  }

  /** One step of the backtracking: beat s strong, the weak beats marked,
      and on from the previous strong beat. */
  lemma BacktrackGoesOn(segs: seq<Segment>, s: nat, interval: Option<int>, prev: Option<Slot>, levels: seq<int>,
                         next: nat, interval': Option<int>, prev': Option<Slot>, marked: seq<int>)
    requires AllShaped(segs) && s < |segs| && |levels| == |segs|
    requires interval.Some? && 2 <= interval.value && s - interval.value > 0
    requires next == s - interval.value && interval' == IndexToInterval(prev)
    requires prev' == GetPreviousIndex(segs[next], prev) && marked == MarkWeak(levels[s := 0], s, interval.value)
    ensures (interval'.Some? ==> 2 <= interval'.value) && |marked| == |segs|
    ensures Backtrack(segs, s, interval, prev, levels) == Backtrack(segs, next, interval', prev', marked)
  {
  }

  /** The last step of the backtracking: beat s strong and nothing more. */
  lemma BacktrackStops(segs: seq<Segment>, s: nat, interval: Option<int>, prev: Option<Slot>, levels: seq<int>)
    requires AllShaped(segs) && s < |segs| && |levels| == |segs|
    requires (interval.Some? ==> 2 <= interval.value) && !(interval.Some? && s - interval.value > 0)
    ensures Backtrack(segs, s, interval, prev, levels) == levels[s := 0]
  {
  }

  /** The strong beats the backtracking visits, latest first. */
  function Visited(segs: seq<Segment>, s: nat, interval: Option<int>, prev: Option<Slot>): (r: seq<nat>)
    requires AllShaped(segs) && s < |segs|
    requires (interval.Some? ==> 2 <= interval.value)
    decreases s
  {
    if interval.Some? && s - interval.value > 0 then
      var next := s - interval.value;
      [s] + Visited(segs, next, IndexToInterval(prev), GetPreviousIndex(segs[next], prev))
    else [s]
  }

  /** Backtracking from s makes s strong, leaves every later beat alone,
      and changes a beat only to strong or, from the third beat on, to
      weak. */
  lemma {:induction false} BacktrackChanges(segs: seq<Segment>, s: nat, interval: Option<int>, prev: Option<Slot>, levels: seq<int>)
    requires AllShaped(segs) && s < |segs| && |levels| == |segs|
    requires (interval.Some? ==> 2 <= interval.value)
    ensures Backtrack(segs, s, interval, prev, levels)[s] == 0
    ensures forall x :: s < x < |levels| ==> Backtrack(segs, s, interval, prev, levels)[x] == levels[x]
    ensures forall x :: 0 <= x < |levels| && Backtrack(segs, s, interval, prev, levels)[x] != levels[x] ==>
      Backtrack(segs, s, interval, prev, levels)[x] == 0 || (Backtrack(segs, s, interval, prev, levels)[x] == 2 && 2 <= x)
    decreases s
  {
    if interval.Some? && s - interval.value > 0 {
      var next := s - interval.value;
      var marked := MarkWeak(levels[s := 0], s, interval.value);
      MarkWeakBetween(levels[s := 0], s, interval.value);
      BacktrackChanges(segs, next, IndexToInterval(prev), GetPreviousIndex(segs[next], prev), marked);
    }
  }

  /** Every strong beat the backtracking visits, the last one reached
      included, ends with level 0; each is 2 to 7 beats after the next. */
  lemma {:induction false} VisitedAreStrong(segs: seq<Segment>, s: nat, interval: Option<int>, prev: Option<Slot>, levels: seq<int>)
    requires AllShaped(segs) && s < |segs| && |levels| == |segs|
    requires (interval.Some? ==> 2 <= interval.value <= 7)
    ensures forall v :: v in Visited(segs, s, interval, prev) ==> v <= s && Backtrack(segs, s, interval, prev, levels)[v] == 0
    ensures forall j :: 0 <= j < |Visited(segs, s, interval, prev)| - 1 ==>
      2 <= Visited(segs, s, interval, prev)[j] as int - Visited(segs, s, interval, prev)[j + 1] <= 7
    decreases s
  {
    BacktrackChanges(segs, s, interval, prev, levels);
    if interval.Some? && s - interval.value > 0 {
      var next := s - interval.value;
      var marked := MarkWeak(levels[s := 0], s, interval.value);
      VisitedAreStrong(segs, next, IndexToInterval(prev), GetPreviousIndex(segs[next], prev), marked);
      BacktrackChanges(segs, next, IndexToInterval(prev), GetPreviousIndex(segs[next], prev), marked);
    }
  }

  function BestScores(segs: seq<Segment>): (r: seq<real>)
    ensures |r| == |segs| && forall k :: 0 <= k < |segs| ==> r[k] == segs[k].best.1
  {
    seq(|segs|, k requires 0 <= k < |segs| => segs[k].best.1)
  }

  /** The levels ChooseStrongBeats gives: all 1, then backtracking from the
      first segment with the greatest BestScore. */
  function StrongLevels(segs: seq<Segment>): (r: seq<int>)
    requires AllShaped(segs) && |segs| > 0
    ensures |r| == |segs|
  {
    var last := MaxWithIndex(BestScores(segs)).value.0;
    var best := segs[last].best.0;
    Backtrack(segs, last, IndexToInterval(best), GetPreviousIndex(segs[last], best), seq(|segs|, _ => 1))
  }

  /** Every level is 0, 1 or 2; the first segment with the greatest
      BestScore is strong, and so is every earlier beat the chain visits;
      the first two beats are never weak; every beat after the chain's
      start stays 1. */
  lemma StrongLevelsShape(segs: seq<Segment>)
    requires AllShaped(segs) && |segs| > 0
    ensures forall x :: 0 <= x < |segs| ==> StrongLevels(segs)[x] in {0, 1, 2}
    ensures forall x :: 0 <= x < 2 && x < |segs| ==> StrongLevels(segs)[x] != 2
    ensures StrongLevels(segs)[MaxWithIndex(BestScores(segs)).value.0] == 0
    ensures forall x :: MaxWithIndex(BestScores(segs)).value.0 < x < |segs| ==> StrongLevels(segs)[x] == 1
  {
    var last := MaxWithIndex(BestScores(segs)).value.0;
    var best := segs[last].best.0;
    BacktrackChanges(segs, last, IndexToInterval(best), GetPreviousIndex(segs[last], best), seq(|segs|, _ => 1));
  }

  class BeatStrengthAnalyzer {
    /** _beats, in time order; _segments[k] belongs to _beats[k]. */
    var beats: seq<Beat>
    var segments: seq<Segment>

    ghost predicate Valid()
      reads this
    {
      |segments| == |beats| && AllShaped(segments) &&
      forall k :: 0 <= k < |segments| ==> segments[k].index == k
    }

    /** The beats in time order and one empty segment per beat. */
    constructor(events: seq<Beat>)
      ensures Valid() && beats == InTimeOrder(events)
      ensures forall k :: 0 <= k < |segments| ==> segments[k] == NewSegment(k)
    {
      var order := OrderBy(BeatTimes(events));
      StableOrderUnique(BeatTimes(events), order, StableSort(BeatTimes(events)));
      var sorted := Arranged(events, order);
      var segs: seq<Segment> := [];
      while |segs| < |sorted|
        invariant |segs| <= |sorted|
        invariant forall k :: 0 <= k < |segs| ==> segs[k] == NewSegment(k)
      {
        segs := segs + [NewSegment(|segs|)];
      }
      beats := sorted;
      segments := segs;
    }

    /** AddNotesToSegments: each loud note, by onset, advances the cursor and
      joins the cursor's segment when it starts within 50 ms of its beat.
      With no beats the first note indexes past the segments. */
    method AddNotesToSegments(notes: seq<Note>) returns (ok: bool)
      requires Valid()
      modifies this
      ensures Valid() && beats == old(beats)
      ensures ok <==> |beats| > 0 || LoudInTimeOrder(notes) == []
      ensures ok ==> segments == Filled(old(segments), beats, notes)
    {
      var sorted := LoudNotesInTimeOrder(notes);
      var segs := segments;
      var current := 0;
      assert sorted[..0] == [];
      GatheredNothing(segments, beats);
      for i := 0 to |sorted|
        invariant segments == old(segments) && beats == old(beats)
        invariant i > 0 ==> |beats| > 0
        invariant current == CursorAfter(beats, sorted[..i])
        invariant segs == Gathered(segments, beats, sorted[..i])
      {
        var n := sorted[i];
        current := WalkCursor(beats, current, n.time);
        assert current == CursorAfter(beats, sorted[..i + 1]) by {
          assert sorted[..i + 1][..i] == sorted[..i];
        }
        if |beats| == 0 {
          assert LoudInTimeOrder(notes) != [];
          return false;
        }
        GatheredStep(segments, beats, sorted, i);
        if Near(beats, current, n) {
          segs := segs[current := segs[current].(notes := segs[current].notes + [n])];
        }
      }
      assert sorted[..|sorted|] == sorted;
      GatheredKeeps(segments, beats, sorted);
      segments := segs;
      ok := true;
    }

    /** ConnectSegments: each segment in turn gets its base score and is
      connected to the ones before it. */
    method ConnectSegments()
      requires Valid()
      modifies this
      ensures Valid() && beats == old(beats)
      ensures segments == ConnectedAll(old(segments), |segments|)
    {
      for k := 0 to |segments|
        invariant Valid() && beats == old(beats) && |segments| == |old(segments)|
        invariant segments == ConnectedAll(old(segments), k)
      {
        segments := Scored(segments, k);
        var seg := ConnectToPreviousSegments(segments, k);
        segments := segments[k := seg];
      }
    }

    /** The first loop of ChooseStrongBeats: every beat to level 1. */
    method ResetLevels()
      modifies this
      ensures segments == old(segments) && Onsets(beats) == Onsets(old(beats))
      ensures Levels(beats) == seq(|beats|, _ => 1)
    {
      for k := 0 to |beats|
        invariant Onsets(beats) == Onsets(old(beats)) && segments == old(segments)
        invariant forall m :: 0 <= m < k ==> Levels(beats)[m] == 1
      {
        beats := SetLevel(beats, k, 1);
      }
    }

    /** One step of the backtracking in ChooseStrongBeats: beat s becomes
      strong and the beats the interval to the previous strong beat calls
      for become weak. */
    method MarkStrong(s: nat, iv: int)
      requires 0 < s - iv && s < |beats| && 2 <= iv
      modifies this
      ensures segments == old(segments) && Onsets(beats) == Onsets(old(beats))
      ensures Levels(beats) == MarkWeak(Levels(old(beats))[s := 0], s, iv)
    {
      beats := SetLevel(beats, s, 0);
      if iv == 3 {
        beats := SetLevel(beats, s - 1, 2);
        beats := SetLevel(beats, s - 2, 2);
      } else if iv == 4 {
        beats := SetLevel(beats, s - 1, 2);
        beats := SetLevel(beats, s - 3, 2);
      } else if iv == 6 {
        beats := SetLevel(beats, s - 1, 2);
        beats := SetLevel(beats, s - 2, 2);
        beats := SetLevel(beats, s - 4, 2);
        beats := SetLevel(beats, s - 5, 2);
      }
    }

    /** The backtracking loop of ChooseStrongBeats from segment s. */
    method BacktrackFrom(s: nat, interval: Option<int>, prev: Option<Slot>)
      requires AllShaped(segments) && s < |segments| && |beats| == |segments|
      requires (interval.Some? ==> 2 <= interval.value)
      modifies this
      ensures segments == old(segments) && Onsets(beats) == Onsets(old(beats))
      ensures Levels(beats) == Backtrack(segments, s, interval, prev, Levels(old(beats)))
    {
      ghost var segs := segments;
      ghost var target := Backtrack(segs, s, interval, prev, Levels(beats));
      var at: nat, iv, pv := s, interval, prev;
      while iv.Some? && at - iv.value > 0
        invariant segments == segs && at < |segs| && |beats| == |segs|
        invariant (iv.Some? ==> 2 <= iv.value)
        invariant Onsets(beats) == Onsets(old(beats))
        invariant Backtrack(segs, at, iv, pv, Levels(beats)) == target
        decreases at
      {
        ghost var before := Levels(beats);
        MarkStrong(at, iv.value);
        var next := at - iv.value;
        var iv', pv' := IndexToInterval(pv), GetPreviousIndex(segments[next], pv);
        BacktrackGoesOn(segs, at, iv, pv, before, next, iv', pv', Levels(beats));
        at, iv, pv := next, iv', pv';
      }
      BacktrackStops(segs, at, iv, pv, Levels(beats));
      beats := SetLevel(beats, at, 0);
    }

    /** ChooseStrongBeats: every beat to level 1, then backtracking from the
      first segment with the greatest BestScore; with no segments the
      maximum throws. */
    method ChooseStrongBeats() returns (ok: bool)
      requires Valid()
      modifies this
      ensures Valid() && segments == old(segments)
      ensures ok <==> |segments| > 0
      ensures ok ==> beats == WithLevels(old(beats), StrongLevels(segments))
      ensures !ok ==> beats == old(beats)
    {
      ResetLevels();
      var found := MaxWithIndex(BestScores(segments));
      if found.Fail? {
        return false;
      }
      var s := found.value.0;
      BacktrackFrom(s, IndexToInterval(segments[s].best.0), GetPreviousIndex(segments[s], segments[s].best.0));
      OnsetsAndLevels(beats, old(beats));
      ok := true;
    }

    /** Analyze: notes into segments, segments connected, strong beats
      chosen. With no beats it throws: past the segments when there is a
      loud note, otherwise at the maximum of no scores. */
    method Analyze(notes: seq<Note>) returns (r: Result<()>)
      requires Valid()
      modifies this
      ensures Valid()
      ensures r.Fail? <==> |old(beats)| == 0
      ensures r.Fail? ==> r.failure == if LoudInTimeOrder(notes) == [] then ArgumentError else IndexOutOfRange
      ensures r.Ok? ==> segments == ConnectedAll(Filled(old(segments), old(beats), notes), |old(segments)|)
      ensures r.Ok? ==> beats == WithLevels(old(beats), StrongLevels(segments))
    {
      var ok := AddNotesToSegments(notes);
      if !ok {
        return Fail(IndexOutOfRange);
      }
      ConnectSegments();
      ok := ChooseStrongBeats();
      if !ok {
        return Fail(ArgumentError);
      }
      r := Ok(());
    }
  }
}
