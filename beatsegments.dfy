/** BeatSegment.cs: one detected beat of the strength analysis, with the
    notes that start on it and, per interval to the previous strong beat
    (2 to 7 beats), the best score of a chain of strong beats ending here. */
module BeatSegments {
  import opened Wrappers
  import opened MathExt

  /** The number of intervals considered. */
  const IntervalCount := 6

  /** _indexToInterval: entry i is the interval i + 2. */
  const Intervals: seq<int> := [2, 3, 4, 5, 6, 7]

  /** The interval of entry i: the table's entries are 2 to 7 in order. */
  function Interval(i: nat): int
  {
    i + 2
  }

  /** _intervalBonus: the reward of keeping an interval. */
  const IntervalBonus: seq<real> := [1.7, 3.0, 4.0, 4.7, 5.9, 6.0]

  const DifferentIntervalPenalty := -1.0

  /** A note as the strength analysis sees it: onset and length in
      milliseconds, MIDI velocity and the volume after the controllers. */
  datatype Note = Note(time: real, volume: int, realVolume: real, realLength: real)

  /** The per-segment state: its index among the beats, the notes added to
      it, the base score, and the two tables and best entry that
      ConnectToPreviousSegments writes. An entry of `previous` and the
      first half of `best` are interval indices (null: none). */
  datatype Segment = Segment(
    index: int,
    notes: seq<Note>,
    baseScore: real,
    scores: seq<real>,
    previous: seq<Option<Slot>>,
    best: (Option<Slot>, real))

  /** An index into the interval table. */
  type Slot = i: nat | i < IntervalCount

  /** Both tables hold one entry per interval. */
  predicate Shaped(s: Segment)
  {
    |s.scores| == IntervalCount && |s.previous| == IntervalCount
  }

  /** Every segment of the analysis is shaped. */
  predicate AllShaped(segs: seq<Segment>)
  {
    forall m :: 0 <= m < |segs| ==> Shaped(segs[m])
  }

  /** new BeatSegment(beat, index, segments): no notes, zeroed tables. */
  function NewSegment(index: int): (s: Segment)
    ensures Shaped(s) && s.index == index && s.notes == [] && s.best == (None, 0.0)
    ensures forall i :: 0 <= i < IntervalCount ==> s.scores[i] == 0.0 && s.previous[i] == None
  {
    Segment(index, [], 0.0, seq(IntervalCount, _ => 0.0), seq(IntervalCount, _ => None), (None, 0.0))
  }

  /** IndexToInterval: null stays null, index i is interval i + 2. */
  function IndexToInterval(index: Option<Slot>): (r: Option<int>)
    ensures r.None? <==> index.None?
    ensures r.Some? ==> r.value == Interval(index.value) && 2 <= r.value <= 7
  {
    if index.None? then None else Some(Intervals[index.value])
  }

  /** GetPreviousIndex: null stays null, otherwise the stored predecessor of
      that interval, itself an interval index or null. */
  function GetPreviousIndex(s: Segment, index: Option<Slot>): (r: Option<Slot>)
    requires Shaped(s)
    ensures index.None? ==> r.None?
    ensures index.Some? ==> r == s.previous[index.value]
  {
    if index.None? then None else s.previous[index.value]
  }

  /** The sum over the notes of RealVolume times the length in seconds. */
  function BaseScore(notes: seq<Note>): real
  {
    if notes == [] then 0.0
    else BaseScore(notes[..|notes| - 1]) + notes[|notes| - 1].realVolume * (notes[|notes| - 1].realLength / 1000.0)
  }

  /** Loud and sounding notes never lower the base score. */
  lemma {:induction false} BaseScoreNonNegative(notes: seq<Note>)
    requires forall k :: 0 <= k < |notes| ==> notes[k].realVolume >= 0.0 && notes[k].realLength >= 0.0
    ensures BaseScore(notes) >= 0.0
  {
    if notes != [] {
      BaseScoreNonNegative(notes[..|notes| - 1]);
      var n := notes[|notes| - 1];
      assert n.realVolume * (n.realLength / 1000.0) >= 0.0;
    }
  }

  /** The scores of continuing with interval i from each entry j of the
      previous strong beat: a bonus when the interval is kept, a penalty
      when it changes. */
  function Candidates(prev: seq<real>, base: real, i: nat): (r: seq<real>)
    requires |prev| == IntervalCount && i < IntervalCount
    ensures |r| == IntervalCount
  {
    seq(IntervalCount, j requires 0 <= j < IntervalCount =>
      prev[j] + (base + 0.1) * IntervalBonus[i] * (if i != j then DifferentIntervalPenalty else 1.0))
  }

  /** The inner loop of ConnectToPreviousSegments over the first n
      candidates, started from (null, double.MinValue) and replaced only by
      a strictly greater score. */
  function BestPrevious(cands: seq<real>, n: nat): (r: (Option<Slot>, real))
    requires |cands| == IntervalCount && n <= IntervalCount
    ensures r.0.Some? ==> r.0.value < n && r.1 == cands[r.0.value]
    decreases n
  {
    if n == 0 then (None, MinValue)
    else
      var m := BestPrevious(cands, n - 1);
      if cands[n - 1] > m.1 then (Some(n - 1), cands[n - 1]) else m
  }

  /** BestPrevious is the first maximum of the candidates, or null with
      double.MinValue when nothing beats double.MinValue. */
  lemma {:induction false} BestPreviousIsFirstMax(cands: seq<real>, n: nat)
    requires |cands| == IntervalCount && n <= IntervalCount
    ensures BestPrevious(cands, n).1 >= MinValue
    ensures BestPrevious(cands, n).0.None? <==> forall j :: 0 <= j < n ==> cands[j] <= MinValue
    ensures BestPrevious(cands, n).0.None? ==> BestPrevious(cands, n).1 == MinValue
    ensures forall j :: 0 <= j < n ==> cands[j] <= BestPrevious(cands, n).1
    ensures BestPrevious(cands, n).0.Some? ==> forall j :: 0 <= j < BestPrevious(cands, n).0.value ==> cands[j] < BestPrevious(cands, n).1
    decreases n
  {
    if n > 0 {
      BestPreviousIsFirstMax(cands, n - 1);
    }
  }

  /** Entry i of segment k, as (predecessor, score): just the base score
      when the interval reaches before the first beat, otherwise the best
      continuation of the segment that many beats back. */
  function ScoreAt(segs: seq<Segment>, k: nat, i: nat): (Option<Slot>, real)
    requires k < |segs| && i < IntervalCount
    requires AllShaped(segs)
  {
    if Interval(i) > k then (None, segs[k].baseScore)
    else
      var p := k - Interval(i);
      assert Shaped(segs[p]);
      BestPrevious(Candidates(segs[p].scores, segs[k].baseScore, i), IntervalCount)
  }

  /** The new row of segment k: entry i as (predecessor, score). */
  function Row(segs: seq<Segment>, k: nat): (r: seq<(Option<Slot>, real)>)
    requires k < |segs|
    requires AllShaped(segs)
    ensures |r| == IntervalCount
  {
    seq(IntervalCount, i requires 0 <= i < IntervalCount => ScoreAt(segs, k, i))
  }

  /** BestScore over the first n entries of segment k's new scores: started
      from (null, double.MinValue), only intervals that fit before segment k
      compete, and a later one wins only with a strictly greater score. */
  function BestInterval(scores: seq<real>, k: nat, n: nat): (r: (Option<Slot>, real))
    requires |scores| == IntervalCount && n <= IntervalCount
    ensures r.0.Some? ==> r.0.value < n && Interval(r.0.value) <= k && r.1 == scores[r.0.value]
    decreases n
  {
    if n == 0 then (None, MinValue)
    else
      var m := BestInterval(scores, k, n - 1);
      if Interval(n - 1) <= k && scores[n - 1] > m.1 then (Some(n - 1), scores[n - 1]) else m
  }

  /** BestInterval is the first maximum over the intervals that fit, or
      null with double.MinValue when none beats double.MinValue. */
  lemma {:induction false} BestIntervalIsFirstMax(scores: seq<real>, k: nat, n: nat)
    requires |scores| == IntervalCount && n <= IntervalCount
    ensures BestInterval(scores, k, n).1 >= MinValue
    ensures BestInterval(scores, k, n).0.None? ==> BestInterval(scores, k, n).1 == MinValue
    ensures forall i :: 0 <= i < n && Interval(i) <= k ==> scores[i] <= BestInterval(scores, k, n).1
    ensures BestInterval(scores, k, n).0.Some? ==>
      forall i :: 0 <= i < BestInterval(scores, k, n).0.value && Interval(i) <= k ==> scores[i] < BestInterval(scores, k, n).1
    ensures BestInterval(scores, k, n).0.None? <==> forall i :: 0 <= i < n && Interval(i) <= k ==> scores[i] <= MinValue
    decreases n
  {
    if n > 0 {
      BestIntervalIsFirstMax(scores, k, n - 1);
    }
  }

  /** Before the third beat no interval fits, so BestScore stays null. */
  lemma EarlyBeatHasNoBest(scores: seq<real>, k: nat)
    requires |scores| == IntervalCount && k < 2
    ensures BestInterval(scores, k, IntervalCount) == (None, MinValue)
  {
    BestIntervalIsFirstMax(scores, k, IntervalCount);
  }

  /** Segment s with the row of position k written into its tables. */
  function Install(s: Segment, row: seq<(Option<Slot>, real)>, k: nat): (r: Segment)
    requires |row| == IntervalCount
    ensures Shaped(r)
  {
    var scores := seq(IntervalCount, i requires 0 <= i < IntervalCount => row[i].1);
    s.(scores := scores,
       previous := seq(IntervalCount, i requires 0 <= i < IntervalCount => row[i].0),
       best := BestInterval(scores, k, IntervalCount))
  }

  /** Segment k after ConnectToPreviousSegments. */
  function Connected(segs: seq<Segment>, k: nat): (r: Segment)
    requires k < |segs|
    requires AllShaped(segs)
    ensures Shaped(r)
    ensures r.index == segs[k].index && r.notes == segs[k].notes && r.baseScore == segs[k].baseScore
  {
    Install(segs[k], Row(segs, k), k)
  }

  lemma ScoreAtOnPrefix(s: seq<Segment>, t: seq<Segment>, k: nat, i: nat)
    requires AllShaped(s) && AllShaped(t) && k < |s| && k < |t| && i < IntervalCount
    requires forall m :: 0 <= m < k ==> s[m].scores == t[m].scores
    requires s[k].baseScore == t[k].baseScore
    ensures ScoreAt(s, k, i) == ScoreAt(t, k, i)
  {
    if Interval(i) <= k {
      var p := k - Interval(i);
      var cands := Candidates(s[p].scores, s[k].baseScore, i);
      assert s[p].scores == t[p].scores;
      assert ScoreAt(s, k, i) == BestPrevious(cands, IntervalCount);
      assert ScoreAt(t, k, i) == BestPrevious(cands, IntervalCount);
    }
  }

  /** What ConnectToPreviousSegments writes into segment k depends only on
      its own notes and base score and on the tables of the segments before
      it. */
  lemma ConnectedOnPrefix(s: seq<Segment>, t: seq<Segment>, k: nat)
    requires AllShaped(s) && AllShaped(t) && k < |s| && k < |t|
    requires forall m :: 0 <= m < k ==> s[m].scores == t[m].scores
    requires s[k].index == t[k].index && s[k].notes == t[k].notes && s[k].baseScore == t[k].baseScore
    ensures Connected(s, k) == Connected(t, k)
  {
    forall i | 0 <= i < IntervalCount
      ensures Row(s, k)[i] == Row(t, k)[i]
    {
      ScoreAtOnPrefix(s, t, k, i);
    }
    assert Row(s, k) == Row(t, k);
  }

  /** The inner loop of ConnectToPreviousSegments: the first best
      continuation of interval i from the previous strong beat's scores. */
  method BestContinuation(other: seq<real>, base: real, i: nat) returns (max: (Option<Slot>, real))
    requires |other| == IntervalCount && i < IntervalCount
    ensures max == BestPrevious(Candidates(other, base, i), IntervalCount)
  {
    ghost var cands := Candidates(other, base, i);
    max := (None, MinValue);
    for j := 0 to IntervalCount
      invariant max == BestPrevious(cands, j)
    {
      var score := other[j] + (base + 0.1) * IntervalBonus[i] * (if i != j then DifferentIntervalPenalty else 1.0);
      assert score == cands[j];
      if score > max.1 {
        max := (Some(j), score);
      }
    }
  }

  /** The entry of interval i for segment k: the base score when the
      interval reaches before the first beat, otherwise the best
      continuation of the segment that many beats back. */
  method Entry(segs: seq<Segment>, k: nat, i: nat) returns (e: (Option<Slot>, real))
    requires k < |segs| && i < IntervalCount && AllShaped(segs)
    ensures e == ScoreAt(segs, k, i)
  {
    var interval := IndexToInterval(Some(i)).value;
    if interval > k {
      e := (None, segs[k].baseScore);
    } else {
      assert Shaped(segs[k - interval]);
      e := BestContinuation(segs[k - interval].scores, segs[k].baseScore, i);
    }
  }

  /** BeatSegment.ConnectToPreviousSegments on segment k of segs: fills in
      the score and predecessor of every interval and the best of them. */
  method ConnectToPreviousSegments(segs: seq<Segment>, k: nat) returns (seg: Segment)
    requires k < |segs| && AllShaped(segs)
    ensures seg == Connected(segs, k)
  {
    seg := segs[k];
    var scores: seq<real> := seg.scores;
    var previous: seq<Option<Slot>> := seg.previous;
    var best: (Option<Slot>, real) := (None, MinValue);
    ghost var row := Row(segs, k);
    ghost var installed := Install(seg, row, k);
    for i := 0 to IntervalCount
      invariant |scores| == IntervalCount && |previous| == IntervalCount
      invariant forall m :: 0 <= m < i ==> scores[m] == row[m].1 && previous[m] == row[m].0
      invariant best == BestInterval(installed.scores, k, i)
    {
      var e := Entry(segs, k, i);
      assert e == row[i];
      scores := scores[i := e.1];
      previous := previous[i := e.0];
      if IndexToInterval(Some(i)).value <= k && e.1 > best.1 {
        best := (Some(i), e.1);
      }
    }
    assert scores == installed.scores;
    assert previous == installed.previous;
    seg := seg.(scores := scores, previous := previous, best := best);
  }
}
