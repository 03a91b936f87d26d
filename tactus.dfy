/** Tactus.cs: the metre detector's dynamic programme. For every pip and
    every beat length in a window it keeps the best score of a chain of
    beats ending there; a sweep of windows over the tempo range picks the
    best window, the chain ending at the best entry is labelled as beats,
    and the gaps between the labelled beats are returned. */
module Tactus {
  import opened Wrappers
  import opened MathExt
  import opened MetreGlobals
  import opened Pips

  /** Every pip carries both tables in full. */
  predicate Table(pips: seq<Pip>)
  {
    forall i :: 0 <= i < |pips| ==> Shaped(pips[i])
  }

  /** A window of beat lengths, _minPip .. _maxPip, inside the tables. */
  predicate Window(min: int, max: int)
  {
    InTable(min) && InTable(max) && min <= max
  }

  /** `r` differs from `pips` in the score and state tables at most. */
  predicate Frame(pips: seq<Pip>, r: seq<Pip>)
  {
    |r| == |pips| && Table(r) &&
    forall k :: 0 <= k < |pips| ==> r[k] == pips[k].(score := r[k].score, states := r[k].states)
  }

  /** The syncopation term: the base scores of the pips at a half, the
      thirds and the quarters of the beat, weighted 1/4, 1/12 and 1/16. */
  function Syncopation(pips: seq<Pip>, index: int, length: int): real
    requires 0 <= index - length && index < |pips| && 1 <= length
  {
    pips[index - length / 2].baseScore / 4.0 +
    pips[index - length / 3].baseScore / 12.0 +
    pips[index - length * 2 / 3].baseScore / 12.0 +
    pips[index - length / 4].baseScore / 16.0 +
    pips[index - length * 3 / 4].baseScore / 16.0
  }

  /** DeviationPenalty: the automaton is run from the previous beat's state
      on the change of beat length in milliseconds; a punished change costs
      10 * sqrt(change / 1000 s). Returns the penalty and the new state. */
  function Deviation(pips: seq<Pip>, maths: Maths, index: int, prevLength: int, length: int): (r: (real, State))
    requires Table(pips) && 0 <= index - length && index < |pips| && InTable(length) && InTable(prevLength)
    ensures length == prevLength ==> r == (0.0, GetState(pips[index - length], prevLength))
    ensures r.0 != 0.0 ==> r.1 == Steady
    ensures Abs(length - prevLength) > 1 ==>
      r == (BeatIntervalFactor * maths.sqrt((Abs(length - prevLength) * PipTime) as real / 1000.0), Steady)
  {
    var diff := Abs(length - prevLength) * PipTime;
    var t := Transition(GetState(pips[index - length], prevLength), diff);
    (if t.1 then BeatIntervalFactor * maths.sqrt(diff as real / 1000.0) else 0.0, t.0)
  }

  /** One pass of CalculateBestScore's loop: the score of a beat of
      `length` ending at `index` after a beat of `prevLength`, and the
      state the pass leaves for (index, length). A previous beat reaching
      before the start counts as a beat of the same length and resets the
      state. */
  function Candidate(pips: seq<Pip>, maths: Maths, index: int, length: int, prevLength: int): (r: (real, State))
    requires Table(pips) && 0 <= index - length && index < |pips| && InTable(length) && InTable(prevLength)
    ensures index - length - prevLength < 0 ==> r.1 == Steady
    ensures index - length - prevLength >= 0 ==> r.1 == Deviation(pips, maths, index, prevLength, length).1
  {
    var baseScore := pips[index].baseScore;
    var syncopation := Syncopation(pips, index, length);
    var score := GetBestScore(pips[index - length], prevLength).score;
    if index - length - prevLength < 0 then
      (score + (syncopation + baseScore) * maths.log2(((length + length) * PipTime) as real / 2.0 + 1.0), Steady)
    else
      var d := Deviation(pips, maths, index, prevLength, length);
      (score + ((syncopation + baseScore) * maths.log2(((length + prevLength) * PipTime) as real / 2.0 + 1.0) - d.0), d.1)
  }

  /** The loop over prevLength = p .. max: the strictly better candidate
      replaces the best, and each pass leaves its state behind. */
  function Sweep(pips: seq<Pip>, maths: Maths, max: int, index: int, length: int, p: int, best: Entry, state: State): (Entry, State)
    requires Table(pips) && 0 <= index - length && index < |pips| && InTable(length)
    requires MinLength <= p && max <= MaxLength
    decreases max + 1 - p
  {
    if p > max then (best, state)
    else
      var c := Candidate(pips, maths, index, length, p);
      Sweep(pips, maths, max, index, length, p + 1, if c.0 > best.score then Entry(c.0, p) else best, c.1)
  }

  /** The sweep ends on the first strict maximum of the candidates above
      the starting best, and leaves the last candidate's state. */
  lemma {:induction false} SweepFirstMaximum(pips: seq<Pip>, maths: Maths, max: int, index: int, length: int, p: int, best: Entry, state: State)
    requires Table(pips) && 0 <= index - length && index < |pips| && InTable(length)
    requires MinLength <= p && max <= MaxLength
    decreases max + 1 - p
    ensures var r := Sweep(pips, maths, max, index, length, p, best, state);
      r.0.score >= best.score &&
      (forall q :: p <= q <= max ==> Candidate(pips, maths, index, length, q).0 <= r.0.score) &&
      r.1 == (if p <= max then Candidate(pips, maths, index, length, max).1 else state)
    ensures var r := Sweep(pips, maths, max, index, length, p, best, state);
      r.0 == best ||
      (p <= r.0.prevLength <= max && r.0.score > best.score &&
       r.0.score == Candidate(pips, maths, index, length, r.0.prevLength).0 &&
       forall q :: p <= q < r.0.prevLength ==> Candidate(pips, maths, index, length, q).0 < r.0.score)
  {
    if p <= max {
      var c := Candidate(pips, maths, index, length, p);
      SweepFirstMaximum(pips, maths, max, index, length, p + 1, if c.0 > best.score then Entry(c.0, p) else best, c.1);
    }
  }

  /** CalculateBestScore(index, length): the entry for (index, length) and
      the state the call leaves there. */
  function BestScore(pips: seq<Pip>, maths: Maths, min: int, max: int, index: int, length: int): (Entry, State)
    requires Table(pips) && 0 <= index < |pips| && InTable(length) && Window(min, max)
  {
    if index - length < 0 then
      (Entry(pips[index].baseScore * DefaultScore(maths), -1), GetState(pips[index], length))
    else
      Sweep(pips, maths, max, index, length, min, Entry(MinValue, -1), GetState(pips[index], length))
  }

  /** The entry for (index, length) is the first best candidate over the
      window, or the pip's own score times DefaultScore when no beat fits
      before it; the state left is the last pass's. */
  lemma {:induction false} BestScoreIsFirstMaximum(pips: seq<Pip>, maths: Maths, min: int, max: int, index: int, length: int)
    requires Table(pips) && 0 <= index < |pips| && InTable(length) && Window(min, max)
    ensures index - length < 0 ==>
      BestScore(pips, maths, min, max, index, length).0 == Entry(pips[index].baseScore * DefaultScore(maths), -1) &&
      BestScore(pips, maths, min, max, index, length).1 == GetState(pips[index], length)
    ensures var r := BestScore(pips, maths, min, max, index, length);
      (index - length >= 0 ==>
        r.1 == Candidate(pips, maths, index, length, max).1 &&
        (forall q :: min <= q <= max ==> Candidate(pips, maths, index, length, q).0 <= r.0.score) &&
        ((r.0.prevLength == -1 && r.0.score == MinValue) ||
         (min <= r.0.prevLength <= max && r.0.score == Candidate(pips, maths, index, length, r.0.prevLength).0 &&
          forall q :: min <= q < r.0.prevLength ==> Candidate(pips, maths, index, length, q).0 < r.0.score)))
  {
    if index - length >= 0 {
      SweepFirstMaximum(pips, maths, max, index, length, min, Entry(MinValue, -1), GetState(pips[index], length));
    }
  }

  /** What a finished table entry may link to: nothing before the start,
      otherwise a length in the window, or nothing when no candidate
      scored above double.MinValue. */
  predicate Linked(e: Entry, index: int, length: int, baseScore: real, maths: Maths, min: int, max: int)
  {
    if index - length < 0 then e == Entry(baseScore * DefaultScore(maths), -1)
    else (e.prevLength == -1 && e.score == MinValue) || min <= e.prevLength <= max
  }

  /** The entry CalculateBestScore returns is linked. */
  lemma BestScoreLinked(pips: seq<Pip>, maths: Maths, min: int, max: int, i: int, L: int)
    requires Table(pips) && 0 <= i < |pips| && InTable(L) && Window(min, max)
    ensures Linked(BestScore(pips, maths, min, max, i, L).0, i, L, pips[i].baseScore, maths, min, max)
  {
    BestScoreIsFirstMaximum(pips, maths, min, max, i, L);
  }

  /** The inner loop's body of ComputeTactusScores for (i, L). */
  function AfterLength(pips: seq<Pip>, maths: Maths, min: int, max: int, i: int, L: int): (r: seq<Pip>)
    requires Table(pips) && 0 <= i < |pips| && InTable(L) && Window(min, max)
    ensures |r| == |pips| && Table(r)
  {
    var b := BestScore(pips, maths, min, max, i, L);
    var q := pips[i := SetState(pips[i], L, b.1)];
    q[i := SetBestScore(q[i], L, b.0.score, b.0.prevLength)]
  }

  /** `r` is `pips` with at most the tables of pip i changed. */
  predicate RowFrame(pips: seq<Pip>, r: seq<Pip>, i: int)
    requires 0 <= i < |pips|
  {
    |r| == |pips| && Table(r) &&
    (forall k :: 0 <= k < |pips| && k != i ==> r[k] == pips[k]) &&
    r[i] == pips[i].(score := r[i].score, states := r[i].states)
  }

  /** The body writes the entry CalculateBestScore returns, and changes
      nothing outside the tables of pip i. */
  lemma {:induction false} AfterLengthEffect(pips: seq<Pip>, maths: Maths, min: int, max: int, i: int, L: int)
    requires Table(pips) && 0 <= i < |pips| && InTable(L) && Window(min, max)
    ensures var r := AfterLength(pips, maths, min, max, i, L);
      RowFrame(pips, r, i) &&
      GetBestScore(r[i], L) == BestScore(pips, maths, min, max, i, L).0 &&
      forall l :: InTable(l) && l != L ==> GetBestScore(r[i], l) == GetBestScore(pips[i], l)
  {
  }

  /** The inner loop of ComputeTactusScores for pip i, lengths min .. L-1. */
  function AfterRow(pips: seq<Pip>, maths: Maths, min: int, max: int, i: int, L: int): (r: seq<Pip>)
    requires Table(pips) && 0 <= i < |pips| && Window(min, max) && min <= L <= max + 1
    decreases L - min
    ensures |r| == |pips| && Table(r)
  {
    if L == min then pips
    else AfterLength(AfterRow(pips, maths, min, max, i, L - 1), maths, min, max, i, L - 1)
  }

  /** The row pass touches only the tables of pip i. */
  lemma {:induction false} AfterRowFrame(pips: seq<Pip>, maths: Maths, min: int, max: int, i: int, L: int)
    requires Table(pips) && 0 <= i < |pips| && Window(min, max) && min <= L <= max + 1
    decreases L - min
    ensures RowFrame(pips, AfterRow(pips, maths, min, max, i, L), i)
  {
    if L > min {
      var before := AfterRow(pips, maths, min, max, i, L - 1);
      AfterRowFrame(pips, maths, min, max, i, L - 1);
      AfterLengthEffect(before, maths, min, max, i, L - 1);
    }
  }

  /** The row pass leaves each entry it wrote linked. */
  lemma {:induction false} AfterRowLinked(pips: seq<Pip>, maths: Maths, min: int, max: int, i: int, L: int)
    requires Table(pips) && 0 <= i < |pips| && Window(min, max) && min <= L <= max + 1
    decreases L - min
    ensures forall l :: min <= l < L ==>
      Linked(GetBestScore(AfterRow(pips, maths, min, max, i, L)[i], l), i, l, pips[i].baseScore, maths, min, max)
  {
    if L > min {
      var before := AfterRow(pips, maths, min, max, i, L - 1);
      var after := AfterLength(before, maths, min, max, i, L - 1);
      assert after == AfterRow(pips, maths, min, max, i, L);
      AfterRowLinked(pips, maths, min, max, i, L - 1);
      AfterRowFrame(pips, maths, min, max, i, L - 1);
      AfterLengthEffect(before, maths, min, max, i, L - 1);
      BestScoreLinked(before, maths, min, max, i, L - 1);
      assert before[i].baseScore == pips[i].baseScore;
      forall l | min <= l < L
        ensures Linked(GetBestScore(after[i], l), i, l, pips[i].baseScore, maths, min, max)
      {
        if l < L - 1 {
          assert GetBestScore(after[i], l) == GetBestScore(before[i], l);
        } else {
          assert GetBestScore(after[i], l) == BestScore(before, maths, min, max, i, l).0;
        }
      }
    }
  }

  /** The outer loop of ComputeTactusScores over pips 0 .. n-1. */
  function AfterRows(pips: seq<Pip>, maths: Maths, min: int, max: int, n: int): (r: seq<Pip>)
    requires Table(pips) && 0 <= n <= |pips| && Window(min, max)
    ensures |r| == |pips| && Table(r)
  {
    if n == 0 then pips
    else AfterRow(AfterRows(pips, maths, min, max, n - 1), maths, min, max, n - 1, max + 1)
  }

  /** The pass over pips 0 .. n-1 changes their tables and nothing else. */
  lemma {:induction false} AfterRowsFrame(pips: seq<Pip>, maths: Maths, min: int, max: int, n: int)
    requires Table(pips) && 0 <= n <= |pips| && Window(min, max)
    ensures var r := AfterRows(pips, maths, min, max, n);
      Frame(pips, r) && forall k :: n <= k < |pips| ==> r[k] == pips[k]
  {
    if n > 0 {
      var before := AfterRows(pips, maths, min, max, n - 1);
      var r := AfterRow(before, maths, min, max, n - 1, max + 1);
      AfterRowsFrame(pips, maths, min, max, n - 1);
      AfterRowFrame(before, maths, min, max, n - 1, max + 1);
      forall k | 0 <= k < |pips|
        ensures r[k] == pips[k].(score := r[k].score, states := r[k].states)
      {
        assert before[k] == pips[k].(score := before[k].score, states := before[k].states);
      }
    }
  }

  /** The pass over pips 0 .. n-1 leaves every entry of theirs in the
      window linked. */
  lemma {:induction false} AfterRowsLinked(pips: seq<Pip>, maths: Maths, min: int, max: int, n: int)
    requires Table(pips) && 0 <= n <= |pips| && Window(min, max)
    ensures forall k, l :: 0 <= k < n && min <= l <= max ==>
      Linked(GetBestScore(AfterRows(pips, maths, min, max, n)[k], l), k, l, pips[k].baseScore, maths, min, max)
  {
    if n > 0 {
      var before := AfterRows(pips, maths, min, max, n - 1);
      var after := AfterRow(before, maths, min, max, n - 1, max + 1);
      assert after == AfterRows(pips, maths, min, max, n);
      AfterRowsLinked(pips, maths, min, max, n - 1);
      AfterRowsFrame(pips, maths, min, max, n - 1);
      AfterRowFrame(before, maths, min, max, n - 1, max + 1);
      AfterRowLinked(before, maths, min, max, n - 1, max + 1);
      assert before[n - 1] == pips[n - 1];
      forall k, l | 0 <= k < n && min <= l <= max
        ensures Linked(GetBestScore(after[k], l), k, l, pips[k].baseScore, maths, min, max)
      {
        if k < n - 1 {
          assert after[k] == before[k];
        }
      }
    }
  }

  /** ComputeTactusScores: every pip, every length of the window. */
  function Scored(pips: seq<Pip>, maths: Maths, min: int, max: int): (r: seq<Pip>)
    requires Table(pips) && Window(min, max)
    ensures |r| == |pips| && Table(r)
  {
    AfterRows(pips, maths, min, max, |pips|)
  }

  /** After a pass every entry of the window is linked: an entry with no
      beat before the start holds the pip's own score and no previous
      length, any other names a length of the window unless nothing scored
      above double.MinValue. Only the tables change. */
  lemma {:induction false} ScoredLinked(pips: seq<Pip>, maths: Maths, min: int, max: int)
    requires Table(pips) && Window(min, max)
    ensures var r := Scored(pips, maths, min, max);
      Frame(pips, r) &&
      forall k, l :: 0 <= k < |pips| && min <= l <= max ==>
        Linked(GetBestScore(r[k], l), k, l, pips[k].baseScore, maths, min, max)
  {
    AfterRowsFrame(pips, maths, min, max, |pips|);
    AfterRowsLinked(pips, maths, min, max, |pips|);
  }

  /** The best entry EvaluateSolution finds: its score, its previous
      length, its own length and its pip (-1 for none). */
  datatype Found = Found(score: real, prevLength: int, length: int, index: int)

  /** The inner loop of EvaluateSolution at pip i, lengths L .. max. */
  function SearchRow(pips: seq<Pip>, max: int, i: int, L: int, best: Found): Found
    requires Table(pips) && 0 <= i < |pips| && MinLength <= L && max <= MaxLength
    decreases max + 1 - L
  {
    if L > max then best
    else
      var e := GetBestScore(pips[i], L);
      SearchRow(pips, max, i, L + 1, if e.score > best.score then Found(e.score, e.prevLength, L, i) else best)
  }

  lemma {:induction false} SearchRowBest(pips: seq<Pip>, max: int, i: int, L: int, best: Found)
    requires Table(pips) && 0 <= i < |pips| && MinLength <= L && max <= MaxLength
    decreases max + 1 - L
    ensures var r := SearchRow(pips, max, i, L, best);
      r.score >= best.score &&
      (forall l :: L <= l <= max ==> GetBestScore(pips[i], l).score <= r.score) &&
      (r == best ||
       (r.score > best.score && r.index == i && L <= r.length <= max &&
        GetBestScore(pips[i], r.length) == Entry(r.score, r.prevLength)))
  {
    if L <= max {
      var e := GetBestScore(pips[i], L);
      SearchRowBest(pips, max, i, L + 1, if e.score > best.score then Found(e.score, e.prevLength, L, i) else best);
    }
  }

  /** The outer loop of EvaluateSolution: pips i, i-1, .. down to the
      last maxPip pips of the piece. */
  function SearchFrom(pips: seq<Pip>, min: int, max: int, i: int, best: Found): Found
    requires Table(pips) && i < |pips| && Window(min, max)
    decreases i + 1
  {
    if i < |pips| - max || i < 0 then best
    else SearchFrom(pips, min, max, i - 1, SearchRow(pips, max, i, min, best))
  }

  lemma {:induction false} SearchFromBest(pips: seq<Pip>, min: int, max: int, i: int, best: Found)
    requires Table(pips) && i < |pips| && Window(min, max)
    decreases i + 1
    ensures var r := SearchFrom(pips, min, max, i, best);
      r.score >= best.score &&
      (forall k, l :: |pips| - max <= k <= i && 0 <= k && min <= l <= max ==> GetBestScore(pips[k], l).score <= r.score) &&
      (r == best ||
       (r.score > best.score && |pips| - max <= r.index <= i && 0 <= r.index && min <= r.length <= max &&
        GetBestScore(pips[r.index], r.length) == Entry(r.score, r.prevLength)))
  {
    if !(i < |pips| - max || i < 0) {
      SearchRowBest(pips, max, i, min, best);
      SearchFromBest(pips, min, max, i - 1, SearchRow(pips, max, i, min, best));
    }
  }

  /** EvaluateSolution's search: the best entry among the last maxPip pips
      and the window's lengths; "no scores to look at" when none scores
      above double.MinValue. */
  function Evaluate(pips: seq<Pip>, min: int, max: int): (r: Result<Found>)
    requires Table(pips) && Window(min, max)
    ensures r.Fail? ==> r.failure == GeneralError
    ensures r.Ok? ==> r.value.score > MinValue && 0 <= r.value.index && |pips| - max <= r.value.index < |pips| &&
                      min <= r.value.length <= max
  {
    var best := SearchFrom(pips, min, max, |pips| - 1, Found(MinValue, -1, -1, -1));
    SearchFromBest(pips, min, max, |pips| - 1, Found(MinValue, -1, -1, -1));
    if best.index == -1 then Fail(GeneralError) else Ok(best)
  }

  /** The search fails exactly when no entry among the last maxPip pips
      scores above double.MinValue; otherwise it finds the entry with the
      greatest score. */
  lemma {:induction false} EvaluateBest(pips: seq<Pip>, min: int, max: int)
    requires Table(pips) && Window(min, max)
    ensures var r := Evaluate(pips, min, max);
      r.Fail? <==> forall k, l :: |pips| - max <= k < |pips| && 0 <= k && min <= l <= max ==>
        GetBestScore(pips[k], l).score <= MinValue
    ensures var r := Evaluate(pips, min, max);
      r.Ok? ==>
        GetBestScore(pips[r.value.index], r.value.length) == Entry(r.value.score, r.value.prevLength) &&
        forall k, l :: |pips| - max <= k < |pips| && 0 <= k && min <= l <= max ==>
          GetBestScore(pips[k], l).score <= r.value.score
  {
    SearchFromBest(pips, min, max, |pips| - 1, Found(MinValue, -1, -1, -1));
  }

  /** LabelBeats(index, length): walks the chain back from (index, length),
      marking each pip it meets as a beat of that length. A length outside
      the tables is an IndexOutOfRangeException. */
  function Labelled(pips: seq<Pip>, index: int, length: int): (r: Result<seq<Pip>>)
    requires Table(pips) && index < |pips|
    decreases if index < 0 then 0 else index + 1
    ensures r.Fail? ==> r.failure == IndexOutOfRange
    ensures r.Ok? ==> |r.value| == |pips| && Table(r.value)
  {
    if index < 0 then Ok(pips)
    else if !InTable(length) then Fail(IndexOutOfRange)
    else
      var next := GetBestScore(pips[index], length).prevLength;
      Labelled(pips[index := pips[index].(isBeat := true, bestOffset := length)], index - length, next)
  }

  /** Labelling changes only the beat marks and offsets, leaves the pips
      after the start alone, and marks the start with its length. */
  lemma {:induction false} LabelledEffect(pips: seq<Pip>, index: int, length: int)
    requires Table(pips) && index < |pips|
    decreases if index < 0 then 0 else index + 1
    ensures var r := Labelled(pips, index, length);
      r.Ok? ==>
        (forall k :: 0 <= k < |pips| && index < k ==> r.value[k] == pips[k]) &&
        (forall k :: 0 <= k < |pips| ==>
          r.value[k] == pips[k].(isBeat := r.value[k].isBeat, bestOffset := r.value[k].bestOffset)) &&
        (0 <= index ==> r.value[index] == pips[index].(isBeat := true, bestOffset := length))
  {
    if index >= 0 && InTable(length) {
      var next := GetBestScore(pips[index], length).prevLength;
      LabelledEffect(pips[index := pips[index].(isBeat := true, bestOffset := length)], index - length, next);
    }
  }

  /** On a table whose every entry with a beat before it names a length of
      the window, labelling from any pip and any length of the window
      succeeds. */
  lemma {:induction false} LabelledSucceeds(pips: seq<Pip>, min: int, max: int, index: int, length: int)
    requires Table(pips) && Window(min, max) && index < |pips| && min <= length <= max
    requires forall k, l :: 0 <= k < |pips| && min <= l <= max && k - l >= 0 ==>
      min <= GetBestScore(pips[k], l).prevLength <= max
    ensures Labelled(pips, index, length).Ok?
    decreases if index < 0 then 0 else index + 1
  {
    if index >= 0 {
      var next := GetBestScore(pips[index], length).prevLength;
      var marked := pips[index := pips[index].(isBeat := true, bestOffset := length)];
      if index - length >= 0 {
        assert forall k, l :: 0 <= k < |pips| && min <= l <= max ==> GetBestScore(marked[k], l) == GetBestScore(pips[k], l);
        LabelledSucceeds(marked, min, max, index - length, next);
      }
    }
  }

  /** EvaluateSolution as written: the best entry is remembered with its
      previous length in place of its own, and LabelBeats starts from
      that. */
  function EvaluateAsWritten(pips: seq<Pip>, min: int, max: int): (r: Result<seq<Pip>>)
    requires Table(pips) && Window(min, max)
    ensures Evaluate(pips, min, max).Fail? ==> r == Fail(GeneralError)
  {
    match Evaluate(pips, min, max)
    case Fail(f) => Fail(f)
    case Ok(best) => Labelled(pips, best.index, best.prevLength)
  }

  /** A piece of at most min pips has no entry with a beat before it, so
      the entry found names no previous length: as written the labelling
      asks for length -1 and throws, while starting from the entry's own
      length marks the found pip and stops. */
  lemma {:induction false} ShortPieceFailsAsWritten(pips: seq<Pip>, maths: Maths, min: int, max: int)
    requires Table(pips) && Window(min, max) && |pips| <= min
    ensures var s := Scored(pips, maths, min, max);
      var e := Evaluate(s, min, max);
      e.Ok? ==>
        EvaluateAsWritten(s, min, max) == Fail(IndexOutOfRange) &&
        Labelled(s, e.value.index, e.value.length).Ok?
  {
    var s := Scored(pips, maths, min, max);
    ScoredLinked(pips, maths, min, max);
    EvaluateBest(s, min, max);
    var e := Evaluate(s, min, max);
    if e.Ok? {
      var f := e.value;
      assert Linked(GetBestScore(s[f.index], f.length), f.index, f.length, pips[f.index].baseScore, maths, min, max);
      assert f.prevLength == -1;
    }
  }

  /** A window of the sweep, quantized: min..max inside the tables. */
  lemma {:induction false} WindowOf(tmin: real, tmax: real)
    requires TactusMin <= tmin && tmax == tmin * TactusWidth && tmax <= TactusMax
    ensures Window(Quantize(tmin), Quantize(tmax))
  {
    LengthsQuantized();
    QuantizeMonotone(TactusMin, tmin);
    QuantizeMonotone(tmin, tmax);
    QuantizeMonotone(tmax, TactusMax);
  }

  /** The best window of the sweep so far: its score and lengths. */
  datatype Choice = Choice(value: real, min: int, max: int)

  /** Compute's sweep from the window [tmin, tmax] on: each window is
      scored on the tables the previous one left, evaluated, and kept when
      strictly better; the sweep stops once the window ends after
      TactusMax. */
  function SweepFrom(pips: seq<Pip>, maths: Maths, tmin: real, tmax: real, best: Choice): Result<(seq<Pip>, Choice)>
    requires Table(pips) && TactusMin <= tmin && tmax == tmin * TactusWidth
    decreases Trunc(TactusMax - tmax) + 1, 2
  {
    if tmax > TactusMax then Ok((pips, best)) else SweepWindow(pips, maths, tmin, tmax, best)
  }

  /** One turn of the sweep: the window [tmin, tmax] in pips. */
  function SweepWindow(pips: seq<Pip>, maths: Maths, tmin: real, tmax: real, best: Choice): Result<(seq<Pip>, Choice)>
    requires Table(pips) && TactusMin <= tmin && tmax == tmin * TactusWidth && tmax <= TactusMax
    decreases Trunc(TactusMax - tmax) + 1, 1
  {
    WindowOf(tmin, tmax);
    SweepScored(pips, maths, tmin, tmax, best, Quantize(tmin), Quantize(tmax))
  }

  /** The window [min, max] scored and evaluated, then the rest of the
      sweep with the better choice. */
  function SweepScored(pips: seq<Pip>, maths: Maths, tmin: real, tmax: real, best: Choice, min: int, max: int): Result<(seq<Pip>, Choice)>
    requires Table(pips) && TactusMin <= tmin && tmax == tmin * TactusWidth && tmax <= TactusMax
    requires Window(min, max)
    decreases Trunc(TactusMax - tmax) + 1, 0
  {
    var scored := Scored(pips, maths, min, max);
    match Evaluate(scored, min, max)
    case Fail(f) => Fail(f)
    case Ok(found) =>
      SweepFrom(scored, maths, tmin * TactusStep, tmax * TactusStep,
                if found.score > best.value then Choice(found.score, min, max) else best)
  }

  /** The sweep keeps the tables' shape, never ends worse than the choice
      it starts from, ends with a choice of some window or that one, and,
      when at least one window is swept, ends above double.MinValue. An
      empty piece fails at its first window. */
  lemma {:induction false} SweepFromChoice(pips: seq<Pip>, maths: Maths, tmin: real, tmax: real, best: Choice)
    requires Table(pips) && TactusMin <= tmin && tmax == tmin * TactusWidth
    decreases Trunc(TactusMax - tmax) + 1
    ensures var r := SweepFrom(pips, maths, tmin, tmax, best);
      r.Ok? ==> Table(r.value.0) && |r.value.0| == |pips| && r.value.1.value >= best.value &&
                (r.value.1 == best || Window(r.value.1.min, r.value.1.max))
    ensures var r := SweepFrom(pips, maths, tmin, tmax, best);
      r.Ok? && tmax <= TactusMax ==> r.value.1.value > MinValue
    ensures pips == [] && tmax <= TactusMax ==> SweepFrom(pips, maths, tmin, tmax, best) == Fail(GeneralError)
  {
    if tmax <= TactusMax {
      WindowOf(tmin, tmax);
      var min := Quantize(tmin);
      var max := Quantize(tmax);
      var scored := Scored(pips, maths, min, max);
      var e := Evaluate(scored, min, max);
      assert SweepFrom(pips, maths, tmin, tmax, best) == SweepWindow(pips, maths, tmin, tmax, best);
      if pips == [] {
        EvaluateBest(scored, min, max);
      }
      if e.Ok? {
        var next := if e.value.score > best.value then Choice(e.value.score, min, max) else best;
        NextWindow(tmin, tmax);
        SweepFromChoice(scored, maths, tmin * TactusStep, tmax * TactusStep, next);
      }
    }
  }

  /** The next window of the sweep keeps its width ratio and moves its
      upper end up by more than a millisecond. */
  lemma NextWindow(tmin: real, tmax: real)
    requires TactusMin <= tmin && tmax == tmin * TactusWidth && tmax <= TactusMax
    ensures TactusMin <= tmin * TactusStep && tmax * TactusStep == tmin * TactusStep * TactusWidth
    ensures Trunc(TactusMax - tmax * TactusStep) + 1 < Trunc(TactusMax - tmax) + 1
  {
  }

  /** A sweep whose window still ends within TactusMax scores that
      window, quantized, next. */
  lemma SweepFromStep(pips: seq<Pip>, maths: Maths, tmin: real, tmax: real, best: Choice)
    requires Table(pips) && TactusMin <= tmin && tmax == tmin * TactusWidth && tmax <= TactusMax
    ensures Window(Quantize(tmin), Quantize(tmax))
    ensures SweepFrom(pips, maths, tmin, tmax, best) ==
            SweepScored(pips, maths, tmin, tmax, best, Quantize(tmin), Quantize(tmax))
  {
    WindowOf(tmin, tmax);
    assert SweepFrom(pips, maths, tmin, tmax, best) == SweepWindow(pips, maths, tmin, tmax, best);
  }

  /** pip.Notes.Average(n => n.Start), or the pip's own time when it holds
      no note. */
  function RelativeTime(p: Pip): real
  {
    if |p.notes| > 0 then TotalStart(p.notes) as real / |p.notes| as real
    else (p.index * PipTime) as real
  }

  function TotalStart(notes: seq<NoteWrapper>): int
  {
    if notes == [] then 0 else TotalStart(notes[..|notes| - 1]) + notes[|notes| - 1].start
  }

  /** The times of the beats among pips 1 .. k-1, in order. */
  function BeatTimes(pips: seq<Pip>, k: int): (r: seq<real>)
    requires k <= |pips|
    ensures |r| <= if k <= 1 then 0 else k - 1
  {
    if k <= 1 then []
    else BeatTimes(pips, k - 1) + if pips[k - 1].isBeat then [RelativeTime(pips[k - 1])] else []
  }

  function LastOr(ts: seq<real>): real
  {
    if ts == [] then 0.0 else ts[|ts| - 1]
  }

  /** The gap from each beat to the one before it, the first from 0. */
  function Deltas(ts: seq<real>): (r: seq<real>)
    ensures |r| == |ts|
  {
    if ts == [] then [] else Deltas(ts[..|ts| - 1]) + [ts[|ts| - 1] - LastOr(ts[..|ts| - 1])]
  }

  /** One more beat adds one gap, from the last beat to it. */
  lemma {:induction false} DeltasSnoc(ts: seq<real>, t: real)
    ensures Deltas(ts + [t]) == Deltas(ts) + [t - LastOr(ts)] && LastOr(ts + [t]) == t
  {
    assert (ts + [t])[..|ts|] == ts;
  }

  function RealSum(s: seq<real>): real
  {
    if s == [] then 0.0 else RealSum(s[..|s| - 1]) + s[|s| - 1]
  }

  /** Each gap sequence is the prefix of the gaps of a longer one. */
  lemma {:induction false} DeltasPrefix(ts: seq<real>, j: int)
    requires 0 <= j <= |ts|
    ensures Deltas(ts[..j]) == Deltas(ts)[..j]
    decreases |ts|
  {
    if j < |ts| {
      var n := |ts| - 1;
      assert ts[..n][..j] == ts[..j];
      DeltasPrefix(ts[..n], j);
    } else {
      assert ts[..j] == ts;
    }
  }

  /** The gaps add up to the last time. */
  lemma {:induction false} DeltasTelescope(ts: seq<real>)
    ensures RealSum(Deltas(ts)) == LastOr(ts)
    decreases |ts|
  {
    if ts != [] {
      var n := |ts| - 1;
      DeltasTelescope(ts[..n]);
      assert Deltas(ts)[..n] == Deltas(ts[..n]);
    }
  }

  /** The running sums of Compute's gaps give back the beat times. */
  lemma {:induction false} BeatTimesRecovered(ts: seq<real>, j: int)
    requires 0 <= j < |ts|
    ensures RealSum(Deltas(ts)[..j + 1]) == ts[j]
  {
    DeltasPrefix(ts, j + 1);
    DeltasTelescope(ts[..j + 1]);
  }

  /** Compute(): the sweep from [400, 720] ms by steps of 1.1 while the
      window ends by 1200 ms, the best window scored again and labelled,
      and the gaps between the beats after the first pip. */
  function Computed(pips: seq<Pip>, maths: Maths): (r: Result<seq<real>>)
    requires Table(pips)
    ensures pips == [] ==> r == Fail(GeneralError)
  {
    var start := Choice(MinValue, 0, 0);
    SweepFromChoice(pips, maths, TactusMin, TactusMin * TactusWidth, start);
    match SweepFrom(pips, maths, TactusMin, TactusMin * TactusWidth, start)
    case Fail(f) => Fail(f)
    case Ok(swept) =>
      var best := swept.1;
      assert best != start;
      var scored := Scored(swept.0, maths, best.min, best.max);
      match Evaluate(scored, best.min, best.max)
      case Fail(f) => Fail(f)
      case Ok(found) =>
        match Labelled(scored, found.index, found.length)
        case Fail(f) => Fail(f)
        case Ok(labelled) => Ok(Deltas(BeatTimes(labelled, |labelled|)))
  }

  /** `r` is `pips` with at most the state of (index, length) changed. */
  predicate OnlyStateAt(pips: seq<Pip>, r: seq<Pip>, index: int, length: int)
    requires Table(pips) && 0 <= index < |pips| && InTable(length)
  {
    |r| == |pips| && Table(r) &&
    (forall k :: 0 <= k < |pips| && k != index ==> r[k] == pips[k]) &&
    r[index] == SetState(pips[index], length, GetState(r[index], length))
  }

  lemma {:induction false} SetStateSame(p: Pip, length: int)
    requires Shaped(p) && InTable(length)
    ensures SetState(p, length, GetState(p, length)) == p
  {
    assert p.states[Slot(length) := p.states[Slot(length)]] == p.states;
  }

  lemma {:induction false} SetStateTwice(p: Pip, length: int, a: State, b: State)
    requires Shaped(p) && InTable(length)
    ensures SetState(SetState(p, length, a), length, b) == SetState(p, length, b)
  {
    assert p.states[Slot(length) := a][Slot(length) := b] == p.states[Slot(length) := b];
  }

  /** A candidate reads the base scores and the rows before its pip, never
      the states of its own pip. */
  lemma {:induction false} CandidateFrame(pips: seq<Pip>, r: seq<Pip>, maths: Maths, index: int, length: int, prevLength: int)
    requires Table(pips) && 0 <= index - length && index < |pips| && InTable(length) && InTable(prevLength)
    requires OnlyStateAt(pips, r, index, length)
    ensures Candidate(r, maths, index, length, prevLength) == Candidate(pips, maths, index, length, prevLength)
  {
    assert r[index].baseScore == pips[index].baseScore;
    assert r[index - length] == pips[index - length];
    assert Syncopation(r, index, length) == Syncopation(pips, index, length);
    assert GetBestScore(r[index - length], prevLength) == GetBestScore(pips[index - length], prevLength);
    if index - length - prevLength >= 0 {
      assert Deviation(r, maths, index, prevLength, length) == Deviation(pips, maths, index, prevLength, length);
    }
    assert Candidate(r, maths, index, length, prevLength).1 == Candidate(pips, maths, index, length, prevLength).1;
    assert Candidate(r, maths, index, length, prevLength).0 == Candidate(pips, maths, index, length, prevLength).0;
  }

  /** One pass of CalculateBestScore's loop on a table that differs from
      the starting one only in the state of (index, length). */
  lemma {:induction false} SweepStep(p0: seq<Pip>, before: seq<Pip>, maths: Maths, max: int, index: int, length: int, p: int, best: Entry)
    requires Table(p0) && 0 <= index - length && index < |p0| && InTable(length)
    requires InTable(p) && max <= MaxLength && p <= max
    requires OnlyStateAt(p0, before, index, length)
    ensures var c := Candidate(before, maths, index, length, p);
      var after := before[index := SetState(before[index], length, c.1)];
      OnlyStateAt(p0, after, index, length) &&
      Sweep(p0, maths, max, index, length, p, best, GetState(before[index], length)) ==
      Sweep(p0, maths, max, index, length, p + 1, if c.0 > best.score then Entry(c.0, p) else best, GetState(after[index], length))
  {
    var c := Candidate(before, maths, index, length, p);
    CandidateFrame(p0, before, maths, index, length, p);
    SetStateTwice(p0[index], length, GetState(before[index], length), c.1);
  }

  /** The metre detector's state: the pips and the current window. */
  class Tactus {
    var pips: seq<Pip>
    var minPip: int
    var maxPip: int
    const maths: Maths

    ghost predicate Valid()
      reads this
    {
      Table(pips)
    }

    /** new Tactus(midi) with the pips CreatePips builds. */
    constructor(pips: seq<Pip>, maths: Maths)
      requires Table(pips)
      ensures Valid() && this.pips == pips && this.maths == maths
    {
      this.pips := pips;
      this.maths := maths;
    }

    /** DeviationPenalty(pipIndex, prevOffset, offset): stores the
        automaton's new state for (pipIndex, offset) and returns the
        penalty. */
    method DeviationPenalty(pipIndex: int, prevOffset: int, offset: int) returns (penalty: real)
      requires Valid() && 0 <= pipIndex - offset && pipIndex < |pips| && InTable(offset) && InTable(prevOffset)
      modifies this
      ensures Valid() && minPip == old(minPip) && maxPip == old(maxPip)
      ensures var d := Deviation(old(pips), maths, pipIndex, prevOffset, offset);
        penalty == d.0 && pips == old(pips)[pipIndex := SetState(old(pips)[pipIndex], offset, d.1)]
    {
      var diff := Abs(offset - prevOffset) * PipTime;
      var r := Advance(pips[pipIndex], offset, GetState(pips[pipIndex - offset], prevOffset), diff);
      pips := pips[pipIndex := r.0];
      if !r.1 {
        return 0.0;
      }
      return BeatIntervalFactor * maths.sqrt(diff as real / 1000.0);
    }

    /** One pass of CalculateBestScore's loop for prevLength: the
        candidate's score, with the state it leaves stored. */
    method CandidateScore(index: int, length: int, prevLength: int) returns (score: real)
      requires Valid() && 0 <= index - length && index < |pips| && InTable(length) && InTable(prevLength)
      modifies this
      ensures Valid() && minPip == old(minPip) && maxPip == old(maxPip)
      ensures var c := Candidate(old(pips), maths, index, length, prevLength);
        score == c.0 && pips == old(pips)[index := SetState(old(pips)[index], length, c.1)]
    {
      var baseScore := pips[index].baseScore;
      var syncopationScore := pips[index - length / 2].baseScore / 4.0 +
                              pips[index - length / 3].baseScore / 12.0 +
                              pips[index - length * 2 / 3].baseScore / 12.0 +
                              pips[index - length / 4].baseScore / 16.0 +
                              pips[index - length * 3 / 4].baseScore / 16.0;
      score := GetBestScore(pips[index - length], prevLength).score;
      if index - length - prevLength < 0 {
        pips := pips[index := SetState(pips[index], length, Steady)];
        var lengthMultiple := maths.log2(((length + length) * PipTime) as real / 2.0 + 1.0);
        score := score + (syncopationScore + baseScore) * lengthMultiple;
      } else {
        var lengthMultiple := maths.log2(((length + prevLength) * PipTime) as real / 2.0 + 1.0);
        var penalty := DeviationPenalty(index, prevLength, length);
        score := score + ((syncopationScore + baseScore) * lengthMultiple - penalty);
      }
    }

    /** CalculateBestScore(index, length): the first best candidate over
        the window, or the pip's own score when no beat fits before it. */
    method CalculateBestScore(index: int, length: int) returns (best: Entry)
      requires Valid() && Window(minPip, maxPip) && 0 <= index < |pips| && InTable(length)
      modifies this
      ensures Valid() && minPip == old(minPip) && maxPip == old(maxPip)
      ensures var b := BestScore(old(pips), maths, minPip, maxPip, index, length);
        best == b.0 && pips == old(pips)[index := SetState(old(pips)[index], length, b.1)]
    {
      var baseScore := pips[index].baseScore;
      if index - length < 0 {
        SetStateSame(pips[index], length);
        return Entry(baseScore * DefaultScore(maths), -1);
      }
      var max := Entry(MinValue, -1);
      ghost var p0 := pips;
      ghost var target := Sweep(p0, maths, maxPip, index, length, minPip, max, GetState(p0[index], length));
      SetStateSame(p0[index], length);
      for prevLength := minPip to maxPip + 1
        invariant Valid() && minPip == old(minPip) && maxPip == old(maxPip)
        invariant OnlyStateAt(p0, pips, index, length)
        invariant Sweep(p0, maths, maxPip, index, length, prevLength, max, GetState(pips[index], length)) == target
      {
        ghost var before := pips;
        var score := CandidateScore(index, length, prevLength);
        SweepStep(p0, before, maths, maxPip, index, length, prevLength, max);
        if score > max.score {
          max := Entry(score, prevLength);
        }
      }
      return max;
    }

    /** The inner loop of ComputeTactusScores for pip i. */
    method ComputeRow(i: int)
      requires Valid() && Window(minPip, maxPip) && 0 <= i < |pips|
      modifies this
      ensures Valid() && minPip == old(minPip) && maxPip == old(maxPip)
      ensures pips == AfterRow(old(pips), maths, minPip, maxPip, i, maxPip + 1)
    {
      for length := minPip to maxPip + 1
        invariant Valid() && minPip == old(minPip) && maxPip == old(maxPip)
        invariant pips == AfterRow(old(pips), maths, minPip, maxPip, i, length)
      {
        var best := CalculateBestScore(i, length);
        pips := pips[i := SetBestScore(pips[i], length, best.score, best.prevLength)];
      }
    }

    /** ComputeTactusScores: the table entries of the window, pip by pip. */
    method ComputeTactusScores()
      requires Valid() && Window(minPip, maxPip)
      modifies this
      ensures Valid() && minPip == old(minPip) && maxPip == old(maxPip)
      ensures pips == Scored(old(pips), maths, minPip, maxPip)
    {
      for i := 0 to |pips|
        invariant Valid() && minPip == old(minPip) && maxPip == old(maxPip)
        invariant pips == AfterRows(old(pips), maths, minPip, maxPip, i)
      {
        ComputeRow(i);
      }
    }

    /** LabelBeats(index, length): walks back along the chain and marks its
        pips as beats. */
    method LabelBeats(index: int, length: int) returns (ok: bool)
      requires Valid() && index < |pips|
      modifies this
      ensures minPip == old(minPip) && maxPip == old(maxPip)
      ensures ok <==> Labelled(old(pips), index, length).Ok?
      ensures ok ==> Valid() && pips == Labelled(old(pips), index, length).value
    {
      var i, l := index, length;
      while i >= 0
        invariant Valid() && i < |pips| && minPip == old(minPip) && maxPip == old(maxPip)
        invariant Labelled(pips, i, l) == Labelled(old(pips), index, length)
        decreases i + 1
      {
        pips := pips[i := pips[i].(isBeat := true, bestOffset := l)];
        if !InTable(l) {
          return false;
        }
        var prevLength := GetBestScore(pips[i], l).prevLength;
        i := i - l;
        l := prevLength;
      }
      return true;
    }

    /** EvaluateSolution(computeBeats), with the chain labelled from the
        best entry's own length. */
    method EvaluateSolution(computeBeats: bool) returns (r: Result<real>)
      requires Valid() && Window(minPip, maxPip)
      modifies this
      ensures minPip == old(minPip) && maxPip == old(maxPip)
      ensures !computeBeats ==> pips == old(pips)
      ensures var e := Evaluate(old(pips), minPip, maxPip);
        if e.Fail? then r == Fail(e.failure)
        else if !computeBeats then r == Ok(e.value.score)
        else
          var l := Labelled(old(pips), e.value.index, e.value.length);
          if l.Fail? then r == Fail(l.failure) else r == Ok(e.value.score) && pips == l.value && Valid()
    {
      var best := Found(MinValue, -1, -1, -1);
      ghost var target := Evaluate(pips, minPip, maxPip);
      var i := |pips| - 1;
      while i >= |pips| - maxPip && i >= 0
        invariant i < |pips|
        invariant SearchFrom(pips, minPip, maxPip, i, best) == SearchFrom(pips, minPip, maxPip, |pips| - 1, Found(MinValue, -1, -1, -1))
        decreases i + 1
      {
        ghost var rowStart := best;
        for length := minPip to maxPip + 1
          invariant SearchRow(pips, maxPip, i, length, best) == SearchRow(pips, maxPip, i, minPip, rowStart)
        {
          var current := GetBestScore(pips[i], length);
          if current.score > best.score {
            best := Found(current.score, current.prevLength, length, i);
          }
        }
        i := i - 1;
      }
      if best.index == -1 {
        return Fail(GeneralError);
      }
      if computeBeats {
        var ok := LabelBeats(best.index, best.length);
        if !ok {
          return Fail(IndexOutOfRange);
        }
      }
      return Ok(best.score);
    }

    /** One window of Compute's sweep: the window set from [tmin, tmax],
        scored, and evaluated without labelling. */
    method ScoreWindow(tmin: real, tmax: real) returns (score: Result<real>)
      requires Valid() && TactusMin <= tmin && tmax == tmin * TactusWidth && tmax <= TactusMax
      modifies this
      ensures Valid() && Window(minPip, maxPip) && minPip == Quantize(tmin) && maxPip == Quantize(tmax)
      ensures pips == Scored(old(pips), maths, minPip, maxPip)
      ensures var e := Evaluate(pips, minPip, maxPip);
        (e.Fail? ==> score == Fail(e.failure)) && (e.Ok? ==> score == Ok(e.value.score))
    {
      WindowOf(tmin, tmax);
      minPip := Quantize(tmin);
      maxPip := Quantize(tmax);
      ComputeTactusScores();
      score := EvaluateSolution(false);
    }

    /** One turn of Compute's sweep loop: the window [tmin, tmax] scored,
        and the best choice kept or replaced by it. */
    method SweepOnce(tmin: real, tmax: real, best: Choice) returns (r: Result<Choice>)
      requires Valid() && TactusMin <= tmin && tmax == tmin * TactusWidth && tmax <= TactusMax
      modifies this
      ensures Valid()
      ensures r.Fail? ==> SweepFrom(old(pips), maths, tmin, tmax, best) == Fail(r.failure)
      ensures r.Ok? ==> SweepFrom(old(pips), maths, tmin, tmax, best) ==
                        SweepFrom(pips, maths, tmin * TactusStep, tmax * TactusStep, r.value)
    {
      SweepFromStep(pips, maths, tmin, tmax, best);
      var score := ScoreWindow(tmin, tmax);
      if score.Fail? {
        return Fail(score.failure);
      }
      if score.value > best.value {
        return Ok(Choice(score.value, minPip, maxPip));
      }
      return Ok(best);
    }

    /** The sweep of Compute: windows from [400, 720] ms, both ends grown
        by 1.1 while the upper one stays within 1200 ms; the strictly best
        window is kept. */
    method SweepWindows() returns (r: Result<Choice>)
      requires Valid()
      modifies this
      ensures var s := SweepFrom(old(pips), maths, TactusMin, TactusMin * TactusWidth, Choice(MinValue, 0, 0));
        (s.Fail? ==> r == Fail(s.failure)) && (s.Ok? ==> r == Ok(s.value.1) && pips == s.value.0 && Valid())
    {
      var tmin := TactusMin;
      var best := Choice(MinValue, 0, 0);
      var tmax := TactusMin * TactusWidth;
      ghost var spec := SweepFrom(pips, maths, tmin, tmax, best);
      while tmax <= TactusMax
        invariant Valid() && TactusMin <= tmin && tmax == tmin * TactusWidth
        invariant SweepFrom(pips, maths, tmin, tmax, best) == spec
        decreases Trunc(TactusMax - tmax) + 1
      {
        var next := SweepOnce(tmin, tmax, best);
        if next.Fail? {
          return Fail(next.failure);
        }
        best := next.value;
        NextWindow(tmin, tmax);
        tmax := tmax * TactusStep;
        tmin := tmin * TactusStep;
      }
      return Ok(best);
    }

    /** Compute(): the sweep over the tempo range, the best window scored
        again and labelled, and the gaps between consecutive beats. */
    method Compute() returns (r: Result<seq<real>>)
      requires Valid()
      modifies this
      ensures r == Computed(old(pips), maths)
    {
      SweepFromChoice(pips, maths, TactusMin, TactusMin * TactusWidth, Choice(MinValue, 0, 0));
      var swept := SweepWindows();
      if swept.Fail? {
        return Fail(swept.failure);
      }
      var best := swept.value;
      minPip := best.min;
      maxPip := best.max;
      ComputeTactusScores();
      var evaluated := EvaluateSolution(true);
      if evaluated.Fail? {
        return Fail(evaluated.failure);
      }
      var deltas := BeatGaps();
      r := Ok(deltas);
    }

    /** The loop over the pips after the first: the gap from each beat to
        the previous one. */
    method BeatGaps() returns (deltas: seq<real>)
      requires |pips| >= 1
      ensures deltas == Deltas(BeatTimes(pips, |pips|))
    {
      var lastTime := 0.0;
      deltas := [];
      for k := 1 to |pips|
        invariant deltas == Deltas(BeatTimes(pips, k)) && lastTime == LastOr(BeatTimes(pips, k))
      {
        if pips[k].isBeat {
          var relativePipTime := RelativeTime(pips[k]);
          DeltasSnoc(BeatTimes(pips, k), relativePipTime);
          assert BeatTimes(pips, k + 1) == BeatTimes(pips, k) + [relativePipTime];
          deltas := deltas + [relativePipTime - lastTime];
          lastTime := relativePipTime;
        } else {
          assert BeatTimes(pips, k + 1) == BeatTimes(pips, k);
        }
      }
    }
  }
}
