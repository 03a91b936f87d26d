/** ChordSegment.cs: one beat of the chord detection. Its base score for
    each of the 24 chords weighs the notes of the beat, of its half bar and
    of its bar against the chord, and penalises chords far from the key; the
    dynamic programme then adds the best way to reach each chord from the
    previous beat. */
module ChordSegments {
  import opened MathExt
  import opened Keys
  import opened SegmentNotes

  /** NOTES_IN_LEVEL_0, NOTES_IN_LEVEL_1, NOTES_IN_LEVEL_2: how much the
      notes of the bar, of the half bar and of the beat itself count. */
  const NotesInLevel0 := 1.5
  const NotesInLevel1 := 1.5
  const NotesInLevel2 := 1.8
  /** DIFF_FROM_KEY_MULTIPLE = 0.1/4 */
  const DiffFromKeyMultiple := 0.025
  /** CHORD_IN_SCALE_MULTIPLE = 0.15/4 */
  const ChordInScaleMultiple := 0.0375
  /** DIFF_FROM_PREVIOUS_CHORD = 0.175/1 */
  const DiffFromPreviousChord := 0.175
  /** DIFF_ON_WEAK_BEAT */
  const DiffOnWeakBeat := 0.7

  /** _differencePenalty, by distance on the line of fifths 0..6. */
  function DifferencePenalty(d: nat): (p: real)
    requires d <= 6
    ensures p >= 0.0 && (p == 0.0 <==> d == 0)
  {
    [0.0, 1.0, 1.5, 3.0, 4.0, 6.0, 8.0][d]
  }

  /** _majorScale and _minorScale: which of the twelve semitones above the
      tonic belong to the scale. */
  function InScale(scale: Scale, i: int): bool
    requires 0 <= i < 12
  {
    if scale == Major then [true, false, true, false, true, true, false, true, false, true, false, true][i]
    else [true, false, true, true, false, true, false, true, true, false, true, false][i]
  }

  /** A ChordSegment: its key, the beat it belongs to (onset, length and
      level), the dynamic programme's BestPrevious and Scores, BaseScores,
      the notes of the beat and of its pools, and _noteSum. */
  datatype Segment = Segment(
    key: Key,
    time: real,
    length: real,
    level: int,
    bestPrevious: seq<int>,
    scores: seq<real>,
    baseScores: seq<real>,
    level2: NotesInSegment,
    level1: NotesInSegment,
    level0: NotesInSegment,
    noteSum: real)

  /** The constructor: the beat's own notes start empty, the tables are all
      zero. The two pools are null until AddNotesToSegments sets them; the
      model puts empty ones there. */
  function NewSegment(key: Key, time: real, length: real, level: int, lowestPitch: byte): (s: Segment)
    ensures |s.bestPrevious| == 24 && |s.scores| == 24 && |s.baseScores| == 24
    ensures s.level2 == New(time, length, lowestPitch) && s.key == key && s.time == time && s.length == length && s.level == level
    ensures |s.level1.scores| == 24 && |s.level0.scores| == 24
  {
    Segment(key, time, length, level, seq(24, c => 0), seq(24, c => 0.0), seq(24, c => 0.0),
      New(time, length, lowestPitch), New(0.0, 0.0, lowestPitch), New(0.0, 0.0, lowestPitch), 0.0)
  }

  // ---------------------------------------------------------------------
  // Distance on the line of fifths

  /** A key's place on the line of fifths: a minor key sits with its
      relative major. */
  function Position(k: Key): (p: int)
    ensures 0 <= p < 15
  {
    k.tone + if k.scale == Minor then 3 else 0
  }

  /** DifferenceOnLineOfFifths. */
  function DifferenceOnLineOfFifths(a: Key, b: Key): (d: nat)
    ensures d <= 6
  {
    var diff := Abs(Position(a) - Position(b));
    var fifthDiff := (7 * diff) % 12;
    if fifthDiff < 12 - fifthDiff then fifthDiff else 12 - fifthDiff
  }

  lemma DifferenceSymmetric(a: Key, b: Key)
    ensures DifferenceOnLineOfFifths(a, b) == DifferenceOnLineOfFifths(b, a)
  {
    assert Abs(Position(a) - Position(b)) == Abs(Position(b) - Position(a));
  }

  /** The distance is the fewest fifths, up or down, that lead from one
      position to the other, semitones counted modulo the octave. */
  lemma FewestFifths(a: Key, b: Key)
    ensures var x := Position(a) - Position(b);
      var d := DifferenceOnLineOfFifths(a, b);
      ((x - 7 * d) % 12 == 0 || (x + 7 * d) % 12 == 0) &&
      forall s :: 0 <= s < d ==> (x - 7 * s) % 12 != 0 && (x + 7 * s) % 12 != 0
  {
    var x := Position(a) - Position(b);
    var diff: int := Abs(x);
    var d := DifferenceOnLineOfFifths(a, b);
    var q := (7 * diff) / 12;
    var f := (7 * diff) % 12;
    assert 7 * diff == 12 * q + f;
    assert diff - 7 * f == 12 * (7 * q - 4 * diff);
    if d == f {
      assert diff - 7 * d == 12 * (7 * q - 4 * diff);
      MultipleOf12(diff - 7 * d, 7 * q - 4 * diff);
    } else {
      assert diff + 7 * d == 12 * (7 * q - 4 * diff + 7);
      MultipleOf12(diff + 7 * d, 7 * q - 4 * diff + 7);
    }
    SignFree(x, diff, d);
    forall s | 0 <= s < d
      ensures (x - 7 * s) % 12 != 0 && (x + 7 * s) % 12 != 0
    {
      NotFewer(diff, s, q, f);
      SignFree(x, diff, s);
    }
  }

  lemma MultipleOf12(v: int, m: int)
    requires v == 12 * m
    ensures v % 12 == 0
  {
    DivModUnique(v, 12, m, 0);
  }

  /** x is diff or -diff, and a multiple of 12 stays one when negated. */
  lemma SignFree(x: int, diff: int, s: int)
    requires diff == Abs(x)
    ensures ((x - 7 * s) % 12 == 0 || (x + 7 * s) % 12 == 0) <==> ((diff - 7 * s) % 12 == 0 || (diff + 7 * s) % 12 == 0)
    ensures ((x - 7 * s) % 12 != 0 && (x + 7 * s) % 12 != 0) <==> ((diff - 7 * s) % 12 != 0 && (diff + 7 * s) % 12 != 0)
  {
    if x < 0 {
      NegatedMultiple(diff - 7 * s);
      NegatedMultiple(diff + 7 * s);
      assert x - 7 * s == -(diff + 7 * s);
      assert x + 7 * s == -(diff - 7 * s);
    }
  }

  lemma NegatedMultiple(v: int)
    ensures v % 12 == 0 <==> (-v) % 12 == 0
  {
    if v % 12 == 0 {
      MultipleOf12(-v, -(v / 12));
    }
    if (-v) % 12 == 0 {
      MultipleOf12(v, -((-v) / 12));
    }
  }

  /** No fewer fifths than the distance lead there: s fifths would make
      7 * diff congruent to s or to -s. */
  lemma NotFewer(diff: int, s: int, q: int, f: int)
    requires 0 <= diff && 0 <= s && 7 * diff == 12 * q + f && 0 <= f < 12
    requires s < (if f < 12 - f then f else 12 - f)
    ensures (diff - 7 * s) % 12 != 0 && (diff + 7 * s) % 12 != 0
  {
    if (diff - 7 * s) % 12 == 0 {
      var m := (diff - 7 * s) / 12;
      assert diff - 7 * s == 12 * m;
      assert 7 * diff == 12 * (4 * s + 7 * m) + s;
      DivModUnique(7 * diff, 12, 4 * s + 7 * m, s);
      DivModUnique(7 * diff, 12, q, f);
    }
    if (diff + 7 * s) % 12 == 0 {
      var m := (diff + 7 * s) / 12;
      assert diff + 7 * s == 12 * m;
      assert 7 * diff == 12 * (7 * m - 4 * s - 1) + (12 - s);
      DivModUnique(7 * diff, 12, 7 * m - 4 * s - 1, 12 - s);
      DivModUnique(7 * diff, 12, q, f);
    }
  }

  /** The distance is 0 exactly when the positions agree modulo the octave;
      so a major key and its relative minor are at distance 0. */
  lemma DifferenceZero(a: Key, b: Key)
    ensures DifferenceOnLineOfFifths(a, b) == 0 <==> (Position(a) - Position(b)) % 12 == 0
    ensures a.scale == Major && b.scale == Minor && (a.tone - b.tone) % 12 == 3 ==> DifferenceOnLineOfFifths(a, b) == 0
  {
    var x := Position(a) - Position(b);
    if a.scale == Major && b.scale == Minor && (a.tone - b.tone) % 12 == 3 {
      MultipleOf12(x, if a.tone >= b.tone then 0 else -1);
    }
    FewestFifths(a, b);
    NoFifths(x, DifferenceOnLineOfFifths(a, b));
  }

  /** Of the fewest fifths leading to x, there are none exactly when x is a
      multiple of 12. */
  lemma NoFifths(x: int, d: nat)
    requires (x - 7 * d) % 12 == 0 || (x + 7 * d) % 12 == 0
    requires forall s :: 0 <= s < d ==> (x - 7 * s) % 12 != 0 && (x + 7 * s) % 12 != 0
    ensures d == 0 <==> x % 12 == 0
  {
    if d > 0 {
      assert (x - 7 * 0) % 12 != 0;
    }
  }

  // ---------------------------------------------------------------------
  // Base scores

  /** How many of the chord's root, fifth and third lie in the key's scale. */
  function NotesInScale(key: Key, chord: Key): (n: nat)
    ensures n <= 3
  {
    var root := (chord.tone - key.tone + 12) % 12;
    var fifth := (chord.tone - key.tone + 7 + 12) % 12;
    var third := (chord.tone - key.tone + (if chord.scale == Major then 4 else 3) + 12) % 12;
    (if InScale(key.scale, root) then 1 else 0) +
    (if InScale(key.scale, fifth) then 1 else 0) +
    (if InScale(key.scale, third) then 1 else 0)
  }

  /** Math.Pow(2, 3 - notesInScale) for notesInScale in 0..3. */
  function ScalePenaltyFactor(n: nat): (f: real)
    requires n <= 3
  {
    if n == 0 then 8.0 else if n == 1 then 4.0 else if n == 2 then 2.0 else 1.0
  }

  /** The in-scale penalty halves with each chord note in the scale. */
  lemma ScalePenaltyHalves(n: nat)
    requires n < 3
    ensures ScalePenaltyFactor(n) == 2.0 * ScalePenaltyFactor(n + 1)
    ensures ScalePenaltyFactor(3) == 1.0
  {
  }

  /** _noteSum: how much sounds in the beat, its half bar and its bar. */
  function NoteSum(l2: NotesInSegment, l1: NotesInSegment, l0: NotesInSegment): real
  {
    NotesInLevel2 * l2.totalNoteWeight + NotesInLevel1 * l1.totalNoteWeight + NotesInLevel0 * l0.totalNoteWeight
  }

  /** The two penalties of BaseScore: distance from the key and chord notes
      outside its scale, both in proportion to the note sum. */
  function KeyPenalty(key: Key, chord: Key, noteSum: real): real
  {
    Penalties(DifferencePenalty(DifferenceOnLineOfFifths(chord, key)), ScalePenaltyFactor(NotesInScale(key, chord)), noteSum)
  }

  /** The two penalties for a difference penalty and an in-scale factor. */
  function Penalties(difference: real, factor: real, noteSum: real): real
  {
    -DiffFromKeyMultiple * difference * noteSum + -ChordInScaleMultiple * factor * noteSum
  }

  /** BaseScore. */
  function BaseScore(key: Key, l2: NotesInSegment, l1: NotesInSegment, l0: NotesInSegment, noteSum: real, chord: Key): real
    requires |l2.scores| == 24 && |l1.scores| == 24 && |l0.scores| == 24
  {
    NotesInLevel0 * GetScore(l0, chord) + NotesInLevel1 * GetScore(l1, chord) + NotesInLevel2 * GetScore(l2, chord) +
    KeyPenalty(key, chord, noteSum)
  }

  /** The key's own triad is penalised least: no distance, all three notes
      in the scale; no chord is penalised less. */
  lemma KeyChordPenalisedLeast(key: Key, chord: Key, noteSum: real)
    requires noteSum >= 0.0
    ensures KeyPenalty(key, key, noteSum) == -ChordInScaleMultiple * noteSum
    ensures KeyPenalty(key, chord, noteSum) <= KeyPenalty(key, key, noteSum)
  {
    OwnTriadInScale(key);
    assert DifferenceOnLineOfFifths(key, key) == 0;
    var n := NotesInScale(key, chord);
    var f := ScalePenaltyFactor(n);
    var p := DifferencePenalty(DifferenceOnLineOfFifths(chord, key));
    assert f >= 1.0;
    PenaltyOrder(p, f, noteSum);
  }

  lemma PenaltyOrder(p: real, f: real, noteSum: real)
    requires p >= 0.0 && f >= 1.0 && noteSum >= 0.0
    ensures Penalties(p, f, noteSum) <= Penalties(0.0, 1.0, noteSum) == -ChordInScaleMultiple * noteSum
  {
    assert p * noteSum >= 0.0;
    assert f * noteSum >= noteSum;
  }

  /** Root, third and fifth of the key's own triad are in its scale. */
  lemma OwnTriadInScale(key: Key)
    ensures NotesInScale(key, key) == 3
  {
    assert (key.tone - key.tone + 12) % 12 == 0;
    assert (key.tone - key.tone + 7 + 12) % 12 == 7;
    if key.scale == Major {
      assert (key.tone - key.tone + 4 + 12) % 12 == 4;
    } else {
      assert (key.tone - key.tone + 3 + 12) % 12 == 3;
    }
  }

  /** CalculateBaseScores as a function. */
  function BaseScored(s: Segment): (r: Segment)
    requires |s.level2.scores| == 24 && |s.level1.scores| == 24 && |s.level0.scores| == 24
    ensures |r.baseScores| == 24
  {
    var l2 := Scored(s.level2, true);
    var noteSum := NoteSum(l2, s.level1, s.level0);
    s.(level2 := l2, noteSum := noteSum,
       baseScores := seq(24, c requires 0 <= c < 24 => BaseScore(s.key, l2, s.level1, s.level0, noteSum, KeyOfIndex(c))))
  }

  /** CalculateBaseScores: the beat's own notes scored with the on-beat
      bonus, the note sum, then the base score of every chord. */
  method CalculateBaseScores(s: Segment) returns (r: Segment)
    requires |s.level2.scores| == 24 && |s.level1.scores| == 24 && |s.level0.scores| == 24
    ensures r == BaseScored(s)
  {
    var l2 := ComputeScores(s.level2, true);
    var noteSum := NoteSum(l2, s.level1, s.level0);
    var base := s.baseScores;
    if |base| != 24 {
      base := seq(24, c => 0.0);
    }
    for c := 0 to 24
      invariant |base| == 24
      invariant forall j :: 0 <= j < c ==> base[j] == BaseScore(s.key, l2, s.level1, s.level0, noteSum, KeyOfIndex(j))
    {
      base := base[c := BaseScore(s.key, l2, s.level1, s.level0, noteSum, KeyOfIndex(c))];
    }
    r := s.(level2 := l2, noteSum := noteSum, baseScores := base);
  }

  // ---------------------------------------------------------------------
  // Connecting to the previous segment

  /** The distance used between consecutive chords: 0 on the line of fifths
      but a change of mode counts as 2. */
  function ChordDistance(chord: Key, previous: Key): (d: nat)
    ensures d <= 6
  {
    var d := DifferenceOnLineOfFifths(chord, previous);
    if d == 0 && chord.scale != previous.scale then 2 else d
  }

  /** The penalty for moving from `previous` to `chord` on a beat of this
      level. */
  function Transition(chord: Key, previous: Key, noteSum: real, level: int): real
  {
    OnBeatLevel(DifferenceScore(chord, previous, noteSum), level)
  }

  /** The difference score before the level is taken into account. */
  function DifferenceScore(chord: Key, previous: Key, noteSum: real): real
  {
    -DiffFromPreviousChord * DifferencePenalty(ChordDistance(chord, previous)) * noteSum
  }

  /** The difference score made heavier on weaker beats. */
  function OnBeatLevel(differenceScore: real, level: int): real
  {
    differenceScore + DiffOnWeakBeat * differenceScore * level as real * level as real
  }

  /** The penalty is the base one scaled by 1 + 0.7 level²: free when the
      chord stays, heavier on weaker beats; a change of mode between
      relative keys costs as much as two fifths. */
  lemma TransitionScaled(chord: Key, previous: Key, noteSum: real, level: int)
    ensures Transition(chord, previous, noteSum, level) ==
      -DiffFromPreviousChord * DifferencePenalty(ChordDistance(chord, previous)) * noteSum * (1.0 + DiffOnWeakBeat * (level * level) as real)
    ensures chord == previous ==> Transition(chord, previous, noteSum, level) == 0.0
    ensures DifferenceOnLineOfFifths(chord, previous) == 0 && chord.scale != previous.scale ==>
      ChordDistance(chord, previous) == 2
  {
    TransitionProduct(chord, previous, noteSum, level);
    if chord == previous {
      SameKey(chord);
      NoPenalty(DifferencePenalty(ChordDistance(chord, previous)), noteSum, DifferenceScore(chord, previous, noteSum), level);
    }
  }

  lemma TransitionProduct(chord: Key, previous: Key, noteSum: real, level: int)
    ensures Transition(chord, previous, noteSum, level) ==
      -DiffFromPreviousChord * DifferencePenalty(ChordDistance(chord, previous)) * noteSum * (1.0 + DiffOnWeakBeat * (level * level) as real)
  {
    ScaledPenalty(DifferenceScore(chord, previous, noteSum), level);
  }

  lemma ScaledPenalty(ds: real, level: int)
    ensures OnBeatLevel(ds, level) == ds * (1.0 + DiffOnWeakBeat * (level * level) as real)
  {
  }

  lemma SameKey(k: Key)
    ensures ChordDistance(k, k) == 0
  {
    assert Abs(Position(k) - Position(k)) == 0;
  }

  lemma NoPenalty(p: real, noteSum: real, ds: real, level: int)
    requires p == 0.0 && ds == -DiffFromPreviousChord * p * noteSum
    ensures OnBeatLevel(ds, level) == 0.0
  {
  }

  /** Reaching chord c through previous chord p. */
  function Candidate(prevScores: seq<real>, s: Segment, c: nat, p: nat): real
    requires |prevScores| == 24 && |s.baseScores| == 24 && c < 24 && p < 24
  {
    prevScores[p] + s.baseScores[c] + Transition(KeyOfIndex(c), KeyOfIndex(p), s.noteSum, s.level)
  }

  function Candidates(prevScores: seq<real>, s: Segment, c: nat): (r: seq<real>)
    requires |prevScores| == 24 && |s.baseScores| == 24 && c < 24
    ensures |r| == 24
  {
    seq(24, p requires 0 <= p < 24 => Candidate(prevScores, s, c, p))
  }

  /** The inner loop over the first n previous chords, from (0,
      double.MinValue), replaced only by a strictly greater score. */
  function BestOf(cands: seq<real>, n: nat): (r: (nat, real))
    requires n <= |cands|
    ensures r.0 < 24 || r.0 < n || r.0 == 0
  {
    if n == 0 then (0, MinValue)
    else
      var b := BestOf(cands, n - 1);
      if b.1 < cands[n - 1] then (n - 1, cands[n - 1]) else b
  }

  /** BestOf is the first maximum of the candidates, or (0,
      double.MinValue) when none exceeds double.MinValue. */
  lemma {:induction false} BestOfIsFirstMax(cands: seq<real>, n: nat)
    requires n <= |cands|
    ensures var b := BestOf(cands, n);
      b.1 >= MinValue && (b.0 < n || b.0 == 0) &&
      (forall j :: 0 <= j < n ==> cands[j] <= b.1) &&
      ((exists j :: 0 <= j < n && cands[j] > MinValue) ==>
        b.0 < n && b.1 == cands[b.0] && forall j :: 0 <= j < b.0 ==> cands[j] < b.1) &&
      ((forall j :: 0 <= j < n ==> cands[j] <= MinValue) ==> b == (0, MinValue))
  {
    if n > 0 {
      BestOfIsFirstMax(cands, n - 1);
    }
  }

  /** ConnectToPreviousSegment as a function. */
  function Connected(s: Segment, prevScores: seq<real>): (r: Segment)
    requires |prevScores| == 24 && |s.baseScores| == 24
    ensures |r.scores| == 24 && |r.bestPrevious| == 24
    ensures forall c :: 0 <= c < 24 ==> 0 <= r.bestPrevious[c] < 24
    ensures r == s.(scores := r.scores, bestPrevious := r.bestPrevious)
  {
    s.(scores := seq(24, c requires 0 <= c < 24 => BestOf(Candidates(prevScores, s, c), 24).1),
       bestPrevious := seq(24, c requires 0 <= c < 24 => BestOf(Candidates(prevScores, s, c), 24).0))
  }

  /** ConnectToPreviousSegment: for each chord the best previous chord and
      the score through it. */
  method ConnectToPreviousSegment(s: Segment, prevScores: seq<real>) returns (r: Segment)
    requires |prevScores| == 24 && |s.baseScores| == 24
    ensures r == Connected(s, prevScores)
  {
    var scores: seq<real> := seq(24, c => 0.0);
    var best: seq<int> := seq(24, c => 0);
    for c := 0 to 24
      invariant |scores| == 24 && |best| == 24
      invariant forall j :: 0 <= j < c ==> scores[j] == BestOf(Candidates(prevScores, s, j), 24).1
      invariant forall j :: 0 <= j < c ==> best[j] == BestOf(Candidates(prevScores, s, j), 24).0
    {
      var b := BestPreviousChord(s, prevScores, c);
      scores := scores[c := b.1];
      best := best[c := b.0];
    }
    r := s.(scores := scores, bestPrevious := best);
  }

  /** The loop over the previous chords for chord c. */
  method BestPreviousChord(s: Segment, prevScores: seq<real>, c: nat) returns (best: (nat, real))
    requires |prevScores| == 24 && |s.baseScores| == 24 && c < 24
    ensures best == BestOf(Candidates(prevScores, s, c), 24)
  {
    var chord := KeyOfIndex(c);
    ghost var cands := Candidates(prevScores, s, c);
    best := (0, MinValue);
    for p := 0 to 24
      invariant best == BestOf(cands, p)
    {
      var previous := KeyOfIndex(p);
      var differenceScore := DifferenceScore(chord, previous, s.noteSum);
      differenceScore := OnBeatLevel(differenceScore, s.level);
      var score := prevScores[p] + s.baseScores[c] + differenceScore;
      assert cands[p] == Candidate(prevScores, s, c, p);
      assert score == cands[p];
      ghost var before := best;
      if best.1 < score {
        best := (p, score);
      }
      FoldStep(cands, p + 1, before, best);
    }
  }

  lemma FoldStep(cands: seq<real>, n: nat, before: (nat, real), after: (nat, real))
    requires 0 < n <= |cands| && before == BestOf(cands, n - 1)
    requires after == if before.1 < cands[n - 1] then (n - 1, cands[n - 1]) else before
    ensures after == BestOf(cands, n)
  {
  }

  /** Each chord's score is reached through its best previous chord, which
      is the first previous chord reaching the highest score; nothing scores
      below double.MinValue. */
  lemma ConnectedIsBest(s: Segment, prevScores: seq<real>, c: nat)
    requires |prevScores| == 24 && |s.baseScores| == 24 && c < 24
    ensures var r := Connected(s, prevScores);
      var p := r.bestPrevious[c];
      0 <= p < 24 && r.scores[c] >= MinValue &&
      (forall q :: 0 <= q < 24 ==> Candidate(prevScores, s, c, q) <= r.scores[c]) &&
      (r.scores[c] > MinValue ==>
        r.scores[c] == Candidate(prevScores, s, c, p) &&
        forall q :: 0 <= q < p ==> Candidate(prevScores, s, c, q) < r.scores[c])
  {
    var cands := Candidates(prevScores, s, c);
    var r := Connected(s, prevScores);
    assert r.scores[c] == BestOf(cands, 24).1;
    assert r.bestPrevious[c] == BestOf(cands, 24).0;
    BestOfIsFirstMax(cands, 24);
    forall q | 0 <= q < 24
      ensures Candidate(prevScores, s, c, q) == cands[q]
    {
    }
  }
}
