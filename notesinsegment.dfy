/** NotesInSegment.cs: the notes sounding in a stretch of the piece (one
    beat, or a pool of beats), each weighted by how long and how loud it
    sounds there, and a score for each of the 24 chords. */
module SegmentNotes {
  import opened MathExt
  import opened Keys
  import BigEndian

  type byte = BigEndian.byte

  /** A NoteOn as the chord detector reads it. `id` stands for the object's
      identity: two entries with the same id are the same note. */
  datatype Note = Note(id: nat, time: real, end: real, pitch: byte, realVolume: real)

  /** _start and _length in milliseconds, _lowestPitch, the (note, weight)
      list, the 24 chord scores and TotalNoteWeight. */
  datatype NotesInSegment = NotesInSegment(
    start: real,
    length: real,
    lowestPitch: byte,
    notes: seq<(Note, real)>,
    scores: seq<real>,
    totalNoteWeight: real)

  /** START_ON_BEAT_MULTIPLE */
  const StartOnBeatMultiple := 2.0
  /** BASE_NOTE_SUM */
  const BaseNoteSum := 0.2
  /** A note starts on the beat when its onset is less than this many
      milliseconds from the segment's start. */
  const OnBeatTolerance := 20.0

  /** The score of each interval above the root of a major and of a minor chord. */
  const MajorIntervalScores: seq<real> := [1.0, -0.4, 0.1, -1.4, 0.7, 0.1, 0.2, 0.8, -0.3, 0.0, 0.4, 0.2]
  const MinorIntervalScores: seq<real> := [1.0, -0.2, 0.0, 0.7, -1.2, 0.1, 0.2, 0.6, 0.0, -0.2, 0.4, -0.2]

  function IntervalScores(scale: Scale): (table: seq<real>)
    ensures |table| == 12
  {
    if scale == Major then MajorIntervalScores else MinorIntervalScores
  }

  /** The constructor: no notes, every score 0, TotalNoteWeight 0. */
  function New(start: real, length: real, lowestPitch: byte): (s: NotesInSegment)
    ensures s.notes == [] && s.totalNoteWeight == 0.0
    ensures |s.scores| == 24 && forall c :: 0 <= c < 24 ==> s.scores[c] == 0.0
  {
    NotesInSegment(start, length, lowestPitch, [], seq(24, c => 0.0), 0.0)
  }

  /** AddNote: the note joins with weight 0. */
  function AddNote(s: NotesInSegment, n: Note): (r: NotesInSegment)
    ensures r.notes == s.notes + [(n, 0.0)] && r == s.(notes := r.notes)
  {
    s.(notes := s.notes + [(n, 0.0)])
  }

  function NotesOf(ps: seq<(Note, real)>): (r: seq<Note>)
    ensures |r| == |ps| && forall k :: 0 <= k < |ps| ==> r[k] == ps[k].0
  {
    seq(|ps|, k requires 0 <= k < |ps| => ps[k].0)
  }

  function WeightsOf(ps: seq<(Note, real)>): (r: seq<real>)
    ensures |r| == |ps| && forall k :: 0 <= k < |ps| ==> r[k] == ps[k].1
  {
    seq(|ps|, k requires 0 <= k < |ps| => ps[k].1)
  }

  /** Each note once, where it first occurs. */
  function Distinct(xs: seq<Note>): (r: seq<Note>)
  {
    if xs == [] then []
    else
      var d := Distinct(xs[..|xs| - 1]);
      if xs[|xs| - 1] in d then d else d + [xs[|xs| - 1]]
  }

  predicate NoDuplicates(xs: seq<Note>)
  {
    forall i, j :: 0 <= i < j < |xs| ==> xs[i] != xs[j]
  }

  /** Distinct keeps every note and repeats none. */
  lemma {:induction false} DistinctProperties(xs: seq<Note>)
    ensures (set n | n in Distinct(xs)) == (set n | n in xs)
    ensures NoDuplicates(Distinct(xs))
  {
    if xs != [] {
      var init := xs[..|xs| - 1];
      var last := xs[|xs| - 1];
      DistinctProperties(init);
      assert xs == init + [last];
      assert (set n | n in xs) == (set n | n in init) + {last};
      if last !in Distinct(init) {
        assert (set n | n in Distinct(init) + [last]) == (set n | n in Distinct(init)) + {last};
      }
    }
  }

  /** A list without repeats is its own Distinct. */
  lemma {:induction false} DistinctOfDistinct(xs: seq<Note>)
    requires NoDuplicates(xs)
    ensures Distinct(xs) == xs
  {
    if xs != [] {
      var init := xs[..|xs| - 1];
      DistinctOfDistinct(init);
      assert xs[|xs| - 1] !in init;
    }
  }

  /** Join: the earlier start, the lengths added, the union of the notes
      (each once) with their weights reset. */
  function Join(s: NotesInSegment, other: NotesInSegment): (r: NotesInSegment)
  {
    var union := Distinct(NotesOf(s.notes) + NotesOf(other.notes));
    s.(start := if other.start < s.start then other.start else s.start,
       length := s.length + other.length,
       notes := seq(|union|, k requires 0 <= k < |union| => (union[k], 0.0)))
  }

  /** The joined segment starts at the earlier start, is as long as both
      together, and holds each note of either exactly once, at weight 0. */
  lemma JoinShape(s: NotesInSegment, other: NotesInSegment)
    ensures var r := Join(s, other);
      r.start == (if other.start < s.start then other.start else s.start) &&
      r.start <= s.start && r.start <= other.start &&
      r.length == s.length + other.length &&
      (set n | n in NotesOf(r.notes)) == (set n | n in NotesOf(s.notes)) + (set n | n in NotesOf(other.notes)) &&
      NoDuplicates(NotesOf(r.notes)) &&
      (forall k :: 0 <= k < |r.notes| ==> r.notes[k].1 == 0.0) &&
      r.scores == s.scores && r.totalNoteWeight == s.totalNoteWeight && r.lowestPitch == s.lowestPitch
  {
    var all := NotesOf(s.notes) + NotesOf(other.notes);
    DistinctProperties(all);
    assert NotesOf(Join(s, other).notes) == Distinct(all);
  }

  /** How long the note sounds within the segment. */
  function Overlap(s: NotesInSegment, n: Note): real
  {
    (if s.start + s.length < n.end then s.start + s.length else n.end) -
    (if n.time > s.start then n.time else s.start)
  }

  /** RealVolume times the share of the segment the note covers, divided by
      one more than the whole octaves it lies above the lowest pitch. A zero
      divisor gives the double an infinity or NaN; the model gives such a
      note weight 0. */
  function NoteWeight(s: NotesInSegment, n: Note): real
  {
    var octaves := TruncDiv(n.pitch - s.lowestPitch, 12) + 1;
    if s.length == 0.0 || octaves == 0 then 0.0
    else PerOctave(n.realVolume, Overlap(s, n) / s.length, octaves)
  }

  /** The volume's share, divided among the octaves. */
  function PerOctave(volume: real, share: real, octaves: int): real
    requires octaves != 0
  {
    volume * share * 1.0 / octaves as real
  }

  /** A note lying within the segment counts at most its RealVolume, half as
      much an octave higher, a third two octaves higher, and so on. */
  lemma NoteWeightBounds(s: NotesInSegment, n: Note)
    requires s.length > 0.0 && n.pitch >= s.lowestPitch && n.realVolume >= 0.0
    requires 0.0 <= Overlap(s, n) <= s.length
    ensures 0.0 <= NoteWeight(s, n) <= n.realVolume
    ensures NoteWeight(s, n) * ((n.pitch - s.lowestPitch) / 12 + 1) as real == n.realVolume * (Overlap(s, n) / s.length)
  {
    var share := Overlap(s, n) / s.length;
    var octaves := (n.pitch - s.lowestPitch) / 12 + 1;
    assert octaves == TruncDiv(n.pitch - s.lowestPitch, 12) + 1;
    Share(Overlap(s, n), s.length, share);
    assert NoteWeight(s, n) == PerOctave(n.realVolume, share, octaves);
    WeightBounds(n.realVolume, share, octaves);
  }

  lemma WeightBounds(volume: real, share: real, octaves: int)
    requires volume >= 0.0 && 0.0 <= share <= 1.0 && octaves >= 1
    ensures 0.0 <= PerOctave(volume, share, octaves) <= volume
    ensures PerOctave(volume, share, octaves) * octaves as real == volume * share
  {
    Scaled(volume, share);
    WeightPart(volume * share, octaves);
  }

  lemma Share(part: real, whole: real, share: real)
    requires whole > 0.0 && 0.0 <= part <= whole && share == part / whole
    ensures 0.0 <= share <= 1.0
  {
  }

  lemma Scaled(v: real, share: real)
    requires v >= 0.0 && 0.0 <= share <= 1.0
    ensures 0.0 <= v * share <= v
  {
  }

  lemma WeightPart(v: real, octaves: int)
    requires v >= 0.0 && octaves >= 1
    ensures 0.0 <= v * 1.0 / octaves as real <= v
    ensures v * 1.0 / octaves as real * octaves as real == v
  {
  }

  /** ComputeWeights' new list: every note with its weight. */
  function Weighted(s: NotesInSegment): (r: seq<(Note, real)>)
    ensures |r| == |s.notes|
    ensures forall k :: 0 <= k < |r| ==> r[k] == (s.notes[k].0, NoteWeight(s, s.notes[k].0))
  {
    seq(|s.notes|, k requires 0 <= k < |s.notes| => (s.notes[k].0, NoteWeight(s, s.notes[k].0)))
  }

  /** The interval of the note above the chord's root, as an index 0..11. */
  function IntervalIndex(pitch: byte, tone: Tone): (i: int)
    ensures 0 <= i < 12 && (i - (pitch - tone)) % 12 == 0
  {
    (pitch - tone + 12) % 12
  }

  /** The note's interval score for the chord, doubled when the bonus is on
      and the note starts within 20 ms of the segment's start. */
  function IntervalScore(chord: Key, n: Note, start: real, bonus: bool): real
  {
    var i := IntervalIndex(n.pitch, chord.tone);
    var score := IntervalScores(chord.scale)[i];
    if bonus && AbsReal(n.time - start) < OnBeatTolerance then score * StartOnBeatMultiple else score
  }

  function AbsReal(x: real): real
  {
    if x < 0.0 then -x else x
  }

  /** A weighted note's contribution to the chord's score. */
  function Contribution(chord: Key, p: (Note, real), start: real, bonus: bool): real
  {
    IntervalScore(chord, p.0, start, bonus) * p.1
  }

  /** Each weighted note's contribution to the chord's score. */
  function Contributions(ps: seq<(Note, real)>, chord: Key, start: real, bonus: bool): (r: seq<real>)
    ensures |r| == |ps|
  {
    seq(|ps|, k requires 0 <= k < |ps| => Contribution(chord, ps[k], start, bonus))
  }

  /** ComputeScores as a function: weights first, then the sum of the
      weighted interval scores of every chord. */
  function Scored(s: NotesInSegment, bonus: bool): (r: NotesInSegment)
    ensures |r.scores| == 24
  {
    var w := Weighted(s);
    s.(notes := w,
       totalNoteWeight := BaseNoteSum + Sum(WeightsOf(w)),
       scores := seq(24, c requires 0 <= c < 24 => Sum(Contributions(w, KeyOfIndex(c), s.start, bonus))))
  }

  /** GetScore. */
  function GetScore(s: NotesInSegment, chord: Key): real
    requires |s.scores| == 24
  {
    s.scores[ToInt(chord)]
  }

  /** ComputeScores: the weight loop, then the loop over the 24 chords with
      the loop over the notes inside. */
  method ComputeScores(s: NotesInSegment, bonus: bool) returns (r: NotesInSegment)
    requires |s.scores| == 24
    ensures r == Scored(s, bonus)
  {
    r := ComputeWeights(s);
    var scores := r.scores;
    for c := 0 to 24
      invariant |scores| == 24
      invariant forall j :: 0 <= j < c ==> scores[j] == Sum(Contributions(r.notes, KeyOfIndex(j), s.start, bonus))
    {
      var score := ChordScore(r.notes, KeyOfIndex(c), s.start, bonus);
      scores := scores[c := score];
    }
    r := r.(scores := scores);
  }

  /** The loop over the notes for one chord. */
  method ChordScore(notes: seq<(Note, real)>, chord: Key, start: real, bonus: bool) returns (score: real)
    ensures score == Sum(Contributions(notes, chord, start, bonus))
  {
    score := 0.0;
    for i := 0 to |notes|
      invariant score == Sum(Contributions(notes[..i], chord, start, bonus))
    {
      var c := Contributions(notes[..i + 1], chord, start, bonus);
      assert c[..i] == Contributions(notes[..i], chord, start, bonus);
      assert c[i] == Contribution(chord, notes[i], start, bonus);
      score := score + Contribution(chord, notes[i], start, bonus);
    }
    assert notes[..|notes|] == notes;
  }

  /** ComputeWeights: each note's weight is replaced, and TotalNoteWeight
      is 0.2 plus their sum. */
  method ComputeWeights(s: NotesInSegment) returns (r: NotesInSegment)
    ensures r == s.(notes := Weighted(s), totalNoteWeight := BaseNoteSum + Sum(WeightsOf(Weighted(s))))
  {
    var total := BaseNoteSum;
    var notes := s.notes;
    for i := 0 to |notes|
      invariant |notes| == |s.notes|
      invariant notes[..i] == Weighted(s)[..i] && notes[i..] == s.notes[i..]
      invariant total == BaseNoteSum + Sum(WeightsOf(Weighted(s)[..i]))
    {
      assert WeightsOf(Weighted(s)[..i + 1])[..i] == WeightsOf(Weighted(s)[..i]);
      var weight := NoteWeight(s, notes[i].0);
      notes := notes[i := (notes[i].0, weight)];
      total := total + weight;
      assert notes[..i + 1] == notes[..i] + [notes[i]];
    }
    assert notes == notes[..|notes|] && Weighted(s) == Weighted(s)[..|notes|];
    r := s.(notes := notes, totalNoteWeight := total);
  }

  // ---------------------------------------------------------------------
  // Properties of the scores

  /** The bonus doubles the interval score of a note starting within 20 ms
      of the segment's start, and changes no other. */
  lemma BonusDoubles(chord: Key, n: Note, start: real)
    ensures AbsReal(n.time - start) < OnBeatTolerance ==> IntervalScore(chord, n, start, true) == 2.0 * IntervalScore(chord, n, start, false)
    ensures !(AbsReal(n.time - start) < OnBeatTolerance) ==> IntervalScore(chord, n, start, true) == IntervalScore(chord, n, start, false)
  {
  }

  /** A chord's score depends only on the intervals: moving every note and
      the chord's root up by k semitones changes no interval score. */
  lemma IntervalScoreTransposed(chord: Key, n: Note, start: real, bonus: bool, k: nat)
    requires n.pitch + k < 256
    ensures IntervalScore(Key((chord.tone + k) % 12, chord.scale), n.(pitch := n.pitch + k), start, bonus) ==
            IntervalScore(chord, n, start, bonus)
  {
    var a := IntervalIndex(n.pitch, chord.tone);
    var b := IntervalIndex(n.pitch + k, (chord.tone + k) % 12);
    SameResidue(a, b, n.pitch - chord.tone, n.pitch + k - (chord.tone + k) % 12);
  }

  /** Two indices 0..11 congruent to numbers that differ by a multiple of 12
      are equal. */
  lemma SameResidue(a: int, b: int, x: int, y: int)
    requires 0 <= a < 12 && 0 <= b < 12
    requires (a - x) % 12 == 0 && (b - y) % 12 == 0 && (x - y) % 12 == 0
    ensures a == b
  {
    var p := (a - x) / 12;
    var q := (b - y) / 12;
    var r := (x - y) / 12;
    assert a - b == 12 * (p - q + r);
  }

  /** Entry c of the scores is the score of chord c: the weighted interval
      scores of the notes added up; an empty segment scores 0 for every
      chord and weighs 0.2. */
  lemma GetScoreSums(s: NotesInSegment, bonus: bool, chord: Key)
    ensures GetScore(Scored(s, bonus), chord) == Sum(Contributions(Weighted(s), chord, s.start, bonus))
    ensures s.notes == [] ==> GetScore(Scored(s, bonus), chord) == 0.0 && Scored(s, bonus).totalNoteWeight == BaseNoteSum
  {
    IndexOfKey(chord);
  }

  /** With non-negative weights TotalNoteWeight is at least 0.2. */
  lemma TotalAtLeastBase(s: NotesInSegment)
    requires forall k :: 0 <= k < |s.notes| ==> NoteWeight(s, s.notes[k].0) >= 0.0
    ensures Scored(s, false).totalNoteWeight >= BaseNoteSum
  {
    SumNonNegative(WeightsOf(Weighted(s)));
  }
}
