/** Pip.cs: one quantized time step of the metre detector, holding the
    notes that start in it, its base score, and per beat length the best
    score so far and the state of the tempo-change automaton. */
module Pips {
  import opened MathExt
  import opened MetreGlobals

  /** Pip.State. `Steady` is the source's `None`: no tempo change under
      way. */
  datatype State = Steady | Raising | Declining

  /** NoteWrapper: a note seen by the metre detector, with its start and
      length truncated to whole milliseconds. */
  datatype NoteWrapper = NoteWrapper(
    start: int,
    length: int,
    rioi: int,
    effectiveLength: int,
    volume: real,
    isPercussion: bool,
    noteNumber: int)

  /** One entry of the score table: the best score of a beat of this length
      ending here, and the length of the beat before it (-1 for none). */
  datatype Entry = Entry(score: real, prevLength: int)

  datatype Pip = Pip(
    index: int,
    notes: seq<NoteWrapper>,
    score: seq<Entry>,
    states: seq<State>,
    baseScore: real,
    bestOffset: int,
    isBeat: bool,
    isFirstBeat: bool)

  /** Both tables have one entry per beat length MinLength .. MaxLength. */
  predicate Shaped(p: Pip)
  {
    |p.score| == TableSize && |p.states| == TableSize
  }

  predicate InTable(length: int)
  {
    MinLength <= length <= MaxLength
  }

  /** The table entry of a beat length: length - MinLength. */
  function Slot(length: int): (k: int)
    ensures InTable(length) <==> 0 <= k < TableSize
  {
    length - MinLength
  }

  /** new Pip(index): no notes, not a beat, zeroed tables, every state
      None. */
  function NewPip(index: int): (p: Pip)
    ensures Shaped(p) && p.index == index && p.notes == [] && !p.isBeat && !p.isFirstBeat
    ensures forall k :: 0 <= k < TableSize ==> p.states[k] == Steady && p.score[k] == Entry(0.0, 0)
  {
    Pip(index, [], seq(TableSize, _ => Entry(0.0, 0)), seq(TableSize, _ => Steady), 0.0, 0, false, false)
  }

  function GetBestScore(p: Pip, length: int): Entry
    requires Shaped(p) && InTable(length)
  {
    p.score[Slot(length)]
  }

  function GetState(p: Pip, tactus: int): State
    requires Shaped(p) && InTable(tactus)
  {
    p.states[Slot(tactus)]
  }

  /** SetBestScore: the entry of this length is replaced and nothing else. */
  function SetBestScore(p: Pip, tactus: int, score: real, prevLength: int): (r: Pip)
    requires Shaped(p) && InTable(tactus)
    ensures Shaped(r) && r == p.(score := r.score)
    ensures GetBestScore(r, tactus) == Entry(score, prevLength)
    ensures forall l :: InTable(l) && l != tactus ==> GetBestScore(r, l) == GetBestScore(p, l)
  {
    p.(score := p.score[Slot(tactus) := Entry(score, prevLength)])
  }

  /** SetState(tactus, value): the state of this length is replaced and
      nothing else. */
  function SetState(p: Pip, tactus: int, value: State): (r: Pip)
    requires Shaped(p) && InTable(tactus)
    ensures Shaped(r) && r == p.(states := r.states)
    ensures GetState(r, tactus) == value
    ensures forall l :: InTable(l) && l != tactus ==> GetState(r, l) == GetState(p, l)
  {
    p.(states := p.states[Slot(tactus) := value])
  }

  /** The automaton for small tempo changes, from the previous beat's state
      and the change in milliseconds: the new state, and whether the change
      is punished. A change of 0 keeps the state; a rise of at most BeatSlop
      starts or ends a rise, a fall of at most BeatSlop starts or ends a
      fall; anything else is punished and resets to None. */
  function Transition(prev: State, delta: int): (r: (State, bool))
    ensures r.1 ==> r.0 == Steady
    ensures delta == 0 ==> r == (prev, false)
    ensures !r.1 <==> delta == 0 || (prev != Raising && 0 < delta <= BeatSlop) ||
                      (prev != Declining && -BeatSlop <= delta < 0)
    ensures r.0 == Raising <==> (prev == Steady && 0 < delta <= BeatSlop) || (prev == Raising && delta == 0)
    ensures r.0 == Declining <==> (prev == Steady && -BeatSlop <= delta < 0) || (prev == Declining && delta == 0)
  {
    match prev
    case Steady =>
      if delta == 0 then (Steady, false)
      else if delta > 0 && delta <= BeatSlop then (Raising, false)
      else if delta < 0 && delta >= -BeatSlop then (Declining, false)
      else (Steady, true)
    case Raising =>
      if delta == 0 then (Raising, false)
      else if delta < 0 && delta >= -BeatSlop then (Steady, false)
      else (Steady, true)
    case Declining =>
      if delta == 0 then (Declining, false)
      else if delta > 0 && delta <= BeatSlop then (Steady, false)
      else (Steady, true)
  }

  /** A run of the automaton from a state over a sequence of changes. */
  function Run(s: State, deltas: seq<int>): State
    decreases |deltas|
  {
    if deltas == [] then s else Run(Transition(s, deltas[0]).0, deltas[1..])
  }

  /** The metre detector feeds the automaton absolute differences only, and
      from a state other than Declining these never lead to Declining. */
  lemma {:induction false} NoDeclineWithoutFall(s: State, deltas: seq<int>)
    requires s != Declining && forall k :: 0 <= k < |deltas| ==> deltas[k] >= 0
    ensures Run(s, deltas) != Declining
    decreases |deltas|
  {
    if deltas != [] {
      NoDeclineWithoutFall(Transition(s, deltas[0]).0, deltas[1..]);
    }
  }

  /** SetState(tactus, prevState, tempoDelta): stores the automaton's new
      state and reports whether the change is punished. */
  function Advance(p: Pip, tactus: int, prevState: State, tempoDelta: int): (r: (Pip, bool))
    requires Shaped(p) && InTable(tactus)
    ensures Shaped(r.0) && r.0 == p.(states := r.0.states)
    ensures r.1 ==> GetState(r.0, tactus) == Steady
    ensures forall l :: InTable(l) && l != tactus ==> GetState(r.0, l) == GetState(p, l)
  {
    var t := Transition(prevState, tempoDelta);
    (SetState(p, tactus, t.0), t.1)
  }

  function TotalEffectiveLength(notes: seq<NoteWrapper>): int
  {
    if notes == [] then 0 else TotalEffectiveLength(notes[..|notes| - 1]) + notes[|notes| - 1].effectiveLength
  }

  function TotalSqrtVolume(notes: seq<NoteWrapper>, maths: Maths): real
  {
    if notes == [] then 0.0 else TotalSqrtVolume(notes[..|notes| - 1], maths) + maths.sqrt(notes[|notes| - 1].volume)
  }

  function PercussionCount(notes: seq<NoteWrapper>): nat
  {
    if notes == [] then 0 else PercussionCount(notes[..|notes| - 1]) + if notes[|notes| - 1].isPercussion then 1 else 0
  }

  /** At most every note is a percussion note. */
  lemma {:induction false} PercussionCountBound(notes: seq<NoteWrapper>)
    ensures PercussionCount(notes) <= |notes|
    ensures (forall k :: 0 <= k < |notes| ==> !notes[k].isPercussion) ==> PercussionCount(notes) == 0
  {
    if notes != [] {
      PercussionCountBound(notes[..|notes| - 1]);
    }
  }

  /** ComputeBaseScore: 0 for a pip without notes; otherwise the note factor
      times (sqrt(count) + percussion count) times the average effective
      length in seconds times the average root volume, plus the note
      bonus. */
  function ComputeBaseScore(notes: seq<NoteWrapper>, maths: Maths): (r: real)
    ensures notes == [] ==> r == 0.0
  {
    if |notes| == 0 then 0.0
    else
      var count := |notes| as real;
      var averageLength := TotalEffectiveLength(notes) as real / count / 1000.0;
      var averageVolume := TotalSqrtVolume(notes, maths) / count;
      var percussionCount := PercussionCount(notes) as real * PercussionMultiple;
      NoteFactor * ((maths.sqrt(count) + percussionCount) * averageLength * averageVolume + NoteBonus)
  }

  /** A pip with one note scores sqrt(1) plus its percussion bonus, times
      its effective length in seconds, times its root volume, plus the
      note bonus. */
  lemma BaseScoreOfOne(n: NoteWrapper, maths: Maths)
    ensures ComputeBaseScore([n], maths) ==
      NoteFactor * ((maths.sqrt(1.0) + (if n.isPercussion then 1.0 else 0.0)) *
        (n.effectiveLength as real / 1000.0) * maths.sqrt(n.volume) + NoteBonus)
  {
    assert [n][..0] == [];
    assert TotalEffectiveLength([n]) == n.effectiveLength;
    assert TotalSqrtVolume([n], maths) == maths.sqrt(n.volume);
    assert PercussionCount([n]) == if n.isPercussion then 1 else 0;
  }
}
