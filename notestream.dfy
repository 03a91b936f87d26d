/** NoteStream: the notes of a piece in onset order, and a cursor that lets
    a player moving forward in time fetch the notes of each frame without
    rescanning the notes that are already over. */
module NoteStreams {
  import opened Events
  import opened Tracks
  import opened Ordering

  /** Every event is a NoteOn, so it has an onset and an end. */
  predicate AllNoteOns(ns: seq<ControlEvent>)
  {
    forall k :: 0 <= k < |ns| ==> ns[k].NoteOn?
  }

  /** Onsets never decrease along the list. */
  predicate OnsetOrdered(ns: seq<ControlEvent>)
  {
    forall a, b :: 0 <= a < b < |ns| ==> ns[a].time <= ns[b].time
  }

  lemma {:induction false} NotesAreNoteOns(es: seq<ControlEvent>)
    ensures AllNoteOns(Notes(es))
  {
    if es != [] {
      NotesAreNoteOns(es[..|es| - 1]);
    }
  }

  /** EventsOfType<NoteOn>().OrderBy(n => n.AbsoluteRealTime): the notes
      of the model by onset, equal onsets in LinqToMidi order. */
  function NotesByOnset(m: Model): (ns: seq<ControlEvent>)
    ensures |ns| == |Notes(ControlEvents(m))|
    ensures AllNoteOns(ns) && OnsetOrdered(ns)
  {
    var notes := Notes(ControlEvents(m));
    var order := StableSort(TimesOf(notes));
    NotesAreNoteOns(ControlEvents(m));
    forall a, b | 0 <= a < b < |order|
      ensures notes[order[a]].time <= notes[order[b]].time
    {
      StableOrderMonotone(TimesOf(notes), order, a, b);
    }
    Arranged(notes, order)
  }

  /** Every note of the model is in the stream, each at a place of its own. */
  lemma NotesByOnsetHoldsEachNote(m: Model)
    ensures var notes := Notes(ControlEvents(m));
      var order := StableSort(TimesOf(notes));
      (forall i :: 0 <= i < |notes| ==> i in order) &&
      (forall a, b :: 0 <= a < |order| && 0 <= b < |order| && a != b ==> order[a] != order[b]) &&
      forall k :: 0 <= k < |order| ==> NotesByOnset(m)[k] == notes[order[k]]
  {
    var notes := Notes(ControlEvents(m));
    StableOrderDistinct(TimesOf(notes), StableSort(TimesOf(notes)));
  }

  /** The notes sounding in the frame [time, end]: those not ended before
      the frame starts and not starting after it ends, in stream order. */
  function InFrame(ns: seq<ControlEvent>, time: real, end: real): (r: seq<ControlEvent>)
    requires AllNoteOns(ns)
    ensures AllNoteOns(r) && |r| <= |ns|
  {
    if ns == [] then []
    else (if ns[0].end >= time && ns[0].time <= end then [ns[0]] else []) + InFrame(ns[1..], time, end)
  }

  /** A note is in the frame exactly when it is in the stream, has not ended
      before the frame starts and does not start after it ends. */
  lemma {:induction false} InFrameMembers(ns: seq<ControlEvent>, time: real, end: real)
    requires AllNoteOns(ns)
    ensures forall x :: x in InFrame(ns, time, end) <==> x in ns && x.end >= time && x.time <= end
  {
    if ns != [] {
      InFrameMembers(ns[1..], time, end);
      forall x | x in ns
        ensures x in ns[1..] || x == ns[0]
      {
        var k :| 0 <= k < |ns| && ns[k] == x;
        if k > 0 {
          assert ns[1..][k - 1] == x;
        }
      }
    }
  }

  /** The frame keeps the onset order of the stream. */
  lemma {:induction false} InFrameOrdered(ns: seq<ControlEvent>, time: real, end: real)
    requires AllNoteOns(ns) && OnsetOrdered(ns)
    ensures OnsetOrdered(InFrame(ns, time, end))
  {
    if ns != [] {
      InFrameOrdered(ns[1..], time, end);
      InFrameMembers(ns[1..], time, end);
      var rest := InFrame(ns[1..], time, end);
      forall b | 0 <= b < |rest|
        ensures ns[0].time <= rest[b].time
      {
        assert rest[b] in ns[1..];
      }
    }
  }

  /** The loop of GetFrame from index i: notes that ended before the frame
      are skipped, the first note starting after the frame ends the scan,
      every other note is yielded. */
  function Scan(ns: seq<ControlEvent>, i: nat, time: real, end: real): (r: seq<ControlEvent>)
    requires AllNoteOns(ns) && i <= |ns|
    decreases |ns| - i
  {
    if i == |ns| then []
    else if ns[i].end < time then Scan(ns, i + 1, time, end)
    else if ns[i].time > end then []
    else [ns[i]] + Scan(ns, i + 1, time, end)
  }

  /** On notes in onset order the scan from i, which stops early, yields
      the frame of the notes from i on. */
  lemma {:induction false} ScanIsFrame(ns: seq<ControlEvent>, i: nat, time: real, end: real)
    requires AllNoteOns(ns) && OnsetOrdered(ns) && i <= |ns|
    ensures Scan(ns, i, time, end) == InFrame(ns[i..], time, end)
    decreases |ns| - i
  {
    if i < |ns| {
      assert ns[i..][1..] == ns[i + 1..];
      if ns[i].end < time || ns[i].time <= end {
        ScanIsFrame(ns, i + 1, time, end);
      } else {
        NothingLater(ns, i + 1, time, end);
      }
    }
  }

  /** After a note starting after the frame, no note is in the frame. */
  lemma {:induction false} NothingLater(ns: seq<ControlEvent>, i: nat, time: real, end: real)
    requires AllNoteOns(ns) && OnsetOrdered(ns) && 0 < i <= |ns| && ns[i - 1].time > end
    ensures InFrame(ns[i..], time, end) == []
    decreases |ns| - i
  {
    if i < |ns| {
      assert ns[i..][1..] == ns[i + 1..];
      NothingLater(ns, i + 1, time, end);
    }
  }

  /** The notes before the cursor are all over by `time`. */
  predicate Behind(ns: seq<ControlEvent>, cursor: nat, time: real)
    requires AllNoteOns(ns) && cursor <= |ns|
  {
    forall k :: 0 <= k < cursor ==> ns[k].end < time
  }

  /** Starting the scan at a cursor that only notes already over lie behind
      yields what the scan from the first note yields. */
  lemma {:induction false} ScanFromCursor(ns: seq<ControlEvent>, cursor: nat, time: real, end: real)
    requires AllNoteOns(ns) && cursor <= |ns| && Behind(ns, cursor, time)
    ensures Scan(ns, 0, time, end) == Scan(ns, cursor, time, end)
    decreases cursor
  {
    if cursor > 0 {
      ScanFromCursor(ns, cursor - 1, time, end);
    }
  }

  /** The loop of GetFrame from the cursor c: the notes it yields, and the
      index of the first of them, which becomes the cursor (c itself when
      it yields none). Every note it skips before that one is over by
      `time`. */
  method ScanFrom(ns: seq<ControlEvent>, c: nat, time: real, end: real) returns (frame: seq<ControlEvent>, first: nat)
    requires AllNoteOns(ns) && c <= |ns| && Behind(ns, c, time)
    ensures frame == Scan(ns, c, time, end)
    ensures c <= first <= |ns| && Behind(ns, first, time)
    ensures frame == [] ==> first == c
    ensures frame != [] ==> first < |ns| && frame[0] == ns[first]
  {
    var firstNoteSet := false;
    first := c;
    var i := c;
    frame := [];
    while i < |ns|
      invariant c <= i <= |ns|
      invariant frame + Scan(ns, i, time, end) == Scan(ns, c, time, end)
      invariant firstNoteSet <==> frame != []
      invariant !firstNoteSet ==> first == c && Behind(ns, i, time)
      invariant firstNoteSet ==> c <= first < i && frame[0] == ns[first] && Behind(ns, first, time)
      decreases |ns| - i
    {
      var note := ns[i];
      if note.end < time {
        i := i + 1;
        continue;
      }
      if note.time > end {
        break;
      }
      if !firstNoteSet {
        first := i;
        firstNoteSet := true;
      }
      frame := frame + [note];
      i := i + 1;
    }
  }

  class NoteStream {
    /** _allNotes: the notes in onset order. */
    const allNotes: seq<ControlEvent>
    /** _lastFirstNoteIndex: the first note the last frame returned. */
    var lastFirstNoteIndex: nat

    predicate Valid()
      reads this
    {
      AllNoteOns(allNotes) && OnsetOrdered(allNotes) && lastFirstNoteIndex <= |allNotes|
    }

    /** The notes sorted by onset, and the cursor at the first of them. */
    constructor (m: Model)
      ensures allNotes == NotesByOnset(m) && lastFirstNoteIndex == 0
      ensures Valid() && forall t :: Behind(allNotes, lastFirstNoteIndex, t)
    {
      allNotes := NotesByOnset(m);
      lastFirstNoteIndex := 0;
    }

    /** GetFrame, enumerated to the end: the notes sounding in
        [time, time + frameLength], found from the cursor on. The cursor
        moves to the first note returned, never back, and the call leaves
        the stream ready for any later time. */
    method GetFrame(time: real, frameLength: real) returns (frame: seq<ControlEvent>)
      requires Valid() && Behind(allNotes, lastFirstNoteIndex, time)
      modifies this
      ensures Valid() && frame == InFrame(allNotes, time, time + frameLength)
      ensures old(lastFirstNoteIndex) <= lastFirstNoteIndex
      ensures frame == [] ==> lastFirstNoteIndex == old(lastFirstNoteIndex)
      ensures frame != [] ==> lastFirstNoteIndex < |allNotes| && frame[0] == allNotes[lastFirstNoteIndex]
      ensures forall t :: t >= time ==> Behind(allNotes, lastFirstNoteIndex, t)
    {
      var first;
      frame, first := ScanFrom(allNotes, lastFirstNoteIndex, time, time + frameLength);
      lastFirstNoteIndex := first;
      ScanFromCursor(allNotes, old(lastFirstNoteIndex), time, time + frameLength);
      ScanIsFrame(allNotes, 0, time, time + frameLength);
      assert allNotes[0..] == allNotes;
    }
  }
}
