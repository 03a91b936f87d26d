/** NoteCluster.cs: what happens in one frame of a .mus file: the notes and
    percussion hits that start and end there, the beat length and chord in
    force, and the frame's place within its beat. The C# lists that Parse
    appends to are sequences here, and a cluster is a value that Parse
    replaces whenever it adds to one. */
module NoteClusters {
  import opened Keys
  import opened Instruments
  import opened Events

  /** A melodic note starting: its wrapped pitch, its volume relative to
      the average, its instrument and its cluster channel. */
  datatype NoteStart = NoteStart(pitch: byte, volume: real, instrument: Instrument, channel: byte)

  datatype NoteEnd = NoteEnd(pitch: byte, channel: byte)

  /** A percussion hit starting: its drum number (the C# Type) and its
      volume relative to the average. */
  datatype PercussionStart = PercussionStart(drum: byte, volume: real)

  datatype PercussionEnd = PercussionEnd(drum: byte)

  datatype NoteCluster = NoteCluster(
    noteStarts: seq<NoteStart>,
    noteEnds: seq<NoteEnd>,
    percussionStarts: seq<PercussionStart>,
    percussionEnds: seq<PercussionEnd>,
    metre: real,
    chord: Key,
    orderInBeat: int)

  /** new NoteCluster(metre, chord, orderInBeat): all four lists empty. */
  function NewCluster(metre: real, chord: Key, orderInBeat: int): (c: NoteCluster)
    ensures IsEmpty(c) && c.metre == metre && c.chord == chord && c.orderInBeat == orderInBeat
  {
    NoteCluster([], [], [], [], metre, chord, orderInBeat)
  }

  /** No note or percussion hit starts or ends in the cluster. */
  predicate IsEmpty(c: NoteCluster)
  {
    c.noteStarts == [] && c.noteEnds == [] && c.percussionStarts == [] && c.percussionEnds == []
  }
}
