/** Instrument.cs: General MIDI programs, the percussion pseudo-instrument,
    their grouping into eleven clusters and a typical program per cluster. */
module Instruments {
  import opened Wrappers

  /** A General MIDI program number. */
  type Program = x: int | 0 <= x < 128

  datatype Instrument = Musical(program: Program) | Percussion

  datatype InstrumentCluster =
    Piano | AcusticGuitar | Orchestra | Bass | Brass | Warm | ElectricGuitar | Organ
    | ClappingBox | Percussive | Violin | Nonmusical

  /** Percussion.MinNoteNumber, MaxNoteNumber and Range. */
  const PercussionMinNote := 35
  const PercussionMaxNote := 82
  const PercussionRange := PercussionMaxNote - PercussionMinNote + 1

  /** The InstrumentCluster enum value (Percussion is pinned to channel 9). */
  function ClusterNumber(c: InstrumentCluster): (n: int)
    ensures 0 <= n < 12
    ensures c == Percussive <==> n == 9
  {
    match c
    case Piano => 0
    case AcusticGuitar => 1
    case Orchestra => 2
    case Bass => 3
    case Brass => 4
    case Warm => 5
    case ElectricGuitar => 6
    case Organ => 7
    case ClappingBox => 8
    case Percussive => 9
    case Violin => 10
    case Nonmusical => 11
  }

  /** Distinct clusters have distinct enum values. */
  lemma ClusterNumberInjective(c: InstrumentCluster, d: InstrumentCluster)
    requires ClusterNumber(c) == ClusterNumber(d)
    ensures c == d
  {
  }

  /** MusicalInstrument(byte): program numbers above 127 are rejected. */
  function MusicalInstrument(value: int): (r: Result<Instrument>)
    requires 0 <= value < 256
    ensures r.Ok? <==> value <= 127
    ensures r.Fail? ==> r.failure == FormatError
    ensures r.Ok? ==> r.value == Musical(value)
  {
    if value > 127 then Fail(FormatError) else Ok(Musical(value))
  }

  /** Bundle: value >> 3, the GM family of eight consecutive programs. */
  function Bundle(p: Program): (b: int)
    ensures 0 <= b < 16
    ensures 8 * b <= p < 8 * b + 8
  {
    p / 8
  }

  /** Id(): the program, or 128 for percussion. */
  function Id(i: Instrument): (n: int)
    ensures 0 <= n <= 128
    ensures n == 128 <==> i.Percussion?
  {
    match i
    case Musical(p) => p
    case Percussion => 128
  }

  /** Cluster() of a MusicalInstrument: the switch over the GM program list. */
  function ProgramCluster(p: Program): InstrumentCluster
  {
    if p <= 7 then Piano
    else if p <= 15 then ClappingBox
    else if p <= 23 then Organ
    else if p <= 28 then AcusticGuitar
    else if p <= 31 then ElectricGuitar
    else if p <= 39 then Bass
    else if p <= 43 then Violin
    else if p == 44 then Orchestra
    else if p == 45 then ClappingBox
    else if p == 46 then AcusticGuitar
    else if p == 47 then ClappingBox
    else if p <= 51 then Orchestra
    else if p <= 53 then Warm
    else if p == 54 then Orchestra
    else if p == 55 then ClappingBox
    else if p <= 83 then Brass
    else if p == 84 then ElectricGuitar
    else if p == 85 then Warm
    else if p <= 87 then Brass
    else if p <= 103 then Warm
    else if p <= 107 then AcusticGuitar
    else if p == 108 then ClappingBox
    else if p == 109 then Organ
    else if p == 110 then Violin
    else if p == 111 then Brass
    else if p <= 119 then ClappingBox
    else Nonmusical
  }

  /** Cluster(): percussion is its own cluster; no program is percussive. */
  function Cluster(i: Instrument): (c: InstrumentCluster)
    ensures c == Percussive <==> i.Percussion?
    ensures i.Musical? ==> (c == Nonmusical <==> i.program >= 120)
  {
    match i
    case Musical(p) => ProgramCluster(p)
    case Percussion => Percussive
  }

  /** Instrument.TypicalInstrument: the program played for a cluster. */
  function TypicalInstrument(c: InstrumentCluster): (i: Instrument)
    ensures Cluster(i) == c
  {
    match c
    case Piano => Musical(0)            // AcousticGrandPiano
    case AcusticGuitar => Musical(25)   // AcousticGuitarSteel
    case Orchestra => Musical(48)       // StringEnsemble1
    case Bass => Musical(33)            // ElectricBassFinger
    case Brass => Musical(73)           // Flute
    case Percussive => Percussion
    case Warm => Musical(89)            // Pad2Warm
    case ElectricGuitar => Musical(30)  // DistortionGuitar
    case Organ => Musical(18)           // RockOrgan
    case ClappingBox => Musical(11)     // Vibraphone
    case Violin => Musical(42)          // Cello
    case Nonmusical => Musical(122)     // Seashore
  }

  /** MusicalInstrument.Equals: instruments are equal exactly when their programs are. */
  function MusicalEquals(a: Program, b: Program): (r: bool)
    ensures r <==> Musical(a) == Musical(b)
  {
    a == b
  }

  /** MusicalInstrument.GetHashCode: the program number, consistent with Equals. */
  function MusicalHashCode(p: Program): (h: int)
    ensures h == Id(Musical(p))
  {
    p
  }

  lemma HashConsistentWithEquals(a: Program, b: Program)
    ensures MusicalEquals(a, b) ==> MusicalHashCode(a) == MusicalHashCode(b)
    ensures MusicalHashCode(a) == MusicalHashCode(b) ==> MusicalEquals(a, b)
  {
  }
}
