/** Event.cs: the events of a MIDI timeline. Control events belong to a
    channel; meta events to a track. Tick times are the file's unsigned
    AbsoluteTime, real times are milliseconds. */
module Events {
  import opened Wrappers
  import opened Keys
  import opened Instruments
  import BigEndian

  type byte = BigEndian.byte
  type ChannelNumber = x: int | 0 <= x < 16

  /** Tick arithmetic is on uint, so it wraps modulo 2^32. */
  const U32 := 0x1_0000_0000

  /** Channel.PercussionChannelNumber */
  const PercussionChannel: ChannelNumber := 9

  datatype Control =
    | ModulationWheel | DataEntryMSB | Volume | Pan | Expression | DataEntryLSB | SustainPedal
    | ReverbLevel | TremoloLevel | ChorusLevel | CelesteLevel | PhaserLevel
    | NonRegisteredParameterLSB | NonRegisteredParameterMSB
    | RegisteredParameterNumberLSB | RegisteredParameterNumberMSB
    | AllControllersOff | AllNotesOff

  /** A pitch bend as attached to a note's Bends list. */
  datatype Bend = Bend(tick: nat, time: real, pitchValue: int, range: nat)

  datatype ControlEvent =
    | NoteOn(tick: nat, time: real, channel: ChannelNumber, note: byte, volume: byte,
             realVolume: real, length: nat, instrument: Option<Instrument>,
             realLength: real, end: real, bends: seq<Bend>)
    | NoteOff(tick: nat, time: real, channel: ChannelNumber, note: byte, velocity: byte)
    | NoteAftertouch(tick: nat, time: real, channel: ChannelNumber, note: byte, value: byte)
    | Controller(tick: nat, time: real, channel: ChannelNumber, number: byte, value: byte)
    | InstrumentChange(tick: nat, time: real, channel: ChannelNumber, instrument: Option<Instrument>)
    | ChannelAftertouch(tick: nat, time: real, channel: ChannelNumber, value: byte)
    | PitchBend(tick: nat, time: real, channel: ChannelNumber, pitchValue: int, range: nat)

  datatype TextKind = PlainText | Copyright | TrackName | InstrumentName | Lyrics | Marker | CuePoint

  datatype MetaEvent =
    | BeatEvent(tick: nat, time: real, length: real, chord: Key, level: int)
    | SequenceNumber(tick: nat, time: real, number: int)
    | TextEvent(tick: nat, time: real, kind: TextKind, text: string)
    | ChannelPrefix(tick: nat, time: real, prefix: byte)
    | EndOfTrack(tick: nat, time: real)
    | SetTempo(tick: nat, time: real, microseconds: int)
    | SmpteOffset(tick: nat, time: real, hour: byte, minute: byte, second: byte, frame: byte, subFrame: byte)
    | TimeSignature(tick: nat, time: real, numerator: byte, denominator: byte, pulse: byte, thirtySeconds: byte)
    | KeySignature(tick: nat, time: real, key: Key)
    | SequencerSpecific(tick: nat, time: real, data: seq<byte>)
    | UnknownMeta(tick: nat, time: real, data: seq<byte>)

  /** A note as the parser creates it: no instrument, length, end or bends yet. */
  function NewNoteOn(tick: nat, channel: ChannelNumber, note: byte, volume: byte): (e: ControlEvent)
    ensures e.NoteOn? && e.tick == tick && e.channel == channel && e.note == note && e.volume == volume
    ensures e.bends == [] && e.instrument == None && e.length == 0 && e.end == 0.0
  {
    NoteOn(tick, 0.0, channel, note, volume, 0.0, 0, None, 0.0, 0.0, [])
  }

  /** NoteOn.IsPercussion */
  predicate IsPercussion(e: ControlEvent)
  {
    e.channel == PercussionChannel
  }

  /** The controller number of each named control (MIDI 1.0 Control Change table). */
  function ControlNumber(c: Control): (n: byte)
  {
    match c
    case ModulationWheel => 1
    case DataEntryMSB => 6
    case Volume => 7
    case Pan => 10
    case Expression => 11
    case DataEntryLSB => 38
    case SustainPedal => 64
    case ReverbLevel => 91
    case TremoloLevel => 92
    case ChorusLevel => 93
    case CelesteLevel => 94
    case PhaserLevel => 95
    case NonRegisteredParameterLSB => 98
    case NonRegisteredParameterMSB => 99
    case RegisteredParameterNumberLSB => 100
    case RegisteredParameterNumberMSB => 101
    case AllControllersOff => 121
    case AllNotesOff => 123
  }

  /** Controller.NumberToControl: the named control, or null for an unlisted number. */
  function NumberToControl(n: byte): (c: Option<Control>)
    ensures c.Some? ==> ControlNumber(c.value) == n
  {
    match n
    case 1 => Some(ModulationWheel)
    case 6 => Some(DataEntryMSB)
    case 7 => Some(Volume)
    case 10 => Some(Pan)
    case 11 => Some(Expression)
    case 38 => Some(DataEntryLSB)
    case 64 => Some(SustainPedal)
    case 91 => Some(ReverbLevel)
    case 92 => Some(TremoloLevel)
    case 93 => Some(ChorusLevel)
    case 94 => Some(CelesteLevel)
    case 95 => Some(PhaserLevel)
    case 98 => Some(NonRegisteredParameterLSB)
    case 99 => Some(NonRegisteredParameterMSB)
    case 100 => Some(RegisteredParameterNumberLSB)
    case 101 => Some(RegisteredParameterNumberMSB)
    case 121 => Some(AllControllersOff)
    case 123 => Some(AllNotesOff)
    case _ => None
  }

  /** Every named control is found from its number, so a number maps to null
      exactly when no control has it. */
  lemma NumberToControlComplete(c: Control, n: byte)
    ensures NumberToControl(ControlNumber(c)) == Some(c)
    ensures NumberToControl(n).None? <==> forall d: Control :: ControlNumber(d) != n
  {
    if NumberToControl(n).None? {
      forall d: Control ensures ControlNumber(d) != n {
        assert NumberToControl(ControlNumber(d)) == Some(d);
      }
    }
  }

  /** PitchBend.RealPitchChange, in semitones: Range * (PitchValue - 8192) / 16384. */
  function RealPitchChange(range: nat, pitchValue: int): (r: real)
    ensures pitchValue == 8192 ==> r == 0.0
    ensures range > 0 && pitchValue > 8192 ==> r > 0.0
    ensures range > 0 && pitchValue < 8192 ==> r < 0.0
    ensures 0 <= pitchValue < 16384 ==> -(range as real) / 2.0 <= r < (range as real) / 2.0 || range == 0
  {
    var d := pitchValue as real - 8192.0;
    assert range > 0 && d < 0.0 ==> range as real * d < 0.0 by {
      if range > 0 && d < 0.0 {
        assert range as real * -d > 0.0;
      }
    }
    range as real * d / 16384.0
  }
}
