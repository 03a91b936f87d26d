/** MidiToModelParser.cs: the header chunk (with an optional RIFF wrapper),
    track chunks read with running status, control and meta events, and the
    time-division word of the header. The stream is the byte sequence `s`
    and a read position; every read returns the position after it. */
module Parser {
  import opened Wrappers
  import opened BigEndian
  import opened Vlq
  import opened Keys
  import opened Instruments
  import opened Events
  import opened Tracks

  const RiffTag := 0x5249_4646    // "RIFF"
  const HeaderTag := 0x4D54_6864  // "MThd"
  const TrackTag := 0x4D54_726B   // "MTrk"

  // ---------------------------------------------------------------- time division

  /** A division the header word can spell: 15-bit ticks, or SMPTE frames
      (24, 25, 29 or 30) with an 8-bit tick count per frame. */
  predicate ValidDivision(d: TimeDivision)
  {
    match d
    case TicksPerBeat(t) => 0 <= t < 0x8000
    case FramesPerSecond(f, tpf) => f in {24, 25, 29, 30} && 0 <= tpf < 0x100
  }

  /** The header word of a division: bit 15 selects SMPTE, bits 8-14 hold the
      frames and bits 0-7 the ticks per frame. */
  function EncodeDivision(d: TimeDivision): (w: uint16)
    requires ValidDivision(d)
  {
    match d
    case TicksPerBeat(t) => t
    case FramesPerSecond(f, tpf) => 0x8000 + f * 0x100 + tpf
  }

  /** ParseTimeDivision: bit 15 clear gives the low 15 bits as ticks per beat;
      bit 15 set gives frames from bits 8-14, which must be 24, 25, 29 or 30,
      and ticks per frame from the low byte. */
  function ParseTimeDivision(input: uint16): (r: Result<TimeDivision>)
    ensures r.Ok? ==> ValidDivision(r.value) && EncodeDivision(r.value) == input
    ensures r.Ok? ==> (r.value.TicksPerBeat? <==> input < 0x8000)
    ensures r.Fail? ==> r.failure == FormatError && input >= 0x8000
  {
    if input / 0x8000 == 0 then
      Ok(TicksPerBeat(input % 0x8000))
    else
      var frames := (input % 0x8000) / 0x100;
      if frames != 24 && frames != 25 && frames != 29 && frames != 30 then Fail(FormatError)
      else Ok(FramesPerSecond(frames, input % 0x100))
  }

  /** Every valid division is read back from its header word. */
  lemma TimeDivisionRoundTrip(d: TimeDivision)
    requires ValidDivision(d)
    ensures ParseTimeDivision(EncodeDivision(d)) == Ok(d)
  {
    if d.FramesPerSecond? {
      var w := EncodeDivision(d);
      assert w % 0x8000 == d.frames * 0x100 + d.ticksPerFrame;
      assert (w % 0x8000) / 0x100 == d.frames;
    }
  }

  // ---------------------------------------------------------------- header chunk

  datatype Header = Header(format: int, trackCount: uint16, division: TimeDivision)

  /** ParseHeaderChunk: a RIFF tag skips 16 bytes and starts again; otherwise
      the chunk must be tagged "MThd", its format must be 0, 1 or 2, and the
      bytes the length field declares beyond the six read are skipped. The
      length is unsigned, so length - 6 wraps, and a count that is negative as
      an int makes ReadBytes throw. */
  function ParseHeaderChunk(s: seq<byte>, pos: nat): (r: Result<Read<Header>>)
    ensures r.Ok? ==> r.value.value.format <= 2 && ValidDivision(r.value.value.division)
    ensures r.Ok? ==> pos + 14 <= r.value.next <= |s|
    ensures pos + 4 <= |s| && BigEndianValue(s[pos..pos + 4]) !in {RiffTag, HeaderTag} ==>
      r == Fail(FormatError)
    ensures pos + 20 <= |s| && BigEndianValue(s[pos..pos + 4]) == RiffTag ==>
      r == ParseHeaderChunk(s, pos + 20)
    decreases |s| - pos
  {
    var tag :- ReadUInt32(s, pos);
    if tag.value == RiffTag then
      var skipped := ReadBytes(s, tag.next, 16);
      ParseHeaderChunk(s, skipped.next)
    else if tag.value != HeaderTag then Fail(FormatError)
    else
      var length :- ReadUInt32(s, tag.next);
      var format :- ReadUInt16(s, length.next);
      if format.value > 2 then Fail(FormatError)
      else
        var count :- ReadUInt16(s, format.next);
        var word :- ReadUInt16(s, count.next);
        var division :- ParseTimeDivision(word.value);
        var extra := (length.value - 6) % U32;
        if extra >= 0x8000_0000 then Fail(ArgumentError)
        else
          var skipped := ReadBytes(s, word.next, extra);
          Ok(Read(Header(format.value, count.value, division), skipped.next))
  }

  /** The 14 bytes of a standard header chunk. */
  function WriteHeaderChunk(h: Header): (b: seq<byte>)
    requires 0 <= h.format <= 2 && ValidDivision(h.division)
    ensures |b| == 14
  {
    WriteUInt32(HeaderTag) + WriteUInt32(6) + WriteUInt16(h.format)
      + WriteUInt16(h.trackCount) + WriteUInt16(EncodeDivision(h.division))
  }

  /** A written header is read back whole, and reading stops right after it. */
  lemma HeaderRoundTrip(h: Header, rest: seq<byte>)
    requires 0 <= h.format <= 2 && ValidDivision(h.division)
    ensures ParseHeaderChunk(WriteHeaderChunk(h) + rest, 0) == Ok(Read(h, 14))
  {
    var s := WriteHeaderChunk(h) + rest;
    assert s[0..4] == WriteUInt32(HeaderTag);
    assert ReadUInt32(s, 0) == Ok(Read(HeaderTag, 4));
    assert s[4..8] == WriteUInt32(6);
    assert ReadUInt32(s, 4) == Ok(Read(6, 8));
    assert s[8..10] == WriteUInt16(h.format);
    assert ReadUInt16(s, 8) == Ok(Read(h.format, 10));
    assert s[10..12] == WriteUInt16(h.trackCount);
    assert ReadUInt16(s, 10) == Ok(Read(h.trackCount, 12));
    assert s[12..14] == WriteUInt16(EncodeDivision(h.division));
    assert ReadUInt16(s, 12) == Ok(Read(EncodeDivision(h.division), 14));
    TimeDivisionRoundTrip(h.division);
    assert ReadBytes(s, 14, 0).next == 14;
  }

  // ---------------------------------------------------------------- control events

  /** (ushort)((msb << 7) | lsb) for two bytes: bit 7 of the word is set by
      either the low bit of msb or the top bit of lsb. */
  function PitchWord(msb: byte, lsb: byte): (v: int)
    ensures 0 <= v < 0x8000
    ensures lsb < 0x80 ==> v == msb * 0x80 + lsb
    ensures v <= 16383 <==> msb < 0x80
  {
    (msb / 2) * 0x100 + (if msb % 2 == 1 || lsb >= 0x80 then 0x80 else 0) + lsb % 0x80
  }

  /** A control event as the parser creates it, before any later stage has
      set times, lengths, instruments or bends. */
  predicate Fresh(e: ControlEvent)
  {
    e.time == 0.0 &&
    match e
    case NoteOn(_, _, _, _, _, rv, len, inst, rl, end, bends) =>
      rv == 0.0 && len == 0 && inst == None && rl == 0.0 && end == 0.0 && bends == []
    case PitchBend(_, _, _, _, range) => range == 0
    case _ => true
  }

  /** ParseControlEvent: the status nibble `kind` selects the message; `first`
      is its first data byte, already read. Note messages whose note number
      is out of range are dropped without reading their second byte;
      a controller keeps its number and takes the smaller of its value
      byte and 127; a program change goes through the
      MusicalInstrument constructor; a pitch bend word above 16383 is
      rejected. Returns the event (if any) and the position after it. */
  function ParseControlEvent(s: seq<byte>, pos: nat, kind: int, channel: ChannelNumber, tick: nat,
                             first: byte): (r: Result<Read<Option<ControlEvent>>>)
    requires pos <= |s|
    ensures r.Ok? ==> pos <= r.value.next <= pos + 1 && r.value.next <= |s|
    ensures r.Ok? && r.value.value.Some? ==>
      var e := r.value.value.value;
      e.channel == channel && e.tick == tick && Fresh(e)
    ensures !(8 <= kind <= 14) ==> r == Fail(FormatError)
    ensures 8 <= kind <= 10 && first > 127 ==> r == Ok(Read(None, pos))
    ensures kind == 0xB ==> (r.Ok? <==> pos < |s|) && (r.Fail? ==> r.failure == EndOfStream)
    ensures kind == 0xB && r.Ok? ==>
      r.value.next == pos + 1 && r.value.value.Some? && r.value.value.value.Controller? &&
      var c := r.value.value.value;
      c.number == first && c.value <= 127 && c.value <= s[pos] && (c.value == s[pos] || c.value == 127)
    ensures kind == 0xC ==> (r.Ok? <==> first <= 127) && (r.Ok? ==> r.value.next == pos)
    ensures kind == 0xE ==> (r.Ok? <==> pos < |s| && s[pos] < 0x80)
    ensures kind == 0xE && r.Ok? && first < 0x80 ==>
      r.value.value.Some? && r.value.value.value.PitchBend? &&
      r.value.value.value.pitchValue == s[pos] * 0x80 + first
  {
    if kind == 0x8 then
      if first > 127 then Ok(Read(None, pos))
      else
        var velocity :- ReadByte(s, pos);
        Ok(Read(Some(NoteOff(tick, 0.0, channel, first, velocity.value)), velocity.next))
    else if kind == 0x9 then
      if first > 127 then Ok(Read(None, pos))
      else
        var volume :- ReadByte(s, pos);
        Ok(Read(Some(NewNoteOn(tick, channel, first, volume.value)), volume.next))
    else if kind == 0xA then
      if first > 127 then Ok(Read(None, pos))
      else
        var value :- ReadByte(s, pos);
        Ok(Read(Some(NoteAftertouch(tick, 0.0, channel, first, value.value)), value.next))
    else if kind == 0xB then
      var value :- ReadByte(s, pos);
      var capped := if value.value < 127 then value.value else 127;
      Ok(Read(Some(Controller(tick, 0.0, channel, first, capped)), value.next))
    else if kind == 0xC then
      var instrument :- MusicalInstrument(first);
      Ok(Read(Some(InstrumentChange(tick, 0.0, channel, Some(instrument))), pos))
    else if kind == 0xD then
      Ok(Read(Some(ChannelAftertouch(tick, 0.0, channel, first)), pos))
    else if kind == 0xE then
      var msb :- ReadByte(s, pos);
      var word := PitchWord(msb.value, first);
      if word > 16383 then Fail(FormatError)
      else Ok(Read(Some(PitchBend(tick, 0.0, channel, word, 0)), msb.next))
    else
      Fail(FormatError)
  }

  /** The status byte and data bytes of a control message. */
  predicate WireEvent(e: ControlEvent)
  {
    Fresh(e) &&
    match e
    case NoteOn(_, _, _, note, volume, _, _, _, _, _, _) => note < 0x80 && volume < 0x80
    case NoteOff(_, _, _, note, velocity) => note < 0x80 && velocity < 0x80
    case NoteAftertouch(_, _, _, note, value) => note < 0x80 && value < 0x80
    case Controller(_, _, _, number, value) => number < 0x80 && value < 0x80
    case InstrumentChange(_, _, _, inst) => inst.Some? && inst.value.Musical?
    case ChannelAftertouch(_, _, _, value) => value < 0x80
    case PitchBend(_, _, _, pitch, _) => 0 <= pitch < 0x4000
  }

  function EncodeControl(e: ControlEvent): (b: seq<byte>)
    requires WireEvent(e)
    ensures 2 <= |b| <= 3 && 0x80 <= b[0] <= 0xEF && b[0] % 0x10 == e.channel
  {
    match e
    case NoteOff(_, _, ch, note, velocity) => [0x80 + ch, note, velocity]
    case NoteOn(_, _, ch, note, volume, _, _, _, _, _, _) => [0x90 + ch, note, volume]
    case NoteAftertouch(_, _, ch, note, value) => [0xA0 + ch, note, value]
    case Controller(_, _, ch, number, value) => [0xB0 + ch, number, value]
    case InstrumentChange(_, _, ch, inst) => [0xC0 + ch, inst.value.program]
    case ChannelAftertouch(_, _, ch, value) => [0xD0 + ch, value]
    case PitchBend(_, _, ch, pitch, _) => [0xE0 + ch, pitch % 0x80, pitch / 0x80]
  }

  /** Every control message the parser can produce is read back from its
      encoding, whether its status byte is present or repeated by running
      status, and reading stops right after its data bytes. */
  lemma ControlRoundTrip(e: ControlEvent, rest: seq<byte>)
    requires WireEvent(e)
    ensures var b := EncodeControl(e);
      ParseControlEvent(b[2..] + rest, 0, b[0] / 0x10, b[0] % 0x10, e.tick, b[1])
        == Ok(Read(Some(e), |b| - 2))
  {
    var b := EncodeControl(e);
    assert b[0] / 0x10 == b[0] / 0x10;
    if e.PitchBend? {
      assert e.pitchValue == (e.pitchValue / 0x80) * 0x80 + e.pitchValue % 0x80;
    }
  }

  // ---------------------------------------------------------------- meta events

  /** (sbyte) of a byte. */
  function Signed(b: byte): (v: int)
    ensures -128 <= v < 128 && (v - b) % 0x100 == 0
  {
    if b < 0x80 then b else b - 0x100
  }

  function Pow2(n: nat): (p: nat)
    ensures p >= 1
  {
    if n == 0 then 1 else 2 * Pow2(n - 1)
  }

  lemma Pow2Small()
    ensures Pow2(0) == 1 && Pow2(1) == 2 && Pow2(2) == 4 && Pow2(3) == 8
    ensures Pow2(4) == 16 && Pow2(5) == 32 && Pow2(6) == 64 && Pow2(7) == 0x80
  {
    assert Pow2(4) == 16;
    assert Pow2(7) == 0x80;
  }

  /** (byte)(1 << b): the shift count of an int shift is taken mod 32, and
      the cast keeps the low eight bits. */
  function DenominatorOf(b: byte): (d: byte)
    ensures b < 8 ==> d == Pow2(b)
    ensures 8 <= b < 32 ==> d == 0
  {
    Pow2Small();
    if b % 32 < 8 then Pow2(b % 32) else 0
  }

  /** The bytes [pos, pos + n), read one ReadByte at a time. */
  function ReadFixed(s: seq<byte>, pos: nat, n: nat): (r: Result<Read<seq<byte>>>)
    ensures r.Ok? <==> pos + n <= |s|
    ensures r.Ok? ==> r.value.value == s[pos..pos + n] && r.value.next == pos + n
    ensures r.Fail? ==> r.failure == EndOfStream
  {
    if pos + n <= |s| then Ok(Read(s[pos..pos + n], pos + n)) else Fail(EndOfStream)
  }

  function TextKindOf(kind: byte): TextKind
    requires 0x01 <= kind <= 0x07
  {
    match kind
    case 1 => PlainText
    case 2 => Copyright
    case 3 => TrackName
    case 4 => InstrumentName
    case 5 => Lyrics
    case 6 => Marker
    case _ => CuePoint
  }

  /** ParseMetaEvent: the fixed-size events check their declared length
      first (sequence number 2, channel prefix 1, end of track 0, tempo 3,
      SMPTE offset 5, time signature 4, key signature 2); a key signature
      outside -7..7 sharps is rejected; text events read `length`
      characters; other events keep their data, which may be cut short by
      the end of the stream. */
  function ParseMetaEvent(s: seq<byte>, pos: nat, kind: byte, length: nat, tick: nat): (r: Result<Read<MetaEvent>>)
    requires pos <= |s|
    ensures r.Ok? ==> r.value.value.tick == tick
    ensures r.Ok? ==> r.value.next == if pos + length <= |s| then pos + length else |s|
    ensures r.Ok? && pos + length > |s| ==> r.value.value.SequencerSpecific? || r.value.value.UnknownMeta?
    ensures kind == 0x2F ==> (r.Ok? <==> length == 0) && (r.Ok? ==> r.value.value.EndOfTrack?)
    ensures kind in {0x00, 0x20, 0x51, 0x54, 0x58, 0x59} && length != MetaLength(kind) ==> r == Fail(FormatError)
    ensures kind == 0x51 && r.Ok? ==> r.value.value.SetTempo? && r.value.value.microseconds < 0x100_0000
    ensures kind == 0x58 && r.Ok? ==>
      r.value.value.TimeSignature? && r.value.value.denominator == DenominatorOf(s[pos + 1])
    ensures kind == 0x59 && length == 2 && pos + 2 <= |s| ==>
      (r.Ok? <==> -7 <= Signed(s[pos]) <= 7)
    ensures kind == 0x59 && r.Ok? ==>
      pos + 2 <= |s| && r.value.value == KeySignature(tick, 0.0,
        KeyOfSignature(if s[pos + 1] == 0 then Major else Minor, Signed(s[pos])))
    ensures 0x01 <= kind <= 0x07 && r.Ok? ==>
      r.value.value.TextEvent? && r.value.value.text == Chars(s[pos..pos + length])
  {
    match kind
    case 0x00 =>
      if length != 2 then Fail(FormatError)
      else
        var n :- ReadUInt16(s, pos);
        Ok(Read(SequenceNumber(tick, 0.0, n.value), n.next))
    case 0x20 =>
      if length != 1 then Fail(FormatError)
      else
        var b :- ReadFixed(s, pos, 1);
        Ok(Read(ChannelPrefix(tick, 0.0, b.value[0]), b.next))
    case 0x2F =>
      if length != 0 then Fail(FormatError)
      else Ok(Read(EndOfTrack(tick, 0.0), pos))
    case 0x51 =>
      if length != 3 then Fail(FormatError)
      else
        var t :- ReadUInt24(s, pos);
        Ok(Read(SetTempo(tick, 0.0, t.value), t.next))
    case 0x54 =>
      if length != 5 then Fail(FormatError)
      else
        var b :- ReadFixed(s, pos, 5);
        Ok(Read(SmpteOffset(tick, 0.0, b.value[0], b.value[1], b.value[2], b.value[3], b.value[4]), b.next))
    case 0x58 =>
      if length != 4 then Fail(FormatError)
      else
        var b :- ReadFixed(s, pos, 4);
        Ok(Read(TimeSignature(tick, 0.0, b.value[0], DenominatorOf(b.value[1]), b.value[2], b.value[3]), b.next))
    case 0x59 =>
      if length != 2 then Fail(FormatError)
      else
        var sf :- ReadFixed(s, pos, 1);
        var sharps := Signed(sf.value[0]);
        if sharps < -7 || sharps > 7 then Fail(FormatError)
        else
          var mode :- ReadFixed(s, sf.next, 1);
          var scale := if mode.value[0] == 0 then Major else Minor;
          Ok(Read(KeySignature(tick, 0.0, KeyOfSignature(scale, sharps)), mode.next))
    case 0x7F =>
      var data := ReadBytes(s, pos, length);
      Ok(Read(SequencerSpecific(tick, 0.0, data.value), data.next))
    case _ =>
      if 0x01 <= kind <= 0x07 then
        var text :- ReadFixed(s, pos, length);
        Ok(Read(TextEvent(tick, 0.0, TextKindOf(kind), Chars(text.value)), text.next))
      else
        var data := ReadBytes(s, pos, length);
        Ok(Read(UnknownMeta(tick, 0.0, data.value), data.next))
  }

  /** The length the format fixes for a meta event kind (0 when it fixes none). */
  function MetaLength(kind: byte): nat
  {
    match kind
    case 0x00 => 2
    case 0x20 => 1
    case 0x2F => 0
    case 0x51 => 3
    case 0x54 => 5
    case 0x58 => 4
    case 0x59 => 2
    case _ => 0
  }

  // ---------------------------------------------------------------- track chunks

  /** Every control event of the track sits in the channel it names. */
  predicate Tagged(t: Track)
  {
    forall i, j :: 0 <= i < |t.channels| && 0 <= j < |t.channels[i].events| ==>
      t.channels[i].events[j].channel == i
  }

  /** `b` is `a` with events appended to its channels and meta list. */
  predicate Extends(a: Track, b: Track)
  {
    |a.channels| == |b.channels| && a.meta <= b.meta &&
    forall i :: 0 <= i < |a.channels| ==> a.channels[i].events <= b.channels[i].events
  }

  /** Track.Channels[channel].Events.Add */
  function AddControl(t: Track, e: ControlEvent): (u: Track)
    requires WellFormedTrack(t)
    ensures WellFormedTrack(u) && Extends(t, u) && u.meta == t.meta
    ensures u.channels[e.channel].events == t.channels[e.channel].events + [e]
    ensures forall i :: 0 <= i < |t.channels| && i != e.channel ==> u.channels[i] == t.channels[i]
    ensures Tagged(t) ==> Tagged(u)
  {
    t.(channels := t.channels[e.channel := Channel(e.channel, t.channels[e.channel].events + [e])])
  }

  lemma ExtendsTransitive(a: Track, b: Track, c: Track)
    requires Extends(a, b) && Extends(b, c)
    ensures Extends(a, c)
  {
    forall i | 0 <= i < |a.channels|
      ensures a.channels[i].events <= c.channels[i].events
    {
      assert a.channels[i].events <= b.channels[i].events;
    }
  }

  /** One event after its delta time, read from its status byte on. */
  datatype Step = Step(
    track: Track,         // the track with the event added, if it was kept
    next: nat,            // the position after the event
    declared: nat,        // the bytes the event accounts for in the chunk size
    lastKind: int,        // the running status after the event (0 when cancelled)
    lastChannel: ChannelNumber,
    end: bool)            // the event was the end of the track

  /** Adds a parsed control event, if the parser kept one. */
  function AddParsed(t: Track, e: Option<ControlEvent>): (u: Track)
    requires WellFormedTrack(t)
    ensures WellFormedTrack(u) && Extends(t, u) && u.meta == t.meta
    ensures Tagged(t) ==> Tagged(u)
  {
    if e.Some? then AddControl(t, e.value) else t
  }

  /** A track as ParseTrackChunk leaves it. */
  predicate Parsed(t: Track)
  {
    WellFormedTrack(t) && Tagged(t) && |t.meta| > 0 && t.meta[|t.meta| - 1].EndOfTrack?
  }

  /** `b` is `a` with events added, each in the channel it names. */
  predicate Grown(a: Track, b: Track)
  {
    WellFormedTrack(b) && Tagged(b) && Extends(a, b)
  }

  /** Every event `b` holds beyond `a` carries the given tick. */
  predicate Stamped(a: Track, b: Track, tick: nat)
    requires Extends(a, b)
  {
    (forall i, j :: 0 <= i < |a.channels| && |a.channels[i].events| <= j < |b.channels[i].events| ==>
      b.channels[i].events[j].tick == tick) &&
    forall j :: |a.meta| <= j < |b.meta| ==> b.meta[j].tick == tick
  }

  /** A step the parser can go on from: it read at least one byte, stayed
      within the stream, grew the track and left a valid running status. */
  predicate Stepped(s: seq<byte>, pos: nat, t: Track, step: Step)
  {
    pos < step.next <= |s| && Grown(t, step.track) &&
    (step.lastKind == 0 || 8 <= step.lastKind <= 14)
  }

  /** How a step accounts for the bytes it read: at least one, and past
      the end of the stream only when the stream ends first. */
  predicate Counted(s: seq<byte>, pos: nat, step: Step)
  {
    step.declared >= 1 && step.next == if pos + step.declared <= |s| then pos + step.declared else |s|
  }

  /** A control message from `pos`, whose first data byte `first` has been
      read and whose other bytes start at `at`. */
  function ControlStep(s: seq<byte>, pos: nat, at: nat, kind: int, channel: ChannelNumber, tick: nat,
                       first: byte, t: Track): (r: Result<Step>)
    requires pos < at <= |s|
    requires 8 <= kind <= 14
    requires WellFormedTrack(t) && Tagged(t)
    ensures r.Ok? ==> Stepped(s, pos, t, r.value) && Stamped(t, r.value.track, tick) && Counted(s, pos, r.value)
    ensures r.Ok? ==> r.value.lastKind == kind && r.value.lastChannel == channel && !r.value.end
  {
    var event :- ParseControlEvent(s, at, kind, channel, tick, first);
    Ok(Step(AddParsed(t, event.value), event.next, event.next - pos, kind, channel, false))
  }

  /** A meta event from `pos`, whose type byte is at `at`. */
  function MetaStep(s: seq<byte>, pos: nat, at: nat, tick: nat, lastChannel: ChannelNumber, t: Track): (r: Result<Step>)
    requires pos < at <= |s|
    requires WellFormedTrack(t) && Tagged(t)
    ensures r.Ok? ==> Stepped(s, pos, t, r.value) && Stamped(t, r.value.track, tick) && Counted(s, pos, r.value)
    ensures r.Ok? ==> r.value.lastKind == 0
    ensures r.Ok? && r.value.end ==> (r.value.next == pos + r.value.declared && |r.value.track.meta| > 0 &&
      r.value.track.meta[|r.value.track.meta| - 1].EndOfTrack?)
  {
    var kind :- ReadByte(s, at);
    var length :- DecodeVlq(s, kind.next);
    DecodedWithin(s, kind.next);
    var dataAt := kind.next + length.length;
    var meta :- ParseMetaEvent(s, dataAt, kind.value, length.value, tick);
    var u := t.(meta := t.meta + [meta.value]);
    Ok(Step(u, meta.next, dataAt - pos + length.value, 0, lastChannel, kind.value == 0x2F))
  }

  /** A system-exclusive event from `pos`, whose length starts at `at`:
      skipped. */
  function SysexStep(s: seq<byte>, pos: nat, at: nat, lastChannel: ChannelNumber, t: Track): (r: Result<Step>)
    requires pos < at <= |s|
    requires WellFormedTrack(t) && Tagged(t)
    ensures r.Ok? ==> Stepped(s, pos, t, r.value) && r.value.track == t && Counted(s, pos, r.value)
    ensures r.Ok? ==> r.value.lastKind == 0 && !r.value.end
  {
    var length :- DecodeVlq(s, at);
    DecodedWithin(s, at);
    var dataAt := at + length.length;
    var skipped := ReadBytes(s, dataAt, length.value);
    Ok(Step(t, skipped.next, dataAt - pos + length.value, 0, lastChannel, false))
  }

  /** The event part of one iteration of ParseTrackChunk's loop. A channel
      status byte (0x80-0xEF) splits into kind and channel and sets the
      running status; a data byte in status position reuses the running
      status and fails if none is saved; meta and system-exclusive events
      cancel it; any other status byte is rejected. `declared` is what the
      source adds to `size`: the bytes read, where the declared length of
      a meta or system-exclusive event counts in full even if the stream
      ends first (in which case the position is the end of the stream). */
  function ParseEvent(s: seq<byte>, pos: nat, tick: nat, lastKind: int, lastChannel: ChannelNumber, t: Track)
    : (r: Result<Step>)
    requires pos <= |s|
    requires lastKind == 0 || 8 <= lastKind <= 14
    requires WellFormedTrack(t) && Tagged(t)
    ensures r.Ok? ==> Stepped(s, pos, t, r.value)
  {
    var status :- ReadByte(s, pos);
    var eventType := status.value;
    if 0x80 <= eventType <= 0xEF then
      // a channel message: kind in the high nibble, channel in the low one
      var first :- ReadByte(s, status.next);
      ControlStep(s, pos, first.next, eventType / 0x10, eventType % 0x10, tick, first.value, t)
    else if eventType < 0x80 then
      // running status: the byte is the first data byte of a message
      if lastKind < 8 then Fail(FormatError)
      else ControlStep(s, pos, status.next, lastKind, lastChannel, tick, eventType, t)
    else if eventType == 0xFF then
      MetaStep(s, pos, status.next, tick, lastChannel, t)
    else if eventType == 0xF0 || eventType == 0xF7 then
      SysexStep(s, pos, status.next, lastChannel, t)
    else
      Fail(FormatError)
  }

  /** What one event does: it adds events stamped with the tick; `declared`
      counts at least the status byte and reaches past the stream only when
      the stream ends first; a channel status byte sets the running status,
      a data byte reuses it (and fails with none saved), meta and
      system-exclusive events cancel it, other status bytes are rejected;
      the end of the track is the last meta event and closes its count. */
  lemma ParseEventSound(s: seq<byte>, pos: nat, tick: nat, lastKind: int, lastChannel: ChannelNumber, t: Track)
    requires pos <= |s|
    requires lastKind == 0 || 8 <= lastKind <= 14
    requires WellFormedTrack(t) && Tagged(t)
    ensures var r := ParseEvent(s, pos, tick, lastKind, lastChannel, t);
      r.Ok? ==> Extends(t, r.value.track) && Stamped(t, r.value.track, tick) && Counted(s, pos, r.value)
    ensures var r := ParseEvent(s, pos, tick, lastKind, lastChannel, t);
      r.Ok? && 0x80 <= s[pos] <= 0xEF ==> r.value.lastKind == s[pos] / 0x10 && r.value.lastChannel == s[pos] % 0x10
    ensures pos < |s| && s[pos] < 0x80 && lastKind == 0 ==> ParseEvent(s, pos, tick, lastKind, lastChannel, t) == Fail(FormatError)
    ensures var r := ParseEvent(s, pos, tick, lastKind, lastChannel, t);
      r.Ok? && s[pos] < 0x80 ==> r.value.lastKind == lastKind && r.value.lastChannel == lastChannel
    ensures var r := ParseEvent(s, pos, tick, lastKind, lastChannel, t);
      r.Ok? && (s[pos] == 0xFF || s[pos] == 0xF0 || s[pos] == 0xF7) ==> r.value.lastKind == 0
    ensures pos < |s| && 0xF0 <= s[pos] && s[pos] !in {0xF0, 0xF7, 0xFF} ==>
      ParseEvent(s, pos, tick, lastKind, lastChannel, t) == Fail(FormatError)
    ensures var r := ParseEvent(s, pos, tick, lastKind, lastChannel, t);
      r.Ok? && r.value.end ==> (r.value.next == pos + r.value.declared && |r.value.track.meta| > 0 &&
        r.value.track.meta[|r.value.track.meta| - 1].EndOfTrack?)
  {
  }

  /** The state of ParseTrackChunk's loop between two events: the position,
      the absolute tick, the byte count `size`, the running status and the
      track built so far. */
  datatype Cursor = Cursor(pos: nat, tick: nat, size: nat, lastKind: int, lastChannel: ChannelNumber, track: Track)

  predicate Sane(s: seq<byte>, c: Cursor)
  {
    c.pos <= |s| && (c.lastKind == 0 || 8 <= c.lastKind <= 14) && WellFormedTrack(c.track) && Tagged(c.track)
  }

  /** Reads one event: from the position, the tick, the running status and
      the track so far to the step. */
  type EventReader = (nat, nat, int, ChannelNumber, Track) -> Result<Step>

  /** What the loop relies on from a step: it makes progress within the
      stream, grows the track and keeps the running status valid, counts
      its bytes, and an end-of-track step ends the track exactly after its
      declared bytes. */
  predicate Advances(s: seq<byte>, pos: nat, t: Track, step: Step)
  {
    Stepped(s, pos, t, step) && Counted(s, pos, step) &&
    (step.end ==> step.next == pos + step.declared && Parsed(step.track))
  }

  /** A reader whose every step advances. */
  ghost predicate Reads(s: seq<byte>, read: EventReader)
  {
    forall pos: nat, tick: nat, lastKind: int, lastChannel: ChannelNumber, t: Track ::
      read(pos, tick, lastKind, lastChannel, t).Ok? ==> Advances(s, pos, t, read(pos, tick, lastKind, lastChannel, t).value)
  }

  /** ParseEvent over the stream `s` as a reader; it fails outside
      ParseEvent's preconditions, which the loop never leaves. */
  function EventsOf(s: seq<byte>): EventReader
  {
    (pos: nat, tick: nat, lastKind: int, lastChannel: ChannelNumber, t: Track) =>
      if pos <= |s| && (lastKind == 0 || 8 <= lastKind <= 14) && WellFormedTrack(t) && Tagged(t)
      then ParseEvent(s, pos, tick, lastKind, lastChannel, t) else Fail(FormatError)
  }

  /** A reader that gives what ParseEvent gives wherever ParseEvent is
      defined. */
  ghost predicate Agrees(s: seq<byte>, read: EventReader)
  {
    forall pos: nat, tick: nat, lastKind: int, lastChannel: ChannelNumber, t: Track
      {:trigger ParseEvent(s, pos, tick, lastKind, lastChannel, t)}
      | pos <= |s| && (lastKind == 0 || 8 <= lastKind <= 14) && WellFormedTrack(t) && Tagged(t)
      :: read(pos, tick, lastKind, lastChannel, t) == ParseEvent(s, pos, tick, lastKind, lastChannel, t)
  }

  /** ParseEvent as a reader agrees with ParseEvent. */
  lemma EventsOfAgrees(s: seq<byte>)
    ensures Agrees(s, EventsOf(s))
  {
  }

  /** Every step ParseEvent takes advances. */
  lemma EventsOfReads(s: seq<byte>)
    ensures Reads(s, EventsOf(s))
  {
    forall pos: nat, tick: nat, lastKind: int, lastChannel: ChannelNumber, t: Track
      | EventsOf(s)(pos, tick, lastKind, lastChannel, t).Ok?
      ensures Advances(s, pos, t, EventsOf(s)(pos, tick, lastKind, lastChannel, t).value)
    {
      ParseEventSound(s, pos, tick, lastKind, lastChannel, t);
    }
  }

  /** One event of the loop: ParseEvent, which within its preconditions is
      what the reader gives. */
  method NextEvent(s: seq<byte>, pos: nat, tick: nat, lastKind: int, lastChannel: ChannelNumber, t: Track, ghost read: EventReader)
    returns (r: Result<Step>)
    requires pos <= |s| && (lastKind == 0 || 8 <= lastKind <= 14) && WellFormedTrack(t) && Tagged(t)
    requires Agrees(s, read)
    ensures r == read(pos, tick, lastKind, lastChannel, t)
  {
    r := ParseEvent(s, pos, tick, lastKind, lastChannel, t);
  }

  /** The body of a track chunk, event by event, as a fold of the reader:
      each event's delta time is added to the tick modulo 2^32; the bytes
      read are added to `size` modulo 2^32; the end-of-track meta event
      must bring `size` to exactly `totalSize`, and any other event that
      takes `size` past `totalSize` is rejected. */
  function Chunk(s: seq<byte>, totalSize: uint32, read: EventReader, c: Cursor): Result<Read<Track>>
    requires Sane(s, c) && Reads(s, read)
    decreases |s| - c.pos, 1
  {
    match DecodeVlq(s, c.pos)
    case Fail(e) => Fail(e)
    case Ok(delta) =>
      DecodedWithin(s, c.pos);
      var tick := (c.tick + delta.value) % U32;
      match read(c.pos + delta.length, tick, c.lastKind, c.lastChannel, c.track)
      case Fail(e) => Fail(e)
      case Ok(step) => AfterEvent(s, totalSize, read, c.pos, tick, (c.size + delta.length + step.declared) % U32, step)
  }

  /** The rest of the chunk once an event read from `from` has brought the
      tick to `tick` and the byte count to `size`. */
  function AfterEvent(s: seq<byte>, totalSize: uint32, read: EventReader, from: nat, tick: nat, size: nat, step: Step)
    : Result<Read<Track>>
    requires Reads(s, read)
    requires from < step.next <= |s| && WellFormedTrack(step.track) && Tagged(step.track)
    requires step.lastKind == 0 || 8 <= step.lastKind <= 14
    decreases |s| - from, 0
  {
    if step.end then
      if size == totalSize then Ok(Read(step.track, step.next)) else Fail(FormatError)
    else if size > totalSize then Fail(FormatError)
    else Chunk(s, totalSize, read, Cursor(step.next, tick, size, step.lastKind, step.lastChannel, step.track))
  }

  /** Chunk when the next delta time fails to read. */
  lemma ChunkNoDelta(s: seq<byte>, totalSize: uint32, read: EventReader, c: Cursor)
    requires Sane(s, c) && Reads(s, read) && DecodeVlq(s, c.pos).Fail?
    ensures Chunk(s, totalSize, read, c) == Fail(DecodeVlq(s, c.pos).failure)
  {
  }

  /** Chunk when the event after the delta time fails to parse. */
  lemma ChunkNoEvent(s: seq<byte>, totalSize: uint32, read: EventReader, c: Cursor, d: VlqRead, tick: nat, e: Failure)
    requires Sane(s, c) && Reads(s, read) && DecodeVlq(s, c.pos) == Ok(d)
    requires tick == (c.tick + d.value) % U32
    requires read(c.pos + d.length, tick, c.lastKind, c.lastChannel, c.track) == Fail(e)
    ensures Chunk(s, totalSize, read, c) == Fail(e)
  {
  }

  /** Chunk after one event has been read. */
  lemma ChunkStep(s: seq<byte>, totalSize: uint32, read: EventReader, c: Cursor, d: VlqRead, tick: nat, step: Step, size: nat)
    requires Sane(s, c) && Reads(s, read) && DecodeVlq(s, c.pos) == Ok(d)
    requires tick == (c.tick + d.value) % U32
    requires read(c.pos + d.length, tick, c.lastKind, c.lastChannel, c.track) == Ok(step)
    requires size == (c.size + d.length + step.declared) % U32
    ensures c.pos + d.length <= |s| && Advances(s, c.pos + d.length, c.track, step)
    ensures Chunk(s, totalSize, read, c) == AfterEvent(s, totalSize, read, c.pos, tick, size, step)
  {
    DecodedWithin(s, c.pos);
  }

  /** What a successful track body gives: the track only grows, every
      control event sits in its channel, the last meta event is the end of
      the track, and the bytes read add up to `totalSize` modulo 2^32. */
  lemma {:induction false} ChunkSound(s: seq<byte>, totalSize: uint32, read: EventReader, c: Cursor)
    requires Sane(s, c) && Reads(s, read)
    ensures var r := Chunk(s, totalSize, read, c);
      r.Ok? ==> (Grown(c.track, r.value.value) && Parsed(r.value.value) &&
        c.pos < r.value.next <= |s| && (c.size + (r.value.next - c.pos)) % U32 == totalSize)
    decreases |s| - c.pos, 1
  {
    var delta := DecodeVlq(s, c.pos);
    if delta.Ok? {
      var d := delta.value;
      var tick := (c.tick + d.value) % U32;
      DecodedWithin(s, c.pos);
      var step := read(c.pos + d.length, tick, c.lastKind, c.lastChannel, c.track);
      if step.Ok? {
        var st := step.value;
        var size := (c.size + d.length + st.declared) % U32;
        ChunkStep(s, totalSize, read, c, d, tick, st, size);
        AfterEventSound(s, totalSize, read, c, d.length, tick, size, st);
      }
    }
  }

  /** The induction step of ChunkSound, for one event after a delta time
      of `deltaLength` bytes. */
  lemma {:induction false} AfterEventSound(s: seq<byte>, totalSize: uint32, read: EventReader, c: Cursor,
                                           deltaLength: nat, tick: nat, size: nat, st: Step)
    requires Sane(s, c) && Reads(s, read) && c.pos + deltaLength <= |s|
    requires Advances(s, c.pos + deltaLength, c.track, st)
    requires size == (c.size + deltaLength + st.declared) % U32
    ensures var r := AfterEvent(s, totalSize, read, c.pos, tick, size, st);
      r.Ok? ==> (Grown(c.track, r.value.value) && Parsed(r.value.value) &&
        c.pos < r.value.next <= |s| && (c.size + (r.value.next - c.pos)) % U32 == totalSize)
    decreases |s| - c.pos, 0
  {
    if !st.end && size <= totalSize {
      var c' := Cursor(st.next, tick, size, st.lastKind, st.lastChannel, st.track);
      ChunkSound(s, totalSize, read, c');
      var r := Chunk(s, totalSize, read, c');
      if r.Ok? {
        ExtendsTransitive(c.track, st.track, r.value.value);
        SizeAddsUp(c.size, deltaLength + st.declared, r.value.next - st.next);
      }
    }
  }

  /** Sizes added modulo 2^32 in two steps are added in one. */
  lemma SizeAddsUp(a: nat, b: nat, c: nat)
    ensures ((a + b) % U32 + c) % U32 == (a + (b + c)) % U32
  {
  }

  /** The body of a track chunk: events until the end-of-track meta event,
      whose declared end must close the chunk exactly. The ghost `read` is
      ParseEvent seen as a reader (Agrees), so that the loop is proved
      against the fold Chunk without unfolding ParseEvent itself. */
  method ParseTrackEvents(s: seq<byte>, body: nat, totalSize: uint32, track: Track, ghost read: EventReader) returns (r: Result<Read<Track>>)
    requires body <= |s|
    requires WellFormedTrack(track) && Tagged(track) && Reads(s, read) && Agrees(s, read)
    ensures r == Chunk(s, totalSize, read, Cursor(body, 0, 0, 0, 0, track))
  {
    var lastKind := 0;
    var lastChannel: ChannelNumber := 0;
    var tick: nat := 0;
    var size: nat := 0;
    var pos := body;
    var t := track;
    while true
      invariant Sane(s, Cursor(pos, tick, size, lastKind, lastChannel, t))
      invariant Chunk(s, totalSize, read, Cursor(pos, tick, size, lastKind, lastChannel, t)) ==
        Chunk(s, totalSize, read, Cursor(body, 0, 0, 0, 0, track))
      decreases |s| - pos
    {
      ghost var c := Cursor(pos, tick, size, lastKind, lastChannel, t);
      var delta := ReadVariableLengthValue(s, pos);
      if delta.Fail? {
        ChunkNoDelta(s, totalSize, read, c);
        return Fail(delta.failure);
      }
      tick := (tick + delta.value.value) % U32;
      var step := NextEvent(s, pos + delta.value.length, tick, lastKind, lastChannel, t, read);
      if step.Fail? {
        ChunkNoEvent(s, totalSize, read, c, delta.value, tick, step.failure);
        return Fail(step.failure);
      }
      size := (size + delta.value.length + step.value.declared) % U32;
      ChunkStep(s, totalSize, read, c, delta.value, tick, step.value, size);
      if step.value.end {
        if size == totalSize {
          return Ok(Read(step.value.track, step.value.next));
        }
        return Fail(FormatError);
      }
      if size > totalSize {
        return Fail(FormatError);
      }
      t := step.value.track;
      lastKind, lastChannel := step.value.lastKind, step.value.lastChannel;
      pos := step.value.next;
    }
  }

  /** The chunk at `c` is a track chunk whose declared size, modulo 2^32,
      is the number of bytes up to `next`. */
  ghost predicate TrackChunkAt(s: seq<byte>, c: nat, next: nat)
  {
    c + 8 <= next <= |s| && BigEndianValue(s[c..c + 4]) == TrackTag &&
    (next - c - 8) % U32 == BigEndianValue(s[c + 4..c + 8])
  }

  /** ParseTrackChunk: chunks of any other type are skipped whole (a size
      that is negative as an int makes ReadBytes throw); the first track
      chunk is parsed into `track`. */
  function TrackChunk(s: seq<byte>, pos: nat, track: Track, read: EventReader): Result<Read<Track>>
    requires pos <= |s|
    requires WellFormedTrack(track) && Tagged(track) && Reads(s, read)
    decreases |s| - pos
  {
    var kind :- ReadUInt32(s, pos);
    var total :- ReadUInt32(s, kind.next);
    if kind.value != TrackTag then
      if total.value >= 0x8000_0000 then Fail(ArgumentError)
      else
        var skipped := ReadBytes(s, total.next, total.value);
        TrackChunk(s, skipped.next, track, read)
    else
      Chunk(s, total.value, read, Cursor(total.next, 0, 0, 0, 0, track))
  }

  /** A parsed track chunk: the track only grows, ends with the end of the
      track, and the bytes read are those a track chunk at or after `pos`
      declares. */
  lemma {:induction false} TrackChunkSound(s: seq<byte>, pos: nat, track: Track, read: EventReader)
    requires pos <= |s|
    requires WellFormedTrack(track) && Tagged(track) && Reads(s, read)
    ensures var r := TrackChunk(s, pos, track, read);
      r.Ok? ==> (Grown(track, r.value.value) && Parsed(r.value.value) &&
        exists c :: pos <= c && TrackChunkAt(s, c, r.value.next))
    decreases |s| - pos
  {
    var kind := ReadUInt32(s, pos);
    if kind.Ok? {
      var total := ReadUInt32(s, kind.value.next);
      if total.Ok? {
        if kind.value.value != TrackTag {
          if total.value.value < 0x8000_0000 {
            var skipped := ReadBytes(s, total.value.next, total.value.value);
            TrackChunkSound(s, skipped.next, track, read);
            var r := TrackChunk(s, skipped.next, track, read);
            if r.Ok? {
              var c :| skipped.next <= c && TrackChunkAt(s, c, r.value.next);
              assert pos <= c;
            }
          }
        } else {
          var c := Cursor(total.value.next, 0, 0, 0, 0, track);
          ChunkSound(s, total.value.value, read, c);
          var r := Chunk(s, total.value.value, read, c);
          if r.Ok? {
            assert TrackChunkAt(s, pos, r.value.next);
          }
        }
      }
    }
  }

  /** The recursive method ParseTrackChunk computes TrackChunk, with the
      events read by ParseEvent through `read`. */
  method ParseTrackChunk(s: seq<byte>, pos: nat, track: Track, ghost read: EventReader) returns (r: Result<Read<Track>>)
    requires pos <= |s|
    requires WellFormedTrack(track) && Tagged(track) && Reads(s, read) && Agrees(s, read)
    ensures r == TrackChunk(s, pos, track, read)
    decreases |s| - pos
  {
    var kind := ReadUInt32(s, pos);
    if kind.Fail? {
      return Fail(kind.failure);
    }
    var total := ReadUInt32(s, kind.value.next);
    if total.Fail? {
      return Fail(total.failure);
    }
    if kind.value.value != TrackTag {
      if total.value.value >= 0x8000_0000 {
        return Fail(ArgumentError);
      }
      var skipped := ReadBytes(s, total.value.next, total.value.value);
      r := ParseTrackChunk(s, skipped.next, track, read);
      return;
    }
    r := ParseTrackEvents(s, total.value.next, total.value.value, track, read);
  }

  /** The model a file parses into, before any simplifier stage runs. */
  function InitialModel(h: Header, tracks: seq<Track>): (m: Model)
    ensures m.tracks == tracks && m.format == h.format && m.division == h.division
  {
    Model(h.format, h.division, 0.0, [], tracks, 0.0, false, 0.0, None, false)
  }

  /** Reads the track chunk at a position into a fresh track. */
  type ChunkReader = nat -> Result<Read<Track>>

  /** A chunk reader whose every chunk ends within the stream and ends its
      track. */
  ghost predicate ReadsChunks(s: seq<byte>, chunk: ChunkReader)
  {
    forall pos: nat :: chunk(pos).Ok? ==> chunk(pos).value.next <= |s| && Parsed(chunk(pos).value.value)
  }

  /** TrackChunk into a fresh track, as a chunk reader. */
  function ChunksOf(s: seq<byte>, read: EventReader): ChunkReader
    requires Reads(s, read)
  {
    (pos: nat) => if pos <= |s| then TrackChunk(s, pos, EmptyTrack(), read) else Fail(FormatError)
  }

  /** A chunk reader that gives what TrackChunk gives into a fresh track. */
  ghost predicate ChunksAgree(s: seq<byte>, read: EventReader, chunk: ChunkReader)
    requires Reads(s, read)
  {
    forall pos: nat {:trigger TrackChunk(s, pos, EmptyTrack(), read)} | pos <= |s| ::
      chunk(pos) == TrackChunk(s, pos, EmptyTrack(), read)
  }

  /** Every chunk TrackChunk reads ends within the stream and ends its track. */
  lemma ChunksOfReads(s: seq<byte>, read: EventReader)
    requires Reads(s, read)
    ensures ReadsChunks(s, ChunksOf(s, read))
  {
    forall pos: nat | ChunksOf(s, read)(pos).Ok?
      ensures ChunksOf(s, read)(pos).value.next <= |s| && Parsed(ChunksOf(s, read)(pos).value.value)
    {
      TrackChunkSound(s, pos, EmptyTrack(), read);
    }
  }

  /** TrackChunk as a chunk reader agrees with TrackChunk. */
  lemma ChunksOfAgree(s: seq<byte>, read: EventReader)
    requires Reads(s, read)
    ensures ChunksAgree(s, read, ChunksOf(s, read))
  {
  }

  /** One pass of ParseMidi's loop: a fresh track, then ParseTrackChunk. */
  method NextChunk(s: seq<byte>, pos: nat, ghost read: EventReader, ghost chunk: ChunkReader)
    returns (r: Result<Read<Track>>)
    requires pos <= |s| && Reads(s, read) && Agrees(s, read) && ChunksAgree(s, read, chunk)
    ensures r == chunk(pos)
  {
    var empty := NewTrack();
    r := ParseTrackChunk(s, pos, empty, read);
  }

  /** `count` more track chunks from `pos`, each read by `chunk`, appended
      to `done`. */
  function TrackChunks(pos: nat, count: nat, done: seq<Track>, chunk: ChunkReader): Result<seq<Track>>
    decreases count
  {
    if count == 0 then Ok(done)
    else
      var parsed :- chunk(pos);
      TrackChunks(parsed.next, count - 1, done + [parsed.value], chunk)
  }

  /** The chunks read keep the tracks already read and add exactly `count`
      tracks, each ending with the end of the track. */
  lemma {:induction false} TrackChunksSound(s: seq<byte>, pos: nat, count: nat, done: seq<Track>, chunk: ChunkReader)
    requires ReadsChunks(s, chunk)
    ensures var r := TrackChunks(pos, count, done, chunk);
      r.Ok? ==> (|r.value| == |done| + count && r.value[..|done|] == done &&
        forall i :: |done| <= i < |r.value| ==> Parsed(r.value[i]))
    decreases count
  {
    if count > 0 {
      var parsed := chunk(pos);
      if parsed.Ok? {
        var done' := done + [parsed.value.value];
        TrackChunksSound(s, parsed.value.next, count - 1, done', chunk);
        var r := TrackChunks(parsed.value.next, count - 1, done', chunk);
        if r.Ok? {
          assert r.value[..|done'|][..|done|] == done;
          assert r.value[|done|] == done'[|done|];
        }
      }
    }
  }

  /** The parsing half of Parse: the header, then one track chunk per track
      the header announces. */
  function Midi(s: seq<byte>): Result<Model>
  {
    EventsOfReads(s);
    MidiWith(s, ChunksOf(s, EventsOf(s)))
  }

  /** Midi with each track chunk read by `chunk`. */
  function MidiWith(s: seq<byte>, chunk: ChunkReader): Result<Model>
  {
    var header :- ParseHeaderChunk(s, 0);
    var tracks :- TrackChunks(header.next, header.value.trackCount, [], chunk);
    Ok(InitialModel(header.value, tracks))
  }

  /** A parsed file holds as many tracks as its header announces, each with
      sixteen channels and ending with the end of the track. */
  lemma MidiSound(s: seq<byte>)
    ensures Midi(s).Ok? ==> ParseHeaderChunk(s, 0).Ok?
    ensures Midi(s).Ok? ==> var h := ParseHeaderChunk(s, 0).value.value;
      Midi(s).value == InitialModel(h, Midi(s).value.tracks) && |Midi(s).value.tracks| == h.trackCount
    ensures Midi(s).Ok? ==> WellFormed(Midi(s).value)
    ensures Midi(s).Ok? ==> forall i :: 0 <= i < |Midi(s).value.tracks| ==> Parsed(Midi(s).value.tracks[i])
  {
    EventsOfReads(s);
    ChunksOfReads(s, EventsOf(s));
    var header := ParseHeaderChunk(s, 0);
    if header.Ok? {
      TrackChunksSound(s, header.value.next, header.value.value.trackCount, [], ChunksOf(s, EventsOf(s)));
    }
  }

  /** ParseMidi's loop reads the track chunks into fresh 16-channel tracks. */
  method ParseMidi(s: seq<byte>) returns (r: Result<Model>)
    ensures r == Midi(s)
  {
    EventsOfReads(s);
    EventsOfAgrees(s);
    ChunksOfReads(s, EventsOf(s));
    ChunksOfAgree(s, EventsOf(s));
    r := ReadMidi(s, EventsOf(s), ChunksOf(s, EventsOf(s)));
  }

  /** ParseMidi with the events read by ParseEvent, seen as `read`, and the
      track chunks read by ParseTrackChunk, seen as `chunk`. */
  method ReadMidi(s: seq<byte>, ghost read: EventReader, ghost chunk: ChunkReader) returns (r: Result<Model>)
    requires Reads(s, read) && Agrees(s, read) && ChunksAgree(s, read, chunk) && ReadsChunks(s, chunk)
    ensures r == MidiWith(s, chunk)
  {
    var header := ParseHeaderChunk(s, 0);
    if header.Fail? {
      return Fail(header.failure);
    }
    var h := header.value.value;
    var pos: nat := header.value.next;
    var tracks: seq<Track> := [];
    while |tracks| < h.trackCount
      invariant pos <= |s|
      invariant |tracks| <= h.trackCount
      invariant TrackChunks(pos, h.trackCount - |tracks|, tracks, chunk) == TrackChunks(header.value.next, h.trackCount, [], chunk)
      decreases h.trackCount - |tracks|
    {
      var parsed := NextChunk(s, pos, read, chunk);
      if parsed.Fail? {
        return Fail(parsed.failure);
      }
      tracks := tracks + [parsed.value.value];
      pos := parsed.value.next;
    }
    return Ok(InitialModel(h, tracks));
  }
}
