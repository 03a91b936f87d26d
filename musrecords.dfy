/** The record encoders of ModelToMusicEvents.cs and the EventType.cs record
    kinds. A .mus file is a flat list of four-byte records, each written
    through System.IO.BinaryWriter (which writes a ushort low byte first).
    A Record value stands for one call of a Write* helper; Encode gives
    the four bytes that call writes. */
module MusRecords {
  import opened Wrappers
  import opened MathExt
  import opened Instruments
  import opened Events
  import BigEndian
  import ClusterRanges

  type uint16 = BigEndian.uint16

  /** EventType.cs, numbered from 0 in declaration order. */
  datatype EventType =
    NoteOnEvent | NoteOffEvent | PercussionOnEvent | PercussionOffEvent
    | SmallSpaceEvent | BigSpaceEvent | EndEvent

  function TypeCode(t: EventType): (b: byte)
    ensures b <= 6 && TypeOfCode(b) == Some(t)
  {
    match t
    case NoteOnEvent => 0
    case NoteOffEvent => 1
    case PercussionOnEvent => 2
    case PercussionOffEvent => 3
    case SmallSpaceEvent => 4
    case BigSpaceEvent => 5
    case EndEvent => 6
  }

  /** The record kind a code names, as a reader of the file decodes it. */
  function TypeOfCode(b: int): Option<EventType>
  {
    if b == 0 then Some(NoteOnEvent)
    else if b == 1 then Some(NoteOffEvent)
    else if b == 2 then Some(PercussionOnEvent)
    else if b == 3 then Some(PercussionOffEvent)
    else if b == 4 then Some(SmallSpaceEvent)
    else if b == 5 then Some(BigSpaceEvent)
    else if b == 6 then Some(EndEvent)
    else None
  }

  /** One call of WriteNoteOn, WriteNoteOff, WritePercussionOn,
      WritePercussionOff, WriteSmallSpace, WriteBigSpace or WriteSongEnd,
      with its arguments. */
  datatype Record =
    | NoteOnRecord(pitch: byte, volume: real, instrument: Instrument, channel: byte)
    | NoteOffRecord(pitch: byte, channel: byte)
    | PercussionOnRecord(drum: byte, volume: real)
    | PercussionOffRecord(drum: byte)
    | SmallSpace(tempo: uint16, chord: int)
    | BigSpace(tempo: uint16, chord: int)
    | SongEnd

  function Kind(r: Record): EventType
  {
    match r
    case NoteOnRecord(_, _, _, _) => NoteOnEvent
    case NoteOffRecord(_, _) => NoteOffEvent
    case PercussionOnRecord(_, _) => PercussionOnEvent
    case PercussionOffRecord(_) => PercussionOffEvent
    case SmallSpace(_, _) => SmallSpaceEvent
    case BigSpace(_, _) => BigSpaceEvent
    case SongEnd => EndEvent
  }

  /** (InstrumentCluster)channel: the cluster whose enum value the channel is. */
  function ChannelCluster(ch: int): (c: Option<InstrumentCluster>)
    ensures c.Some? <==> 0 <= ch < 12
    ensures c.Some? ==> ClusterNumber(c.value) == ch
  {
    if ch == 0 then Some(Piano)
    else if ch == 1 then Some(AcusticGuitar)
    else if ch == 2 then Some(Orchestra)
    else if ch == 3 then Some(Bass)
    else if ch == 4 then Some(Brass)
    else if ch == 5 then Some(Warm)
    else if ch == 6 then Some(ElectricGuitar)
    else if ch == 7 then Some(Organ)
    else if ch == 8 then Some(ClappingBox)
    else if ch == 9 then Some(Percussive)
    else if ch == 10 then Some(Violin)
    else if ch == 11 then Some(Nonmusical)
    else None
  }

  /** ClusterRanges.Min((InstrumentCluster)channel): only the channels of
      the eleven musical clusters have a range; any other lookup throws. */
  function LowestPitch(ch: int): (r: Result<int>)
    ensures r.Ok? <==> 0 <= ch <= 10
    ensures r.Ok? ==> 24 <= r.value <= 55 && r.value == ClusterRanges.Min(ChannelCluster(ch).value).value
  {
    match ChannelCluster(ch)
    case None => Fail(KeyNotFound)
    case Some(c) => ClusterRanges.Min(c)
  }

  /** The arguments the source passes make every call succeed: a note's
      channel is the channel of a musical cluster. */
  predicate Writable(r: Record)
  {
    (r.NoteOnRecord? || r.NoteOffRecord?) ==> r.channel <= 10
  }

  predicate AllWritable(rs: seq<Record>)
  {
    forall k :: 0 <= k < |rs| ==> Writable(rs[k])
  }

  /** The volume byte of WriteNoteOn and WritePercussionOn: the square root
      of the deviation from the average volume, carrying the deviation's
      sign (Math.Sign(v) * Math.Pow(|v|, 1/2)), scaled around 128, rounded
      half up by the (int) cast and clamped to a byte. The square root is
      the one the model takes as a parameter. */
  function VolumeByte(maths: Maths, v: real): (b: byte)
    ensures v == 0.0 ==> b == 128
  {
    var root := maths.sqrt(if v < 0.0 then -v else v);
    var signed := if v > 0.0 then root else if v < 0.0 then -root else 0.0;
    Clamp(Trunc((signed + 1.0) * 128.0 + 0.5), 0, 255)
  }

  /** The four bytes one Write* call emits. (byte) casts keep the low
      eight bits. */
  function Encode(maths: Maths, r: Record): (b: seq<byte>)
    requires Writable(r)
    ensures |b| == 4
  {
    match r
    case NoteOnRecord(pitch, volume, instrument, channel) =>
      [(TypeCode(NoteOnEvent) + channel * 16) % 256, (pitch - LowestPitch(channel).value) % 256,
       VolumeByte(maths, volume), Id(instrument) % 256]
    case NoteOffRecord(pitch, channel) =>
      [TypeCode(NoteOffEvent), (pitch - LowestPitch(channel).value) % 256, channel, 0]
    case PercussionOnRecord(drum, volume) =>
      [TypeCode(PercussionOnEvent), (drum - PercussionMinNote) % 256, VolumeByte(maths, volume), 0]
    case PercussionOffRecord(drum) =>
      [TypeCode(PercussionOffEvent), (drum - PercussionMinNote) % 256, 0, 0]
    case SmallSpace(tempo, chord) =>
      [TypeCode(SmallSpaceEvent), tempo % 256, tempo / 256, chord % 256]
    case BigSpace(tempo, chord) =>
      [TypeCode(BigSpaceEvent), tempo % 256, tempo / 256, chord % 256]
    case SongEnd =>
      [TypeCode(EndEvent), 0, 0, 0]
  }

  /** A reader gets every field back from the four bytes: the low nibble of
      the first byte names the kind (for a note on, the high nibble is the
      channel); a pitch comes back by adding the channel's lowest pitch, a
      drum by adding 35, a tempo from its two bytes low first, and a chord
      number in 0..255 from the last byte. */
  lemma EncodeReadsBack(maths: Maths, r: Record)
    requires Writable(r)
    ensures var b := Encode(maths, r);
      TypeOfCode(b[0] % 16) == Some(Kind(r)) &&
      (r.NoteOnRecord? && r.channel < 16 ==> b[0] / 16 == r.channel && b[3] == Id(r.instrument) % 256) &&
      (r.NoteOffRecord? ==> b[2] == r.channel) &&
      ((r.NoteOnRecord? || r.NoteOffRecord?) && LowestPitch(r.channel).value <= r.pitch ==>
        b[1] as int + LowestPitch(r.channel).value == r.pitch) &&
      ((r.PercussionOnRecord? || r.PercussionOffRecord?) && PercussionMinNote <= r.drum ==>
        b[1] as int + PercussionMinNote == r.drum) &&
      ((r.SmallSpace? || r.BigSpace?) ==> b[1] as int + 256 * b[2] as int == r.tempo) &&
      ((r.SmallSpace? || r.BigSpace?) && 0 <= r.chord < 256 ==> b[3] == r.chord)
  {
    var b := Encode(maths, r);
    match r
    case NoteOnRecord(pitch, volume, instrument, channel) =>
      NoteOnReadsBack(maths, r, b);
    case NoteOffRecord(pitch, channel) =>
      NoteOffReadsBack(maths, r, b);
    case PercussionOnRecord(drum, volume) =>
      PercussionReadsBack(maths, r, b);
    case PercussionOffRecord(drum) =>
      PercussionReadsBack(maths, r, b);
    case SmallSpace(tempo, chord) =>
      SpaceReadsBack(maths, r, b);
    case BigSpace(tempo, chord) =>
      SpaceReadsBack(maths, r, b);
    case SongEnd =>
  }

  lemma NoteOnReadsBack(maths: Maths, r: Record, b: seq<byte>)
    requires r.NoteOnRecord? && Writable(r) && b == Encode(maths, r)
    ensures TypeOfCode(b[0] % 16) == Some(NoteOnEvent) && b[0] / 16 == r.channel && b[3] == Id(r.instrument) % 256
    ensures LowestPitch(r.channel).value <= r.pitch ==> b[1] as int + LowestPitch(r.channel).value == r.pitch
  {
    assert b[0] == r.channel * 16;
  }

  lemma NoteOffReadsBack(maths: Maths, r: Record, b: seq<byte>)
    requires r.NoteOffRecord? && Writable(r) && b == Encode(maths, r)
    ensures TypeOfCode(b[0] % 16) == Some(NoteOffEvent) && b[2] == r.channel
    ensures LowestPitch(r.channel).value <= r.pitch ==> b[1] as int + LowestPitch(r.channel).value == r.pitch
  {
    assert b[1] == (r.pitch - LowestPitch(r.channel).value) % 256;
  }

  lemma PercussionReadsBack(maths: Maths, r: Record, b: seq<byte>)
    requires (r.PercussionOnRecord? || r.PercussionOffRecord?) && b == Encode(maths, r)
    ensures TypeOfCode(b[0] % 16) == Some(Kind(r))
    ensures PercussionMinNote <= r.drum ==> b[1] as int + PercussionMinNote == r.drum
  {
    assert b[1] == (r.drum - PercussionMinNote) % 256;
  }

  lemma SpaceReadsBack(maths: Maths, r: Record, b: seq<byte>)
    requires (r.SmallSpace? || r.BigSpace?) && b == Encode(maths, r)
    ensures TypeOfCode(b[0] % 16) == Some(Kind(r)) && b[1] as int + 256 * b[2] as int == r.tempo
    ensures 0 <= r.chord < 256 ==> b[3] == r.chord
  {
    assert b[1] == r.tempo % 256 && b[2] == r.tempo / 256;
  }

  /** WriteNoteOn's first byte is NoteOnEvent | channel << 4. */
  lemma NoteOnHeader(maths: Maths, r: Record)
    requires r.NoteOnRecord? && r.channel <= 10
    ensures Encode(maths, r)[0] == TypeCode(NoteOnEvent) + 16 * r.channel
    ensures Encode(maths, r)[0] % 16 == TypeCode(NoteOnEvent) && Encode(maths, r)[0] / 16 == r.channel
  {
  }

  /** WriteSongEnd writes an EndEvent and three zero bytes. */
  lemma SongEndBytes(maths: Maths)
    ensures Encode(maths, SongEnd) == [TypeCode(EndEvent), 0, 0, 0]
  {
  }

  /** The bytes of a list of calls, in order. */
  function Bytes(maths: Maths, rs: seq<Record>): (b: seq<byte>)
    requires AllWritable(rs)
    ensures |b| == 4 * |rs|
  {
    if rs == [] then [] else Bytes(maths, rs[..|rs| - 1]) + Encode(maths, rs[|rs| - 1])
  }

  /** The bytes of two lists of calls one after the other. */
  lemma {:induction false} BytesAppend(maths: Maths, a: seq<Record>, b: seq<Record>)
    requires AllWritable(a) && AllWritable(b)
    ensures AllWritable(a + b) && Bytes(maths, a + b) == Bytes(maths, a) + Bytes(maths, b)
  {
    if b != [] {
      var n := |b| - 1;
      BytesAppend(maths, a, b[..n]);
      assert (a + b)[..|a + b| - 1] == a + b[..n];
      assert (a + b)[|a + b| - 1] == b[n];
      assert Bytes(maths, a + b) == Bytes(maths, a + b[..n]) + Encode(maths, b[n]);
    } else {
      assert a + b == a;
    }
  }

  /** Record k occupies bytes 4k to 4k + 3 and nothing else does. */
  lemma {:induction false} BytesAt(maths: Maths, rs: seq<Record>, k: nat)
    requires AllWritable(rs) && k < |rs|
    ensures Bytes(maths, rs)[4 * k..4 * k + 4] == Encode(maths, rs[k])
  {
    var n := |rs| - 1;
    var front := Bytes(maths, rs[..n]);
    assert Bytes(maths, rs) == front + Encode(maths, rs[n]);
    if k != n {
      BytesAt(maths, rs[..n], k);
      assert rs[..n][k] == rs[k];
      assert (front + Encode(maths, rs[n]))[4 * k..4 * k + 4] == front[4 * k..4 * k + 4];
    }
  }
}
