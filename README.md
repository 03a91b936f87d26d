# MIDI analysis core, modelled in Dafny

This project models the analysis core of a C# MIDI toolkit. The toolkit reads Standard MIDI Files into a timeline model, simplifies that model, detects the metre, the key and the chords, and writes a compact 4-byte-per-record `.mus` stream for a generative model. Everything is deterministic and single-threaded, and the model keeps it that way. The Dafny mirrors the structure of `Analyzer/Sources`, one module per source file (the file a module models is named in its header comment).

- **Byte layer.** `BigEndian` and `Vlq` cover the big-endian readers and writers and the variable-length quantities of Standard MIDI Files 1.0 ("Conventions"). Each write is proved to round-trip through its read. `Parser` covers the header chunk, the time division, the track chunk with running status, and control and meta events ("Header Chunks" and "Track Chunks"). Parsing is a function or a loop over `seq<byte>` with a byte position, and a `FormatException` becomes a `Result` failure.
- **Timeline model.** `Keys` is the 24-state `Key` value and its 0..23 index. `Events`, `Instruments` and `ClusterRanges` are the controller, General MIDI program and pitch-range lookups. `Tracks` is the track/channel container and the `EventsOfType` enumerations, which list the events in the order LinqToMidi visits them.
- **Simplifier stages.** `TimeCalculator` maps ticks to real time and matches note ends. `VolumeChangeCollector` and `InstrumentChangeCollector` assign loudness and instruments. `Sustainer` is the sustain-pedal automaton and `PitchBendCalculator` the RPN 0,0 pitch-bend-range automaton, with the bends joined and discretised. `Transposer`, `Clipper`, `Playability` and `TimeChanger` cover transposition, clipping, channel playability and the note-gap histograms.
- **Analysers.** The metre detector is `Pips`, `Tactus`, `MetreGlobals`, `BeatSegments`, `BeatStrength`, `MetreFit`, `Normalizer`, `BeatNotes` and `Padding`. Its parts are the tempo-tolerance automaton, the tactus DP with its backtrack, the beat-strength DP, the implicit grid from time signatures, the beat lengths and the first-beat padding. `KeyFinder` is the key detector: histogram rotation against the Krumhansl profiles, and the windowed alternative. `SegmentNotes`, `ChordSegments`, `ChordAnalysis` and `ChordAnalyzers` are the chord decoder, a 24-state Viterbi pass with backtrack. Its optimality over every chord sequence is proved in `ChordAnalysis.BestChordsAreOptimal`.
- **Output.** `NoteStreams` is the piano roll's forward-only note cursor. `MusRecords`, `NoteClusters`, `MusWriter` and `MusParser` cover the `.mus` encoder. `MusParser` holds the frame loop with its hold tables. `MusWriter` holds the cluster writer with its spaces. `MusRecords` holds the 4-byte records, which are proved to read back.

Shared pieces:
- `Wrappers` holds Option and Result. Every exception the source throws is a `Failure` value naming the .NET exception.
- `MathExt` holds `Clamp`, `MaxWithIndex` and `MinWithIndex`. It also holds C#'s truncating division, remainder and cast.
- `Ordering` holds LINQ's stable `OrderBy`, proved against an insertion sort.
- `Latest` holds the "latest at or before" lookup the collectors share.

Conventions:
- Time is `real` milliseconds and doubles are `real`.
- Log, Sqrt, Exp, Pow and the correlation are fields of a `Maths` record passed in as a parameter, so nothing depends on their values beyond what a lemma assumes of them.
- Where the source mutates objects in place, the model uses a class with `modifies` clauses or an array: `Tactus.Tactus`, `BeatStrength.BeatStrengthAnalyzer`, `Sustainer.Sustainer`, `ChordAnalyzers.ChordAnalyzer`, `NoteStreams.NoteStream`, and the hold tables of `MusParser`.
- Elsewhere the model uses methods whose loops carry invariants, proved equal to a specification function.
- A model is `WellFormed` when every track holds the sixteen channels its constructor creates. Every track the source builds has that shape.

Corrected behaviour (see "## Findings"):
- The `Tactus.Tactus` class, and so the metre detector built on it, labels the chosen beats from the best entry's own length. The source labels them from the previous length (`Tactus.cs:70,76`). `Tactus.EvaluateAsWritten` keeps the written version beside it.
- `KeyFinder.AlternativeAnalyze` also counts the window still open when the notes run out. `KeyFinder.AlternativeKey` is the written version, which never counts it.

## Model

| member | source | states |
|---|---|---|
| BigEndian.ReadUInt16 | Analyzer/Sources/MidiParser/BigEndianIO/BigEndianReader.cs:14-18 | succeeds exactly when two bytes remain; the value is the two bytes high byte first, and the position moves by two; a short read fails |
| BigEndian.ReadUInt24 | Analyzer/Sources/MidiParser/BigEndianIO/BigEndianReader.cs:20-24 | succeeds exactly when three bytes remain; the value is the three bytes most significant first, below 2^24 |
| BigEndian.ReadUInt32 | Analyzer/Sources/MidiParser/BigEndianIO/BigEndianReader.cs:26-30 | succeeds exactly when four bytes remain; the value is the four bytes most significant first |
| BigEndian.WriteUInt16 | Analyzer/Sources/MidiParser/BigEndianIO/BigEndianWriter.cs:9-13 | two bytes whose big-endian value is the argument |
| BigEndian.WriteUInt24 | Analyzer/Sources/MidiParser/BigEndianIO/BigEndianWriter.cs:15-19 | three bytes whose big-endian value is the argument's low 24 bits |
| BigEndian.WriteUInt32 | Analyzer/Sources/MidiParser/BigEndianIO/BigEndianWriter.cs:21-25 | four bytes whose big-endian value is the argument |
| BigEndian.RoundTrip16 | Analyzer/Sources/MidiParser/BigEndianIO/BigEndianWriter.cs:9-13 | reading a ushort back from what Write(ushort) wrote gives the value and consumes two bytes |
| BigEndian.RoundTrip24 | Analyzer/Sources/MidiParser/BigEndianIO/BigEndianWriter.cs:15-19 | reading three bytes back from what WriteUint24 wrote gives the value modulo 2^24 |
| BigEndian.RoundTrip32 | Analyzer/Sources/MidiParser/BigEndianIO/BigEndianWriter.cs:21-25 | reading a uint back from what Write(uint) wrote gives the value and consumes four bytes |
| Vlq.VlqLengthSpec | Analyzer/Sources/MidiParser/BigEndianIO/MidiBigEndianReader.cs:42-50 | the quantity ends at the first byte with bit 7 clear, within four bytes; it fails with a format error when four bytes all have bit 7 set and with end of stream when the bytes run out first |
| Vlq.ReadVariableLengthValue | Analyzer/Sources/MidiParser/BigEndianIO/MidiBigEndianReader.cs:37-53 | the loop computes the reference decoding: one to four bytes, a value below 2^28 |
| Vlq.ReadText | Analyzer/Sources/MidiParser/BigEndianIO/MidiBigEndianReader.cs:21-31 | succeeds exactly when length bytes remain; character i is byte i; a short read fails with end of stream |
| Vlq.WriteVariableLengthValue | Analyzer/Sources/MidiParser/BigEndianIO/MidiBigEndianWriter.cs:20-54 | one to four bytes, every byte but the last with bit 7 set and the last with it clear |
| Vlq.WriteSemiVariableLengthValue | Analyzer/Sources/MidiParser/BigEndianIO/MidiBigEndianWriter.cs:14-18 | always four bytes, the first three with bit 7 set and the last with it clear |
| Vlq.WrittenGroups | Analyzer/Sources/MidiParser/BigEndianIO/MidiBigEndianWriter.cs:20-54 | the 7-bit groups written spell the value modulo 2^28 |
| Vlq.VlqRoundTrip | Analyzer/Sources/MidiParser/BigEndianIO/MidiBigEndianWriter.cs:20-54 | reading back what WriteVariableLengthValue wrote gives the value modulo 2^28 and consumes exactly the returned byte count |
| Vlq.VlqMinimal | Analyzer/Sources/MidiParser/BigEndianIO/MidiBigEndianWriter.cs:20-54 | below 2^28 the byte count is the least n with the value below 2^(7n) |
| Vlq.SemiVlqRoundTrip | Analyzer/Sources/MidiParser/BigEndianIO/MidiBigEndianWriter.cs:14-18 | the fixed four-byte form reads back as the value modulo 2^28 |
| Vlq.DecodedWithin | Analyzer/Sources/MidiParser/BigEndianIO/MidiBigEndianReader.cs:37-53 | a quantity that decodes takes one to four bytes, all within the stream |
| MathExt.Clamp | Analyzer/Sources/MathExtension/Calc.cs:7-12 | above the maximum gives the maximum (checked first), otherwise below the minimum gives the minimum, otherwise the value itself; the result lies in [min, max] whenever min <= max |
| MathExt.MaxWithIndex | Analyzer/Sources/MathExtension/LinqExtension.cs:10-20 | fails with an argument error exactly on an empty list; otherwise the index holds the returned value, no element is larger, and every element before the index is strictly smaller (the first maximum) |
| MathExt.MinWithIndex | Analyzer/Sources/MathExtension/LinqExtension.cs:22-32 | fails with an argument error exactly on an empty list; otherwise the index holds the returned value, no element is smaller, and every element before the index is strictly larger (the first minimum) |
| Keys.ToInt | Analyzer/Sources/MidiModel/Scale.cs:69-72 | the index lies in 0..23; it is the tone modulo 12, and below 12 exactly for a major key |
| Keys.KeyOfIndex | Analyzer/Sources/MidiModel/Scale.cs:26-38 | for every index in 0..23 the key built from it has that index |
| Keys.IndexOfKey | Analyzer/Sources/MidiModel/Scale.cs:26-38 | building a key from a key's index gives the key back |
| Keys.KeyOfSignature | Analyzer/Sources/MidiModel/Scale.cs:40-56 | the key has the scale it was built with |
| Keys.SignatureCircleOfFifths | Analyzer/Sources/MidiModel/Scale.cs:44-55 | for -7..7 accidentals the major tonic is 7·sf mod 12 (the source's ((12 - sf)·5) mod 12), the minor tonic lies 9 semitones above the major one, and no accidentals is C major or A minor |
| Keys.HowMuchAreEqual | Analyzer/Sources/MidiModel/Scale.cs:58-67 | no error iff the keys are equal; parallel keys iff same tone, different scale; a fifth iff same scale and tones 5 or 7 apart; major/minor iff the minor tonic lies 3 below the major one |
| Keys.HowMuchAreEqualSymmetric | Analyzer/Sources/MidiModel/Scale.cs:58-67 | the grade is the same with the arguments swapped |
| Keys.KeyEquals | Analyzer/Sources/MidiModel/Scale.cs:74-83 | true iff tone and scale agree, which is iff the indices agree |
| Keys.KeyNotEquals | Analyzer/Sources/MidiModel/Scale.cs:99-107 | true iff the keys differ |
| ClusterRanges.Min | Analyzer/Sources/MusParser/ClusterRanges.cs:8-23 | fails with a missing key exactly for Nonmusical; every listed lowest pitch lies in 24..55; Percussion's is the lowest drum note 35 |
| ClusterRanges.Max | Analyzer/Sources/MusParser/ClusterRanges.cs:8-24 | fails with a missing key exactly for Nonmusical; every listed highest pitch lies in 50..84; Percussion's is the highest drum note 82 |
| ClusterRanges.Size | Analyzer/Sources/MusParser/ClusterRanges.cs:25 | fails exactly for Nonmusical; otherwise Max - Min |
| ClusterRanges.RangesWellFormed | Analyzer/Sources/MusParser/ClusterRanges.cs:8-21 | every listed cluster has Min <= Max and spans at least 18 semitones |
| Instruments.ClusterNumber | Analyzer/Sources/MidiModel/Instrument.cs:318-332 | the enum value lies in 0..11 and is 9 (the percussion channel) exactly for the percussion cluster |
| Instruments.ClusterNumberInjective | Analyzer/Sources/MidiModel/Instrument.cs:318-332 | distinct clusters have distinct enum values |
| Instruments.MusicalInstrument | Analyzer/Sources/MidiModel/Instrument.cs:76-82 | succeeds exactly for programs up to 127, with that program; larger bytes fail with a format error |
| Instruments.Bundle | Analyzer/Sources/MidiModel/Instrument.cs:81-87 | program >> 3: one of 16 bundles, each of eight consecutive programs |
| Instruments.Id | Analyzer/Sources/MidiModel/Instrument.cs:64-95 | the program, or 128 exactly for percussion |
| Instruments.Cluster | Analyzer/Sources/MidiModel/Instrument.cs:96-275 | percussion and only percussion is in the percussion cluster; a program is Nonmusical exactly when it is 120 or above (the unlisted ones) |
| Instruments.TypicalInstrument | Analyzer/Sources/MidiModel/Instrument.cs:16-47 | the typical instrument of every cluster belongs to that cluster |
| Instruments.MusicalEquals | Analyzer/Sources/MidiModel/Instrument.cs:277-290 | two musical instruments are equal exactly when their programs are |
| Instruments.MusicalHashCode | Analyzer/Sources/MidiModel/Instrument.cs:292-295 | the hash is the program number |
| Instruments.HashConsistentWithEquals | Analyzer/Sources/MidiModel/Instrument.cs:277-295 | equal instruments hash alike, and equal hashes mean equal instruments |
| Events.NewNoteOn | Analyzer/Sources/MidiModel/Event.cs:32-44 | a note as created: the given tick, channel, pitch and volume, no instrument, zero length and end, and an empty bend list |
| Events.NumberToControl | Analyzer/Sources/MidiModel/Event.cs:58-82 | a control found for a number has that number |
| Events.NumberToControlComplete | Analyzer/Sources/MidiModel/Event.cs:58-82 | every listed control is found from its number, and a number maps to null exactly when no control has it |
| Events.RealPitchChange | Analyzer/Sources/MidiModel/Event.cs:100 | zero at 8192, the sign of PitchValue - 8192 for a positive range, and within half the range either way for a 14-bit value |
| Tracks.NewTrack | Analyzer/Sources/MidiModel/Track.cs:29-37 | sixteen empty channels numbered 0..15 in order, and no meta events |
| Tracks.EventCount | Analyzer/Sources/MidiModel/Track.cs:22 | the sum of the channel counts is the number of control events the track holds |
| Tracks.EventTotalIsLength | Analyzer/Sources/MidiModel/Track.cs:22 | adding up the channel sizes counts every control event of the channels once |
| Tracks.FilledChannelsCount | Analyzer/Sources/MidiModel/Track.cs:17 | the number of channels holding a NoteOn, at most the number of channels |
| Tracks.PlayableTotalIsCount | Analyzer/Sources/MidiModel/Track.cs:17 | counting playable channels one by one gives the size of the set of playable channel indices |
| Tracks.ReplaceEvents | Analyzer/Sources/MidiModel/LinqToMidi.cs:42-45 | writing the control events back in LinqToMidi order gives a model whose control events are exactly the new ones, with the same meta events, tracks, channel counts and well-formedness |
| Tracks.ReplaceMeta | Analyzer/Sources/MidiModel/LinqToMidi.cs:37-40 | writing the meta events back gives a model whose meta events are exactly the new ones, with the same control events and well-formedness |
| Tracks.AllChannels | Analyzer/Sources/MidiModel/LinqToMidi.cs:14 | the channels of all tracks in order hold exactly the model's control events |
| Tracks.AppendShape | Analyzer/Sources/MidiParser/MetreNormalizer/Normalizer.cs:285-301 | adding notes to one channel of the first track appends exactly those notes to it, and leaves every other channel, every other track, the meta events and well-formedness as they were |
| Parser.ParseTimeDivision | Analyzer/Sources/MidiParser/MidiToModelParser.cs:532-550 | bit 15 clear gives ticks per beat (the low 15 bits); bit 15 set gives an SMPTE division whose frames must be 24, 25, 29 or 30, else a format error; a success re-encodes to the input word |
| Parser.TimeDivisionRoundTrip | Analyzer/Sources/MidiParser/MidiToModelParser.cs:532-550 | every valid division is read back from its header word |
| Parser.ParseHeaderChunk | Analyzer/Sources/MidiParser/MidiToModelParser.cs:120-153 | a tag other than RIFF or "MThd" is a format error; a RIFF tag skips 16 bytes and starts again; a success has format 0..2, a valid division, and moves past at least the 14 header bytes |
| Parser.WriteHeaderChunk | Analyzer/Sources/MidiParser/MidiToModelParser.cs:120-153 | a standard header chunk is 14 bytes |
| Parser.HeaderRoundTrip | Analyzer/Sources/MidiParser/MidiToModelParser.cs:120-153 | a written header is read back whole and reading stops right after it |
| Parser.PitchWord | Analyzer/Sources/MidiParser/MidiToModelParser.cs:335-339 | (msb << 7) \| lsb cut to 16 bits lies below 2^15, equals msb·128 + lsb for a data lsb, and is at most 16383 exactly when msb is a data byte |
| Parser.ParseControlEvent | Analyzer/Sources/MidiParser/MidiToModelParser.cs:257-352 | kinds other than 8..14 fail; a note message with a note number above 127 is dropped without reading on; a controller keeps its first data byte as its number and takes the smaller of its value byte and 127, failing with EndOfStream when no value byte remains; a program change fails exactly for programs above 127; a pitch bend succeeds exactly when its msb is a data byte and then holds msb·128 + lsb; every event carries the channel and tick, and at most one more byte is read |
| Parser.EncodeControl | Analyzer/Sources/MidiParser/MidiToModelParser.cs:183-195 | a control message is a status byte in 0x80..0xEF whose low nibble is the channel, followed by one or two data bytes |
| Parser.ControlRoundTrip | Analyzer/Sources/MidiParser/MidiToModelParser.cs:183-205 | every control message the parser can produce is read back from its encoding, with its status byte present or repeated by running status, and reading stops right after its data bytes |
| Parser.Signed | Analyzer/Sources/MidiParser/MidiToModelParser.cs:497-499 | (sbyte) of a byte lies in -128..127 and agrees with the byte modulo 256 |
| Parser.DenominatorOf | Analyzer/Sources/MidiParser/MidiToModelParser.cs:481-492 | (byte)(1 << b) is 2^b for b below 8 and 0 for shifts of 8..31 |
| Parser.ReadFixed | Analyzer/Sources/MidiParser/MidiToModelParser.cs:367-463 | succeeds exactly when n bytes remain, giving those bytes; otherwise end of stream |
| Parser.ParseMetaEvent | Analyzer/Sources/MidiParser/MidiToModelParser.cs:354-530 | fixed-length kinds fail on any other declared length; end of track succeeds exactly for length 0; a tempo is below 2^24; a time signature's denominator is (byte)(1 << byte); a key signature succeeds exactly for -7..7 sharps and builds the key from them; text kinds read exactly length characters; every event keeps the tick and the reader moves by the declared length or to the end of the stream |
| Parser.AddControl | Analyzer/Sources/MidiParser/MidiToModelParser.cs:265-341 | the event is appended to the channel it names; every other channel and the meta events are unchanged |
| Parser.AddParsed | Analyzer/Sources/MidiParser/MidiToModelParser.cs:259-351 | adding a kept event, or none, keeps the track well formed and every event in the channel it names |
| Parser.ParseEvent | Analyzer/Sources/MidiParser/MidiToModelParser.cs:180-247 | a successful step moves forward within the stream, only adds events to the track, keeps every event in the channel it names, and leaves a valid running status |
| Parser.ParseEventSound | Analyzer/Sources/MidiParser/MidiToModelParser.cs:180-247 | the added events carry the current tick; the step counts at least one byte and reaches the end of the stream only when the declared bytes run past it; a channel status saves its kind and channel; a data byte reuses the saved status and fails when none is saved; meta and system-exclusive events cancel the running status; status bytes 0xF1..0xFE other than 0xF7 fail; an end-of-track event ends the step exactly after its declared bytes, with an end-of-track meta event last |
| Parser.EventsOfReads | Analyzer/Sources/MidiParser/MidiToModelParser.cs:180-247 | every step ParseEvent takes advances, as the loop of a track chunk relies on |
| Parser.ChunkNoDelta | Analyzer/Sources/MidiParser/MidiToModelParser.cs:176 | a delta time that fails to read fails the track body with the same error |
| Parser.ChunkNoEvent | Analyzer/Sources/MidiParser/MidiToModelParser.cs:180-247 | an event that fails to parse fails the track body with the same error |
| Parser.ChunkStep | Analyzer/Sources/MidiParser/MidiToModelParser.cs:176-253 | after one event the body goes on with the tick advanced by the delta time modulo 2^32 and the byte count advanced by the delta-time length plus the event's bytes modulo 2^32 |
| Parser.ChunkSound | Analyzer/Sources/MidiParser/MidiToModelParser.cs:170-254 | a successful body only adds events to the track, each in its own channel, ends with an end-of-track meta event, and the bytes it reads, modulo 2^32, equal the declared chunk size |
| Parser.AfterEventSound | Analyzer/Sources/MidiParser/MidiToModelParser.cs:221-253 | after an event, end of track succeeds only when the count equals the declared size; a count past the declared size fails; otherwise the body goes on and keeps ChunkSound's guarantees |
| Parser.ParseTrackEvents | Analyzer/Sources/MidiParser/MidiToModelParser.cs:170-254 | the loop returns exactly the fold Chunk of the events: ticks are the running sum of delta times modulo 2^32; an end-of-track event succeeds exactly when the bytes counted equal the declared size; any other event that takes the count past that size fails; every read error is passed on |
| Parser.TrackChunkSound | Analyzer/Sources/MidiParser/MidiToModelParser.cs:155-254 | a parsed chunk grows the track into one that ends with end of track, and it ends a track chunk at or after the position whose declared size matches the bytes read modulo 2^32 |
| Parser.ParseTrackChunk | Analyzer/Sources/MidiParser/MidiToModelParser.cs:155-167 | returns TrackChunk: a chunk of another type is skipped whole, and a size of 2^31 or more, which is negative as an int, fails; a track chunk's body is read by ParseTrackEvents |
| Parser.ChunksOfReads | Analyzer/Sources/MidiParser/MidiToModelParser.cs:155-254 | every chunk read into a fresh track ends within the stream and ends its track |
| Parser.NextChunk | Analyzer/Sources/MidiParser/MidiToModelParser.cs:36-39 | one track of the file: a fresh track read by ParseTrackChunk |
| Parser.TrackChunksSound | Analyzer/Sources/MidiParser/MidiToModelParser.cs:36-39 | the chunks read keep the tracks already read and add exactly the number asked for, each ending with end of track |
| Parser.MidiSound | Analyzer/Sources/MidiParser/MidiToModelParser.cs:30-39 | a parsed file has a valid header, exactly as many tracks as the header announces, each a well-formed track that ends with end of track |
| Parser.ParseMidi | Analyzer/Sources/MidiParser/MidiToModelParser.cs:30-39 | returns Midi: the header, then one track chunk per announced track, each into a fresh track, the first error ending the parse |
| Parser.ReadMidi | Analyzer/Sources/MidiParser/MidiToModelParser.cs:36-39 | the loop over the announced tracks returns MidiWith, the fold of the chunk reader over them |
| Parser.InitialModel | Analyzer/Sources/MidiParser/MidiToModelParser.cs:30-39 | the parsed model holds the header's format, division and the parsed tracks |
| Ordering.OrderBy | Analyzer/Sources/MidiModel/Simplifiers/TimeCalculator.cs:32 | the insertion sort visits every index once, by non-decreasing key, equal keys in their original order (the stable order LINQ's OrderBy gives) |
| Ordering.StableOrderMonotone | Analyzer/Sources/MidiModel/Simplifiers/TimeCalculator.cs:32-38 | along a stable order the keys never decrease |
| Ordering.SmallerKeysFirst | Analyzer/Sources/MidiModel/Simplifiers/TimeCalculator.cs:32-38 | every index with a key below the one visited at position k is visited before k |
| Ordering.VisitedInKeyOrder | Analyzer/Sources/MidiModel/Simplifiers/TimeCalculator.cs:32-38 | an index smaller by key, or equal by key and earlier, is visited no later |
| Ordering.StableOrderDistinct | Analyzer/Sources/MidiModel/Simplifiers/TimeCalculator.cs:32 | a stable order visits no index twice |
| Ordering.StableSort | Analyzer/Sources/MidiModel/Simplifiers/TimeCalculator.cs:32 | the functional insertion sort is a stable order |
| Ordering.StableOrderUnique | Analyzer/Sources/MidiModel/Simplifiers/TimeCalculator.cs:32 | there is only one stable order of a key list, so OrderBy's result is determined |
| Ordering.ArrangedMembers | Analyzer/Sources/MidiModel/Simplifiers/TimeCalculator.cs:32 | a list arranged in a stable order holds exactly the original elements |
| Latest.AtOrBefore | Analyzer/Sources/MidiModel/Simplifiers/InstrumentChangeCollector.cs:35-38 | the selected entry is at or before t, no entry at or before t is later, every earlier-listed entry at or before t is strictly earlier (the first wins on ties), and there is none exactly when every entry is after t |
| Latest.ValueAtOrBefore | Analyzer/Sources/MidiModel/Simplifiers/InstrumentChangeCollector.cs:35-38 | the default when every entry is after t; otherwise the value of the latest entry at or before t, the first listed among equal times |
| Playability.Check | Analyzer/Sources/MidiModel/Simplifiers/ChannelPlayabilityChecker.cs:5-16 | a fresh 16-entry array replaces the old one; entry i is true exactly when some track's channel i holds a note; nothing else in the model changes |
| Playability.PlayableExtend | Analyzer/Sources/MidiModel/Simplifiers/ChannelPlayabilityChecker.cs:9-15 | one more track sets entry i exactly when that track's channel i is playable |
| MetreGlobals.Quantize | Analyzer/Sources/MidiParser/MetreNormalizer/Tactus.cs:56-59 | (int)(t / 35 + 0.5) is the nearest pip, halves rounded up, and non-negative from -17.5 ms on |
| MetreGlobals.LengthsQuantized | Analyzer/Sources/MidiParser/MetreNormalizer/Globals.cs:21-27 | MinLength and MaxLength are the quantized 400 ms and 1200 ms |
| MetreGlobals.QuantizeMonotone | Analyzer/Sources/MidiParser/MetreNormalizer/Tactus.cs:56-59 | quantizing never reverses the order of two times |
| TimeCalculator.Stamps | Analyzer/Sources/MidiModel/Simplifiers/TimeCalculator.cs:32 | midi.Events(): one entry per control event and per meta event |
| TimeCalculator.DefaultRate | Analyzer/Sources/MidiModel/Simplifiers/TimeCalculator.cs:19-30 | the starting beat length (0.5 s for a tick division, one frame, 29 read as 29.97, for an SMPTE one) is positive |
| TimeCalculator.LastTempo | Analyzer/Sources/MidiModel/Simplifiers/TimeCalculator.cs:38-48 | the SetTempo in force at tick x among the first n events: at or before x, at the latest tick, the last in event order among equal ticks, and none exactly when no SetTempo is at or before x |
| TimeCalculator.ElapsedLinear | Analyzer/Sources/MidiModel/Simplifiers/TimeCalculator.cs:40 | over ticks of one beat length, time grows by the gap in beats times that length |
| TimeCalculator.TimeAtLinear | Analyzer/Sources/MidiModel/Simplifiers/TimeCalculator.cs:40 | over ticks where no SetTempo takes effect, real time grows linearly in the tick |
| TimeCalculator.ElapsedMonotone | Analyzer/Sources/MidiModel/Simplifiers/TimeCalculator.cs:40 | elapsed time never decreases when no tick has a negative length |
| TimeCalculator.TimeAtMonotone | Analyzer/Sources/MidiModel/Simplifiers/TimeCalculator.cs:32-44 | with non-negative tempos, real time never decreases as the tick grows |
| TimeCalculator.ElapsedAgree | Analyzer/Sources/MidiModel/Simplifiers/TimeCalculator.cs:40 | the time of tick t depends only on the lengths of the ticks before t |
| TimeCalculator.ConstantTempo | Analyzer/Sources/MidiModel/Simplifiers/TimeCalculator.cs:40 | with no SetTempo, tick t is at t / ticksPerBeat beats of the default length |
| TimeCalculator.TempoAffectsOnlyLater | Analyzer/Sources/MidiModel/Simplifiers/TimeCalculator.cs:40-48 | the time of every tick up to a SetTempo's own does not depend on the beat length it sets |
| TimeCalculator.LastTempoIgnoresLater | Analyzer/Sources/MidiModel/Simplifiers/TimeCalculator.cs:45-48 | changing a SetTempo after tick x does not change which SetTempo is in force at x |
| TimeCalculator.VisitStep | Analyzer/Sources/MidiModel/Simplifiers/TimeCalculator.cs:38-48 | visiting one more event keeps track of the last SetTempo visited |
| TimeCalculator.VisitedTempoInForce | Analyzer/Sources/MidiModel/Simplifiers/TimeCalculator.cs:38-48 | between the last visited tick and the next, the SetTempo in force is the last one visited |
| TimeCalculator.TempoBetween | Analyzer/Sources/MidiModel/Simplifiers/TimeCalculator.cs:40-48 | between the last visited tick and the next, every tick lasts the beat length the walk holds |
| TimeCalculator.TickNotSmaller | Analyzer/Sources/MidiModel/Simplifiers/TimeCalculator.cs:32-41 | the walk never moves back in ticks |
| TimeCalculator.StepTime | Analyzer/Sources/MidiModel/Simplifiers/TimeCalculator.cs:40-43 | each step's time is the last time plus the gap in beats times the beat length in force |
| TimeCalculator.RealTimes | Analyzer/Sources/MidiModel/Simplifiers/TimeCalculator.cs:32-49 | the walk in tick order gives every event the real time of its tick |
| TimeCalculator.ComputeRealTimes | Analyzer/Sources/MidiModel/Simplifiers/TimeCalculator.cs:14-50 | fails exactly when there are events and the beat has no length or no ticks (an argument error when an event sits at tick 0, an overflow otherwise); otherwise every control and meta event gets the real time of its tick and nothing else changes |
| TimeCalculator.Retime | Analyzer/Sources/MidiModel/Simplifiers/TimeCalculator.cs:32-49 | with a usable rate every control and meta event keeps everything but its time, which becomes the real time of its tick, and the model stays well formed |
| TimeCalculator.FirstEnd | Analyzer/Sources/MidiModel/Simplifiers/TimeCalculator.cs:71-88 | the ending event chosen is later in time order and ends the note, and no event ends it between them; none exactly when nothing later ends it |
| TimeCalculator.FirstEndIsNext | Analyzer/Sources/MidiModel/Simplifiers/TimeCalculator.cs:72-87 | the first later event of the visit that ends the note is the note's first end |
| TimeCalculator.NoEndAfter | Analyzer/Sources/MidiModel/Simplifiers/TimeCalculator.cs:72-88 | a note nothing later ends is left without an end |
| TimeCalculator.NoteLengths | Analyzer/Sources/MidiModel/Simplifiers/TimeCalculator.cs:62-90 | every event of a channel becomes its lengthened form: a sounding note ended by a later NoteOff or zero-volume NoteOn of its pitch gets that event's tick distance, real length and end; every other event is unchanged |
| TimeCalculator.LengthenAt | Analyzer/Sources/MidiModel/Simplifiers/TimeCalculator.cs:67-88 | the inner scan for the note at one position of the visit gives its lengthened form |
| TimeCalculator.ChannelWithLengths | Analyzer/Sources/MidiModel/Simplifiers/TimeCalculator.cs:62-90 | the channel keeps its number and its size, and every event is its lengthened form |
| TimeCalculator.CreateNoteLengths | Analyzer/Sources/MidiModel/Simplifiers/TimeCalculator.cs:58-91 | every channel of every track gets its lengthened events; meta events, channel counts and everything outside the channels are untouched |
| VolumeChangeCollector.ChangesOf | Analyzer/Sources/MidiModel/Simplifiers/VolumeChangeCollector.cs:21-25 | exactly the controllers of one kind on one channel: each listed one is such a controller and every such controller of the model is listed |
| VolumeChangeCollector.NewCollector | Analyzer/Sources/MidiModel/Simplifiers/VolumeChangeCollector.cs:13-28 | the per-channel lists hold exactly the volume (CC7) and expression (CC11) controllers of each channel, in event order |
| VolumeChangeCollector.Bucket | Analyzer/Sources/MidiModel/Simplifiers/VolumeChangeCollector.cs:21-25 | the bucketing loop puts every controller of the kind into its channel's list, in order, and nothing else |
| VolumeChangeCollector.ChangesOfStep | Analyzer/Sources/MidiModel/Simplifiers/VolumeChangeCollector.cs:21-25 | one more event extends only its own channel's list, and only if it is a change of that kind |
| VolumeChangeCollector.During | Analyzer/Sources/MidiModel/Simplifiers/VolumeChangeCollector.cs:49-51 | the controllers sent while the note sounds: exactly those from its start (inclusive) to its end (exclusive) |
| VolumeChangeCollector.SumOfValuesBounds | Analyzer/Sources/MidiModel/Simplifiers/VolumeChangeCollector.cs:55 | controller values add up to between 0 and their count times the largest value |
| VolumeChangeCollector.Mean | Analyzer/Sources/MidiModel/Simplifiers/VolumeChangeCollector.cs:55 | the average times the count is the sum, and the average of data bytes lies in [0, 127] |
| VolumeChangeCollector.LatestValue | Analyzer/Sources/MidiModel/Simplifiers/VolumeChangeCollector.cs:58-64 | the value of the latest controller at or before t, the first of equal times, else the default; within [0, 127] when the values and default are |
| VolumeChangeCollector.ValuesOf | Analyzer/Sources/MidiModel/Simplifiers/VolumeChangeCollector.cs:55-63 | the controller values in order |
| VolumeChangeCollector.ValueDuringNote | Analyzer/Sources/MidiModel/Simplifiers/VolumeChangeCollector.cs:47-67 | the mean of the controllers sent while the note sounds; when there are none, the latest one at or before its start; when there is none, the default; always within [0, 127] for data-byte values |
| VolumeChangeCollector.RealVolume | Analyzer/Sources/MidiModel/Simplifiers/VolumeChangeCollector.cs:39 | a silent velocity, volume or expression gives silence, and full volume and expression leave velocity / 127 |
| VolumeChangeCollector.RealVolumeBounds | Analyzer/Sources/MidiModel/Simplifiers/VolumeChangeCollector.cs:39 | with every factor at most 127 the loudness lies in [0, 1] |
| VolumeChangeCollector.LoudInUnitRange | Analyzer/Sources/MidiModel/Simplifiers/VolumeChangeCollector.cs:33-41 | every note's loudness, computed from data-byte controllers with 96 as the default, lies in [0, 1] |
| VolumeChangeCollector.DetermineVolumes | Analyzer/Sources/MidiModel/Simplifiers/VolumeChangeCollector.cs:30-45 | every note gets the loudness from its channel's volume and expression, nothing else changes, and MaxRealVolume is the largest loudness, or 0 with no notes |
| VolumeChangeCollector.LoudNotes | Analyzer/Sources/MidiModel/Simplifiers/VolumeChangeCollector.cs:32-42 | the loop gives every note its loudness and leaves the running maximum at the largest one, or 0 |
| InstrumentChangeCollector.ChangesOn | Analyzer/Sources/MidiModel/Simplifiers/InstrumentChangeCollector.cs:17-20 | exactly the program changes on one channel, in event order |
| InstrumentChangeCollector.Collect | Analyzer/Sources/MidiModel/Simplifiers/InstrumentChangeCollector.cs:12-23 | sixteen lists, each holding exactly its channel's program changes in event order |
| InstrumentChangeCollector.InstrumentsOf | Analyzer/Sources/MidiModel/Simplifiers/InstrumentChangeCollector.cs:38-40 | the instruments of the program changes, in order |
| InstrumentChangeCollector.InstrumentAt | Analyzer/Sources/MidiModel/Simplifiers/InstrumentChangeCollector.cs:35-38 | program 0 when every change is after t; otherwise the instrument of the latest change at or before t, the first listed among equal times |
| InstrumentChangeCollector.Assigned | Analyzer/Sources/MidiModel/Simplifiers/InstrumentChangeCollector.cs:27-41 | a note on channel 9 gets Percussion, any other note the instrument in force on its channel at its start; nothing else of the event changes, and other events are untouched |
| InstrumentChangeCollector.DetermineInstruments | Analyzer/Sources/MidiModel/Simplifiers/InstrumentChangeCollector.cs:25-43 | every control event becomes its assigned form; meta events and the rest of the model are unchanged |
| VolumeChangeCollector.ChangesOfExactly | Analyzer/Sources/MidiModel/Simplifiers/VolumeChangeCollector.cs:21-25 | a listed controller is one of the model's, of the kind and on the channel; every such controller is listed |
| VolumeChangeCollector.ChangesAreControllers | Analyzer/Sources/MidiModel/Simplifiers/VolumeChangeCollector.cs:21-25 | only controllers are collected |
| VolumeChangeCollector.CollectorOf | Analyzer/Sources/MidiModel/Simplifiers/VolumeChangeCollector.cs:13-28 | the collector built from the events holds exactly their volume and expression changes per channel |
| VolumeChangeCollector.CollectedIsCollectorOf | Analyzer/Sources/MidiModel/Simplifiers/VolumeChangeCollector.cs:13-28 | any collector holding exactly those changes is that one: the constructor's result is determined by the events |
| VolumeChangeCollector.Loudest | Analyzer/Sources/MidiModel/Simplifiers/VolumeChangeCollector.cs:32-41 | the running maximum of the loudnesses is never negative |
| VolumeChangeCollector.LoudestIsMax | Analyzer/Sources/MidiModel/Simplifiers/VolumeChangeCollector.cs:32-44 | the running maximum is at least every note's loudness, and is 0 or the loudness of some note |
| VolumeChangeCollector.LoudestStep | Analyzer/Sources/MidiModel/Simplifiers/VolumeChangeCollector.cs:41 | one more note replaces the maximum exactly when it is louder |
| VolumeChangeCollector.Loudened | Analyzer/Sources/MidiModel/Simplifiers/VolumeChangeCollector.cs:30-45 | every event becomes its loud form, meta events stay, and MaxRealVolume bounds every note's loudness |
| VolumeChangeCollector.UpdateNotes | Analyzer/Sources/MidiModel/Simplifiers/VolumeChangeCollector.cs:33-42 | the loop applies the update to every event and leaves the running maximum of the notes' loudness |
| Sustainer.StreamStep | Analyzer/Sources/MidiModel/Simplifiers/Sustainer.cs:44-53 | one more event adds its pedal change, or its onset and end, at the end of the matching list |
| Sustainer.PedalEventsExact | Analyzer/Sources/MidiModel/Simplifiers/Sustainer.cs:44-47 | the pedal entries are exactly the CC64 controllers, each at its controller's time |
| Sustainer.NoteEventsExact | Analyzer/Sources/MidiModel/Simplifiers/Sustainer.cs:49-53 | the note entries are exactly one onset at the start and one end at End per note with a non-zero volume |
| Sustainer.ByTime | Analyzer/Sources/MidiModel/Simplifiers/Sustainer.cs:55 | the stream stably sorted by time keeps its length and its entries, with times never decreasing |
| Sustainer.QueueFits | Analyzer/Sources/MidiModel/Simplifiers/Sustainer.cs:44-55 | every entry of the sorted stream names a note or a controller of the model |
| Sustainer.Initial | Analyzer/Sources/MidiModel/Simplifiers/Sustainer.cs:37-41 | the constructor's state tracks no note and has no pedal down |
| Sustainer.Ended | Analyzer/Sources/MidiModel/Simplifiers/Sustainer.cs:78-107 | a note ended at t has End t and RealTimeLength End - start |
| Sustainer.RetimedTransitive | Analyzer/Sources/MidiModel/Simplifiers/Sustainer.cs:60-70 | two rounds of moving ends compose into one |
| Sustainer.OnStep | Analyzer/Sources/MidiModel/Simplifiers/Sustainer.cs:72-83 | a note still tracked at the same channel and pitch ends at the new onset; the new note is tracked unreleased; no other slot or note changes; a pitch outside the 128 slots throws |
| Sustainer.OffStep | Analyzer/Sources/MidiModel/Simplifiers/Sustainer.cs:85-95 | with the pedal down the note is tracked as released, otherwise its slot is emptied; no other slot changes and no note changes; a pitch outside the slots throws |
| Sustainer.Release | Analyzer/Sources/MidiModel/Simplifiers/Sustainer.cs:103-110 | the pedal-up loop keeps the state valid and only moves ends |
| Sustainer.ReleaseEffect | Analyzer/Sources/MidiModel/Simplifiers/Sustainer.cs:103-110 | slot by slot: below p the released slots of the channel are emptied and their notes end at t; every other slot and note is kept |
| Sustainer.ReleaseSlots | Analyzer/Sources/MidiModel/Simplifiers/Sustainer.cs:103-110 | below p the released slots of the channel are emptied, the rest kept |
| Sustainer.ReleaseOtherChannels | Analyzer/Sources/MidiModel/Simplifiers/Sustainer.cs:103-110 | the slots of the other channels are untouched |
| Sustainer.ReleaseNotes | Analyzer/Sources/MidiModel/Simplifiers/Sustainer.cs:105-107 | the notes released below p end at t, the others are kept |
| Sustainer.ChangeStep | Analyzer/Sources/MidiModel/Simplifiers/Sustainer.cs:97-114 | the channel's pedal flag becomes whether the value is at least 64; a value of 64 or more changes nothing else |
| Sustainer.PedalUp | Analyzer/Sources/MidiModel/Simplifiers/Sustainer.cs:99-111 | a value below 64 ends every released note tracked on the channel at the change time and empties its slot; unreleased notes stay tracked and no other note changes |
| Sustainer.Step | Analyzer/Sources/MidiModel/Simplifiers/Sustainer.cs:62-69 | one stream entry keeps the state valid and only moves ends; it fails exactly for a note pitch outside the slots |
| Sustainer.StepIsolated | Analyzer/Sources/MidiModel/Simplifiers/Sustainer.cs:74-113 | an entry leaves the slots, the pedal flag and the notes of every other channel as they were |
| Sustainer.FitsRetimed | Analyzer/Sources/MidiModel/Simplifiers/Sustainer.cs:62-69 | moving ends does not change which entries name a note or which are out of range |
| Sustainer.Run | Analyzer/Sources/MidiModel/Simplifiers/Sustainer.cs:60-70 | processing the stream in order fails exactly when some note entry has no slot; otherwise every moved End has RealTimeLength = End - start and nothing else changed |
| Sustainer.Prolonged | Analyzer/Sources/MidiModel/Simplifiers/Sustainer.cs:35-70 | the sustain stage on a model keeps the meta events and only moves note ends, or fails with an index error for a pitch above 127 |
| Sustainer.Sustainer.constructor | Analyzer/Sources/MidiModel/Simplifiers/Sustainer.cs:35-58 | the stream is the CC64 changes and each sounding note's onset and end, stably sorted by time; no note is tracked and no pedal is down |
| Sustainer.Sustainer.ProcessOn | Analyzer/Sources/MidiModel/Simplifiers/Sustainer.cs:72-83 | the object state becomes the onset step of the old state; it reports the exception case |
| Sustainer.Sustainer.ProcessOff | Analyzer/Sources/MidiModel/Simplifiers/Sustainer.cs:85-95 | the object state becomes the end step of the old state; it reports the exception case |
| Sustainer.Sustainer.ProcessChange | Analyzer/Sources/MidiModel/Simplifiers/Sustainer.cs:97-114 | the object state becomes the pedal-change step of the old state |
| Sustainer.Sustainer.ProlongSustainedNotes | Analyzer/Sources/MidiModel/Simplifiers/Sustainer.cs:60-70 | the loop leaves the object in the state of the whole stream processed in order, and succeeds exactly when that run does |
| Sustainer.RunStep | Analyzer/Sources/MidiModel/Simplifiers/Sustainer.cs:62-69 | after a prefix that ran cleanly, one more entry is one more step |
| Sustainer.RunFailsOnPrefix | Analyzer/Sources/MidiModel/Simplifiers/Sustainer.cs:62-69 | a run that fails on a prefix fails on the whole stream |
| Sustainer.Sustain | Analyzer/Sources/MidiModel/Simplifiers/Sustainer.cs:35-70 | building the stream, processing it and writing the notes back gives exactly the sustain stage's result |
| PitchBendCalculator.Next | Analyzer/Sources/MidiModel/Simplifiers/PitchBendCalculator.cs:149-179 | a non-controller resets the RPN automaton; CC101=0 always arms it; CC100=0 completes an armed selection; CC6 after a completed selection returns it to idle; other controllers leave it unchanged |
| PitchBendCalculator.RunSound | Analyzer/Sources/MidiModel/Simplifiers/PitchBendCalculator.cs:142-183 | every range change the automaton emits is preceded by CC101=0, then CC100=0, then the CC6 giving it, with only controllers in between; the After101 and After100 states mean such a prefix is armed |
| PitchBendCalculator.RunCompletes | Analyzer/Sources/MidiModel/Simplifiers/PitchBendCalculator.cs:157-178 | whatever came before, CC101=0, CC100=0 and CC6 in a row emit exactly one change with the CC6's time and value and leave the automaton idle |
| PitchBendCalculator.CollectChangesFromChannel | Analyzer/Sources/MidiModel/Simplifiers/PitchBendCalculator.cs:142-183 | the loop collects exactly the changes the automaton emits over the channel's events |
| PitchBendCalculator.CollectChanges | Analyzer/Sources/MidiModel/Simplifiers/PitchBendCalculator.cs:41-50 | the sixteen per-channel lists hold, for each channel number, the changes of all channels with that number, track by track |
| PitchBendCalculator.RangeAt | Analyzer/Sources/MidiModel/Simplifiers/PitchBendCalculator.cs:56-58 | the range is 4 when no change is at or before t; otherwise it is that of a latest change at or before t, the first of equal times; it fits a byte |
| PitchBendCalculator.Ranged | Analyzer/Sources/MidiModel/Simplifiers/PitchBendCalculator.cs:54-61 | a bend takes the range in force on its channel at its time and nothing else of it changes; a note keeps everything but its bends, each of which takes the range in force on the note's channel at the bend's time, because the note holds the same bend objects; other events are untouched |
| PitchBendCalculator.DeterminePitchRanges | Analyzer/Sources/MidiModel/Simplifiers/PitchBendCalculator.cs:39-62 | meta events and the number of channel events are kept and each channel event becomes its ranged form |
| PitchBendCalculator.RangeAfterJoin | Analyzer/Sources/MidiModel/Simplifiers/PitchBendCalculator.cs:39-62 | on a channel, joining bends to notes and then setting the ranges gives each note exactly the bends that joining the already-ranged bends gives: a note's bend carries the range of the PitchBend event it came from |
| PitchBendCalculator.CoveringRanged | Analyzer/Sources/MidiModel/Simplifiers/PitchBendCalculator.cs:121-133 | the bends covering a note among the ranged events are the covering bends with their ranges set |
| PitchBendCalculator.BendOf | Analyzer/Sources/MidiModel/Simplifiers/PitchBendCalculator.cs:130 | a note's bend entry keeps the bend's tick, time, value and range |
| PitchBendCalculator.CoveringBends | Analyzer/Sources/MidiModel/Simplifiers/PitchBendCalculator.cs:123-131 | a bend is among those joined to a note exactly when it is a bend of the channel whose time lies in the note's span, inclusive at both ends |
| PitchBendCalculator.Joined | Analyzer/Sources/MidiModel/Simplifiers/PitchBendCalculator.cs:121-133 | a note gets the covering bends of its channel appended to its Bends; every other event is unchanged |
| PitchBendCalculator.JoinedStep | Analyzer/Sources/MidiModel/Simplifiers/PitchBendCalculator.cs:123-131 | considering one more event appends it to exactly the notes that cover it, if it is a bend |
| PitchBendCalculator.JoinPitchBendsInChannel | Analyzer/Sources/MidiModel/Simplifiers/PitchBendCalculator.cs:121-133 | the nested loops turn each channel event into its joined form |
| PitchBendCalculator.AttachBend | Analyzer/Sources/MidiModel/Simplifiers/PitchBendCalculator.cs:125-131 | the inner loop appends the bend at position i to every note covering it |
| PitchBendCalculator.JoinedChannel | Analyzer/Sources/MidiModel/Simplifiers/PitchBendCalculator.cs:121-133 | a joined channel keeps its number and length, and each event becomes its joined form |
| PitchBendCalculator.JoinPitchBends | Analyzer/Sources/MidiModel/Simplifiers/PitchBendCalculator.cs:64-70 | every channel of every track is joined on its own; meta events and the track layout are kept |
| PitchBendCalculator.SortedBends | Analyzer/Sources/MidiModel/Simplifiers/PitchBendCalculator.cs:83 | the bends ordered by time: same length, same members, times never decreasing |
| PitchBendCalculator.BendedPitch | Analyzer/Sources/MidiModel/Simplifiers/PitchBendCalculator.cs:91 | the bent pitch rounded half up lies within one below the exact value when it fits a byte; a centred bend (8192) leaves the pitch unchanged |
| PitchBendCalculator.Fragment | Analyzer/Sources/MidiModel/Simplifiers/PitchBendCalculator.cs:94-104 | the fragment a bend starts has the bend's time and tick, the bent pitch, and the note's channel, instrument and loudness without bends |
| PitchBendCalculator.CutKeepsChain | Analyzer/Sources/MidiModel/Simplifiers/PitchBendCalculator.cs:88-89 | moving the end of the open fragment keeps the fragments tiling the note |
| PitchBendCalculator.AppendKeepsChain | Analyzer/Sources/MidiModel/Simplifiers/PitchBendCalculator.cs:92-106 | a fragment at another pitch starting where the closed one ends extends the tiling |
| PitchBendCalculator.SplitAt | Analyzer/Sources/MidiModel/Simplifiers/PitchBendCalculator.cs:86-107 | the loop over the bends yields fragments that tile the note, at most one per bend, each after the first starting at a bend |
| PitchBendCalculator.Fragmented | Analyzer/Sources/MidiModel/Simplifiers/PitchBendCalculator.cs:77-111 | a bent note becomes between one and (bends + 1) fragments, each a bend-free piece of it |
| PitchBendCalculator.FragmentedTiles | Analyzer/Sources/MidiModel/Simplifiers/PitchBendCalculator.cs:77-111 | the fragments tile the note: the first is the note itself, each ends where the next starts at another pitch, each later one starts at a bend, and the last ends at the note's own end |
| PitchBendCalculator.DiscretizeNote | Analyzer/Sources/MidiModel/Simplifiers/PitchBendCalculator.cs:79-110 | the loop body for one bent note computes exactly its fragments |
| PitchBendCalculator.Discretized | Analyzer/Sources/MidiModel/Simplifiers/PitchBendCalculator.cs:77-111 | an event that is not a bent note stays as it is; what stays in place of a note has no bends |
| PitchBendCalculator.Added | Analyzer/Sources/MidiModel/Simplifiers/PitchBendCalculator.cs:94-105 | the added fragments are bend-free notes of the note's own channel; an event that is not a bent note adds none |
| PitchBendCalculator.DiscretizedAllAt | Analyzer/Sources/MidiModel/Simplifiers/PitchBendCalculator.cs:77-111 | each event is replaced in place by what stays of it |
| PitchBendCalculator.AddedOn | Analyzer/Sources/MidiModel/Simplifiers/PitchBendCalculator.cs:105 | the notes added to channel ch are bend-free notes of channel ch |
| PitchBendCalculator.AddedOnStep | Analyzer/Sources/MidiModel/Simplifiers/PitchBendCalculator.cs:105 | one more event adds its fragments to its own channel and to no other |
| PitchBendCalculator.AppendToFirstTrack | Analyzer/Sources/MidiModel/Simplifiers/PitchBendCalculator.cs:105 | the new notes go at the end of the channels of the first track; other tracks and all meta events are unchanged |
| PitchBendCalculator.FragmentedModel | Analyzer/Sources/MidiModel/Simplifiers/PitchBendCalculator.cs:74-111 | splitting the bent notes keeps the model well formed, its meta events and its track layout |
| PitchBendCalculator.FragmentedUnbent | Analyzer/Sources/MidiModel/Simplifiers/PitchBendCalculator.cs:74-111 | after splitting, no note of the model keeps a bend list |
| PitchBendCalculator.WithoutPitchBends | Analyzer/Sources/MidiModel/Simplifiers/PitchBendCalculator.cs:117 | the events kept are exactly those that are not pitch bends |
| PitchBendCalculator.RemovePitchBends | Analyzer/Sources/MidiModel/Simplifiers/PitchBendCalculator.cs:113-118 | every channel of every track loses its pitch bends; meta events and layout are kept |
| PitchBendCalculator.SplitNote | Analyzer/Sources/MidiModel/Simplifiers/PitchBendCalculator.cs:79-110 | a bent note splits into the fragment left in its place and the fragments appended to its channel |
| PitchBendCalculator.DiscretizeEvent | Analyzer/Sources/MidiModel/Simplifiers/PitchBendCalculator.cs:74-111 | a bent note is split; any other event stays and adds nothing |
| PitchBendCalculator.DiscretizeAll | Analyzer/Sources/MidiModel/Simplifiers/PitchBendCalculator.cs:77-111 | the outer loop replaces each event by what stays of it and collects, per channel, the fragments the bent notes add in event order |
| PitchBendCalculator.DiscretizedAllStep | Analyzer/Sources/MidiModel/Simplifiers/PitchBendCalculator.cs:77-111 | processing one more event appends what stays of it |
| PitchBendCalculator.SplitBentNotes | Analyzer/Sources/MidiModel/Simplifiers/PitchBendCalculator.cs:74-111 | the in-place split builds exactly the fragmented model |
| PitchBendCalculator.DiscretizeBends | Analyzer/Sources/MidiModel/Simplifiers/PitchBendCalculator.cs:72-119 | each channel becomes its fragmented form without bends; afterwards no channel holds a pitch bend and no note a bend list |
| Transposer.TargetTone | Analyzer/Sources/MidiModel/Simplifiers/Transposer.cs:13 | the target tonic is the requested tone for a major key and the tone whose relative major it is (three semitones below) for a minor key |
| Transposer.Shift | Analyzer/Sources/MidiModel/Simplifiers/Transposer.cs:14-17 | the shift lies in -5..6, carries the key's tonic to the target modulo 12, and is 0 when the tonic is already the target |
| Transposer.ShiftShortest | Analyzer/Sources/MidiModel/Simplifiers/Transposer.cs:14-17 | no other shift reaching the target tonic is shorter |
| Transposer.ShiftedPitch | Analyzer/Sources/MidiModel/Simplifiers/Transposer.cs:21-25 | the shifted pitch differs from note + shift by whole octaves, stays in 0..127 for a valid note, and is exactly note + shift when that is in range |
| Transposer.RotatedTone | Analyzer/Sources/MidiModel/Simplifiers/Transposer.cs:30-35 | the rotated tone differs from tone + shift by whole octaves |
| Transposer.WithPitch | Analyzer/Sources/MidiModel/Simplifiers/Transposer.cs:25 | the note with the new NoteNumber |
| Transposer.TransposedEventEffect | Analyzer/Sources/MidiModel/Simplifiers/Transposer.cs:19-26 | only non-percussion notes change, and only in pitch, by the shift plus whole octaves, staying in 0..127; percussion notes and other events are unchanged |
| Transposer.RotatedMetaEffect | Analyzer/Sources/MidiModel/Simplifiers/Transposer.cs:28-36 | a beat's chord tone and a key signature's tone move by the shift modulo 12; their mode, kind and times are kept; other meta events are unchanged |
| Transposer.Transpose | Analyzer/Sources/MidiModel/Simplifiers/Transposer.cs:7-39 | without a key the model is unchanged; otherwise every control event is transposed and every meta event rotated by the shift, in place, and the model's own key is left alone |
| Clipper.KeptExactly | Analyzer/Sources/MidiModel/Simplifiers/Clipper.cs:12-32 | the removal loop keeps exactly the events that are neither a NoteOff nor a note ending before min or starting after max, in order |
| Clipper.Clipped | Analyzer/Sources/MidiModel/Simplifiers/Clipper.cs:37-41 | a moved note starts at start - min, or 0 when it began before min; it ends at end - min when it ended by max, otherwise at 30 s; its other fields are kept; a kept note starts within the window and does not end before 0 |
| Clipper.ClippedEvent | Analyzer/Sources/MidiModel/Simplifiers/Clipper.cs:34-41 | events that are not notes are left alone |
| Clipper.ClippedAll | Analyzer/Sources/MidiModel/Simplifiers/Clipper.cs:35-42 | each kept event is changed on its own, in order |
| Clipper.Release | Analyzer/Sources/MidiModel/Simplifiers/Clipper.cs:44-50 | the added NoteOff has the note's channel and pitch, the note's new end as its time, and velocity 64 |
| Clipper.ReleasesMatchNotes | Analyzer/Sources/MidiModel/Simplifiers/Clipper.cs:35-51 | the added NoteOffs match the remaining notes one to one, in order |
| Clipper.ClippedEventsEffect | Analyzer/Sources/MidiModel/Simplifiers/Clipper.cs:10-51 | a clipped channel holds no original NoteOff and no note outside the window; every other event survives; the tail is one added NoteOff of velocity 64 per kept note |
| Clipper.ClipChannel | Analyzer/Sources/MidiModel/Simplifiers/Clipper.cs:12-51 | the two loops over one channel compute the clipped channel |
| Clipper.RemoveDropped | Analyzer/Sources/MidiModel/Simplifiers/Clipper.cs:12-32 | the RemoveAt loop, index stepping back on a removal, leaves exactly the kept events |
| Clipper.KeptStep | Analyzer/Sources/MidiModel/Simplifiers/Clipper.cs:12-32 | one more event is kept unless it is dropped |
| Clipper.MoveIntoWindow | Analyzer/Sources/MidiModel/Simplifiers/Clipper.cs:34-51 | the loop over the remaining notes moves each into the window and appends its NoteOff |
| Clipper.ClippedAllStep | Analyzer/Sources/MidiModel/Simplifiers/Clipper.cs:35-42 | one more kept event is appended in its clipped form |
| Clipper.ReleasesStep | Analyzer/Sources/MidiModel/Simplifiers/Clipper.cs:44-50 | one more note appends one NoteOff; any other event appends none |
| Clipper.Clip | Analyzer/Sources/MidiModel/Simplifiers/Clipper.cs:8-53 | every channel of every track becomes its clipped form; meta events and the track layout are kept |
| TimeChanger.Onsets | Analyzer/Sources/MidiModel/TimeChanger.cs:64-109 | the onsets are the real times of the notes with a volume above 0, ordered by time and with none lost |
| TimeChanger.Counted | Analyzer/Sources/MidiModel/TimeChanger.cs:15-22 | a histogram the loop builds has maxDifference bins |
| TimeChanger.CountedFails | Analyzer/Sources/MidiModel/TimeChanger.cs:15-22 | the loop fails with an index error exactly when some gap passes the minimum but is negative |
| TimeChanger.CountedBins | Analyzer/Sources/MidiModel/TimeChanger.cs:15-22 | bin d counts the gaps, in tenths of a millisecond rounded half to even, that equal d, when d is at least the minimum; other bins stay 0 |
| TimeChanger.CountedTotal | Analyzer/Sources/MidiModel/TimeChanger.cs:15-22 | no bin is negative, and the bins together hold at most one entry per gap |
| TimeChanger.CountedFailStays | Analyzer/Sources/MidiModel/TimeChanger.cs:15-22 | once the loop has failed it stays failed |
| TimeChanger.GetNoteDifferences | Analyzer/Sources/MidiModel/TimeChanger.cs:9-25 | the loop computes the histogram of gaps, or the exception |
| TimeChanger.NoteDifferencesFailure | Analyzer/Sources/MidiModel/TimeChanger.cs:9-25 | with a minimum of 0 or more only a negative length throws, and the histogram has maxDifference bins |
| TimeChanger.Blurred | Analyzer/Sources/MidiModel/TimeChanger.cs:27-43 | the blurred array has the input's length |
| TimeChanger.BlurOfZeroIsIdentity | Analyzer/Sources/MidiModel/TimeChanger.cs:27-43 | a blur of width 0 changes nothing |
| TimeChanger.BlurOfNegativeWidth | Analyzer/Sources/MidiModel/TimeChanger.cs:27-43 | a blur of negative width turns every bin to 0 |
| TimeChanger.BlurDominates | Analyzer/Sources/MidiModel/TimeChanger.cs:27-43 | on counts, a blur of width 0 or more keeps every bin at least as high as it was, and non-negative |
| TimeChanger.BoxBlur | Analyzer/Sources/MidiModel/TimeChanger.cs:27-43 | the nested loops compute the blur: entry i sums the inputs from i - size to i + size that lie in the array |
| TimeChanger.SmoothedCounts | Analyzer/Sources/MidiModel/TimeChanger.cs:49-74 | three blurs of width 10 keep every count at least as high, and the total non-negative |
| TimeChanger.Smooth | Analyzer/Sources/MidiModel/TimeChanger.cs:49-74 | the three blurs in a row |
| TimeChanger.Peak | Analyzer/Sources/MidiModel/TimeChanger.cs:53-57 | the peak loop ends at the first maximum, or stays at (0, 0) when nothing is positive |
| TimeChanger.MostCommonDifferenceRange | Analyzer/Sources/MidiModel/TimeChanger.cs:45-60 | the most common gap fails only for a negative frame rate and lies between 0 and the last bin |
| TimeChanger.GetMostCommonDifference | Analyzer/Sources/MidiModel/TimeChanger.cs:45-60 | the histogram, three blurs, the peak loop and index / 10 |
| TimeChanger.Scan | Analyzer/Sources/MidiModel/TimeChanger.cs:81-90 | the break loop ends with its start value or with a bin at or after i, holding that bin's value |
| TimeChanger.Fraction | Analyzer/Sources/MidiModel/TimeChanger.cs:94-102 | (int)((index + 0.5) / d) is the integer quotient index / d, never above index |
| TimeChanger.TwosFactor | Analyzer/Sources/MidiModel/TimeChanger.cs:94-96 | the factor of the 8/4/2 group is 1, 2, 4 or 8 |
| TimeChanger.ThreesFactor | Analyzer/Sources/MidiModel/TimeChanger.cs:98-99 | the factor of the 9/3 group is 1, 3 or 9 |
| TimeChanger.PrimeFactor | Analyzer/Sources/MidiModel/TimeChanger.cs:101-102 | the factor of the 5 or 7 test is 1 or that prime |
| TimeChanger.Divisor | Analyzer/Sources/MidiModel/TimeChanger.cs:92-102 | the divisor is at least 1 and divides 2520 |
| TimeChanger.Tenths | Analyzer/Sources/MidiModel/TimeChanger.cs:104 | index / 10 / div is non-negative and is 0 exactly when the index is 0 |
| TimeChanger.SmallestDifferenceRange | Analyzer/Sources/MidiModel/TimeChanger.cs:68-105 | the smallest important gap fails only for a negative frame rate, is never negative, is 0 unless the frame rate is positive, and is a peak index over ten over a divisor of 2520 |
| TimeChanger.GetSmallestImportantDifference | Analyzer/Sources/MidiModel/TimeChanger.cs:68-105 | the histogram, three blurs, the median test, the break loop and the divisor tests |
| TimeChanger.ScanPeak | Analyzer/Sources/MidiModel/TimeChanger.cs:81-90 | the break loop ends at a bin of the histogram |
| TimeChanger.PeakDivisor | Analyzer/Sources/MidiModel/TimeChanger.cs:92-102 | the four divisor tests compute the divisor |
| TimeChanger.SmallestImportantDifferenceOf | Analyzer/Sources/MidiModel/TimeChanger.cs:62-66 | the overload on a model works on the sorted onsets of its sounding notes |
| TimeChanger.FrameStep | Analyzer/Sources/MidiModel/TimeChanger.cs:116-117 | one more frame adds the frame rate |
| TimeChanger.FramesMonotone | Analyzer/Sources/MidiModel/TimeChanger.cs:116-117 | more frames never make a shorter length |
| TimeChanger.CloserIsNearest | Analyzer/Sources/MidiModel/TimeChanger.cs:116-119 | the chosen length is a positive whole number of frames, and no positive number of frames is nearer to the gap |
| TimeChanger.RelativeTimeChangeRange | Analyzer/Sources/MidiModel/TimeChanger.cs:107-122 | the change fails only for a negative frame rate, is 1 when there is no important gap, and is always positive |
| TimeChanger.NearestFrames | Analyzer/Sources/MidiModel/TimeChanger.cs:116-119 | the low and high multiples and the closer of the two |
| TimeChanger.GetRelativeTimeChange | Analyzer/Sources/MidiModel/TimeChanger.cs:107-122 | the change computed on the model's sorted onsets |
| Pips.Slot | Analyzer/Sources/MidiParser/MetreNormalizer/Pip.cs:51-66 | a beat length has a table entry exactly when it lies in MinLength .. MaxLength, at length - MinLength |
| Pips.NewPip | Analyzer/Sources/MidiParser/MetreNormalizer/Pip.cs:28-36 | a new pip has the given index, no notes, is not a beat, and has zeroed score and state tables of one entry per beat length |
| Pips.SetBestScore | Analyzer/Sources/MidiParser/MetreNormalizer/Pip.cs:54-57 | the entry of this length becomes (score, prevLength) and no other entry changes |
| Pips.SetState | Analyzer/Sources/MidiParser/MetreNormalizer/Pip.cs:64-67 | the state of this length becomes the value and no other state changes |
| Pips.Transition | Analyzer/Sources/MidiParser/MetreNormalizer/Pip.cs:71-132 | a change of 0 keeps the state; the change is forgiven exactly when it is 0, a rise of at most BeatSlop outside a rise, or a fall of at most BeatSlop outside a fall; a punished change resets to None; Raising and Declining are entered and kept exactly as the switch does |
| Pips.NoDeclineWithoutFall | Analyzer/Sources/MidiParser/MetreNormalizer/Pip.cs:71-132 | from a state other than Declining, non-negative changes never lead to Declining |
| Pips.Advance | Analyzer/Sources/MidiParser/MetreNormalizer/Pip.cs:71-132 | SetState with the automaton stores the new state for this length only, and a punished change leaves it None |
| Pips.PercussionCountBound | Analyzer/Sources/MidiParser/MetreNormalizer/Pip.cs:44 | at most every note counts as percussion, and none when no note is percussion |
| Pips.ComputeBaseScore | Analyzer/Sources/MidiParser/MetreNormalizer/Pip.cs:38-47 | a pip without notes scores 0 |
| Pips.BaseScoreOfOne | Analyzer/Sources/MidiParser/MetreNormalizer/Pip.cs:38-47 | a pip with one note scores NoteFactor times ((sqrt(1) plus 1 for percussion) times its effective length in seconds times its root volume, plus NoteBonus) |
| Tactus.Deviation | Analyzer/Sources/MidiParser/MetreNormalizer/Tactus.cs:146-154 | an unchanged beat length costs nothing and keeps the previous beat's state; only a punished change costs, and it resets the state; a change of more than one pip always costs 10 * sqrt(change / 1000 s) |
| Tactus.Candidate | Analyzer/Sources/MidiParser/MetreNormalizer/Tactus.cs:117-138 | a previous beat reaching before the start resets the state to None; otherwise the state is the automaton's |
| Tactus.SweepFirstMaximum | Analyzer/Sources/MidiParser/MetreNormalizer/Tactus.cs:115-143 | the loop over prevLength ends on the first strict maximum of the candidates above the starting best and leaves the last candidate's state |
| Tactus.BestScoreIsFirstMaximum | Analyzer/Sources/MidiParser/MetreNormalizer/Tactus.cs:106-144 | with no beat before the start the entry is the pip's own score times DefaultScore with no previous length; otherwise it is the first best candidate over the window, or (double.MinValue, -1) when none beats it |
| Tactus.BestScoreLinked | Analyzer/Sources/MidiParser/MetreNormalizer/Tactus.cs:106-144 | the entry CalculateBestScore returns names -1 or a length of the window |
| Tactus.AfterLength | Analyzer/Sources/MidiParser/MetreNormalizer/Tactus.cs:100-101 | one step of the inner loop keeps the tables' shape |
| Tactus.AfterLengthEffect | Analyzer/Sources/MidiParser/MetreNormalizer/Tactus.cs:100-101 | the step writes the entry CalculateBestScore returns for that length, changes no other length's entry, and nothing outside pip i's tables |
| Tactus.AfterRow | Analyzer/Sources/MidiParser/MetreNormalizer/Tactus.cs:98-102 | the inner loop keeps the tables' shape |
| Tactus.AfterRowFrame | Analyzer/Sources/MidiParser/MetreNormalizer/Tactus.cs:98-102 | the inner loop touches only the tables of pip i |
| Tactus.AfterRowLinked | Analyzer/Sources/MidiParser/MetreNormalizer/Tactus.cs:98-102 | every entry the inner loop writes is linked |
| Tactus.AfterRows | Analyzer/Sources/MidiParser/MetreNormalizer/Tactus.cs:96-103 | the outer loop keeps the tables' shape |
| Tactus.AfterRowsFrame | Analyzer/Sources/MidiParser/MetreNormalizer/Tactus.cs:96-103 | the pass over pips 0 .. n-1 changes only their tables |
| Tactus.AfterRowsLinked | Analyzer/Sources/MidiParser/MetreNormalizer/Tactus.cs:96-103 | the pass over pips 0 .. n-1 leaves every entry of the window linked |
| Tactus.Scored | Analyzer/Sources/MidiParser/MetreNormalizer/Tactus.cs:94-104 | ComputeTactusScores keeps the tables' shape |
| Tactus.ScoredLinked | Analyzer/Sources/MidiParser/MetreNormalizer/Tactus.cs:94-104 | after a pass only the tables have changed and every entry of the window is linked: the pip's own score with no previous length when no beat fits before it, otherwise a length of the window unless nothing scored above double.MinValue |
| Tactus.SearchRowBest | Analyzer/Sources/MidiParser/MetreNormalizer/Tactus.cs:67-71 | the inner search keeps the best entry seen, replacing it only by a strictly greater score |
| Tactus.SearchFromBest | Analyzer/Sources/MidiParser/MetreNormalizer/Tactus.cs:65-72 | the outer search over the last maxPip pips keeps the best entry seen |
| Tactus.Evaluate | Analyzer/Sources/MidiParser/MetreNormalizer/Tactus.cs:63-74 | the search fails with a general error, or finds an entry above double.MinValue among the last maxPip pips and the window's lengths |
| Tactus.EvaluateBest | Analyzer/Sources/MidiParser/MetreNormalizer/Tactus.cs:61-79 | the search fails exactly when no entry among the last maxPip pips scores above double.MinValue; otherwise it finds an entry with the greatest score |
| Tactus.Labelled | Analyzer/Sources/MidiParser/MetreNormalizer/Tactus.cs:81-92 | labelling keeps the pips' number and tables or throws an index error |
| Tactus.LabelledEffect | Analyzer/Sources/MidiParser/MetreNormalizer/Tactus.cs:81-92 | labelling changes only the beat marks and offsets, leaves the pips after the start alone, and marks the start as a beat of its length |
| Tactus.LabelledSucceeds | Analyzer/Sources/MidiParser/MetreNormalizer/Tactus.cs:81-92 | on linked tables, labelling from any pip and any length of the window succeeds |
| Tactus.EvaluateAsWritten | Analyzer/Sources/MidiParser/MetreNormalizer/Tactus.cs:61-79 | as written, a failed search is the general error |
| Tactus.ShortPieceFailsAsWritten | Analyzer/Sources/MidiParser/MetreNormalizer/Tactus.cs:70-76 | for a piece of at most min pips, as written the labelling asks for length -1 and throws, while starting from the entry's own length succeeds |
| Tactus.WindowOf | Analyzer/Sources/MidiParser/MetreNormalizer/Tactus.cs:27-30 | every window of the sweep, quantized, lies inside the tables |
| Tactus.SweepFromChoice | Analyzer/Sources/MidiParser/MetreNormalizer/Tactus.cs:27-36 | the sweep keeps the tables' shape, never ends below its starting choice, ends with that choice or a window inside the tables, ends above double.MinValue once a window is swept, and fails on an empty piece |
| Tactus.NextWindow | Analyzer/Sources/MidiParser/MetreNormalizer/Tactus.cs:27 | the next window keeps its width ratio and its upper end grows, so the sweep terminates |
| Tactus.SweepFromStep | Analyzer/Sources/MidiParser/MetreNormalizer/Tactus.cs:27-36 | a window still within TactusMax is scored next, quantized |
| Tactus.BeatTimes | Analyzer/Sources/MidiParser/MetreNormalizer/Tactus.cs:45-53 | there is at most one beat time per pip after the first |
| Tactus.Deltas | Analyzer/Sources/MidiParser/MetreNormalizer/Tactus.cs:43-53 | one gap per beat |
| Tactus.DeltasSnoc | Analyzer/Sources/MidiParser/MetreNormalizer/Tactus.cs:47-52 | one more beat adds one gap, from the last beat to it |
| Tactus.DeltasPrefix | Analyzer/Sources/MidiParser/MetreNormalizer/Tactus.cs:43-53 | the gaps of a prefix are a prefix of the gaps |
| Tactus.DeltasTelescope | Analyzer/Sources/MidiParser/MetreNormalizer/Tactus.cs:43-53 | the gaps add up to the last beat time |
| Tactus.BeatTimesRecovered | Analyzer/Sources/MidiParser/MetreNormalizer/Tactus.cs:43-53 | the running sums of the gaps give back the beat times |
| Tactus.Computed | Analyzer/Sources/MidiParser/MetreNormalizer/Tactus.cs:21-54 | Compute fails on an empty piece |
| Tactus.SetStateSame | Analyzer/Sources/MidiParser/MetreNormalizer/Pip.cs:64-67 | writing back the stored state changes nothing |
| Tactus.SetStateTwice | Analyzer/Sources/MidiParser/MetreNormalizer/Pip.cs:64-67 | a second write of the same state slot overrides the first |
| Tactus.CandidateFrame | Analyzer/Sources/MidiParser/MetreNormalizer/Tactus.cs:117-138 | a candidate reads the base scores and earlier pips' tables, never the states of its own pip |
| Tactus.SweepStep | Analyzer/Sources/MidiParser/MetreNormalizer/Tactus.cs:117-141 | one pass of the loop on a table differing only in the state being written is one step of the sweep |
| Tactus.Tactus.constructor | Analyzer/Sources/MidiParser/MetreNormalizer/Tactus.cs:16-19 | the object holds the pips built for the piece |
| Tactus.Tactus.DeviationPenalty | Analyzer/Sources/MidiParser/MetreNormalizer/Tactus.cs:146-154 | returns the deviation's penalty and stores the automaton's state for (pipIndex, offset); nothing else changes |
| Tactus.Tactus.CandidateScore | Analyzer/Sources/MidiParser/MetreNormalizer/Tactus.cs:119-140 | returns the candidate's score and stores the state it leaves |
| Tactus.Tactus.CalculateBestScore | Analyzer/Sources/MidiParser/MetreNormalizer/Tactus.cs:106-144 | returns the first best candidate, with the last pass's state stored |
| Tactus.Tactus.ComputeRow | Analyzer/Sources/MidiParser/MetreNormalizer/Tactus.cs:98-102 | the inner loop leaves the tables of the row pass |
| Tactus.Tactus.ComputeTactusScores | Analyzer/Sources/MidiParser/MetreNormalizer/Tactus.cs:94-104 | the tables become those of a full pass over the window |
| Tactus.Tactus.LabelBeats | Analyzer/Sources/MidiParser/MetreNormalizer/Tactus.cs:81-92 | succeeds exactly when the labelling does, leaving its pips |
| Tactus.Tactus.EvaluateSolution | Analyzer/Sources/MidiParser/MetreNormalizer/Tactus.cs:61-79 | fails as the search does; without labelling leaves the pips alone and returns the best score; with labelling, from the best entry's own length, returns the score and the labelled pips |
| Tactus.Tactus.ScoreWindow | Analyzer/Sources/MidiParser/MetreNormalizer/Tactus.cs:29-33 | the window is set from the quantized bounds, scored, and evaluated without labelling |
| Tactus.Tactus.SweepOnce | Analyzer/Sources/MidiParser/MetreNormalizer/Tactus.cs:27-36 | one turn of the sweep is the sweep from this window reduced to the sweep from the next |
| Tactus.Tactus.SweepWindows | Analyzer/Sources/MidiParser/MetreNormalizer/Tactus.cs:23-36 | the loop leaves the sweep's choice and tables |
| Tactus.Tactus.Compute | Analyzer/Sources/MidiParser/MetreNormalizer/Tactus.cs:21-54 | returns exactly the gaps the specification function computes |
| Tactus.Tactus.BeatGaps | Analyzer/Sources/MidiParser/MetreNormalizer/Tactus.cs:43-53 | the loop yields the gap from each beat to the previous one |
| BeatSegments.NewSegment | Analyzer/Sources/MidiParser/MetreNormalizer/BeatSegment.cs:24-33 | a new segment has its index, no notes, zeroed scores, no predecessors, and no best entry yet |
| BeatSegments.IndexToInterval | Analyzer/Sources/MidiParser/MetreNormalizer/BeatSegment.cs:73-80 | null stays null; entry i is interval i + 2, in 2 .. 7 |
| BeatSegments.GetPreviousIndex | Analyzer/Sources/MidiParser/MetreNormalizer/BeatSegment.cs:82-86 | null stays null; otherwise the predecessor stored for that entry |
| BeatSegments.BaseScoreNonNegative | Analyzer/Sources/MidiParser/MetreNormalizer/BeatSegment.cs:68-71 | with non-negative volumes and lengths the base score, the sum of RealVolume times length in seconds, is non-negative |
| BeatSegments.Candidates | Analyzer/Sources/MidiParser/MetreNormalizer/BeatSegment.cs:55-59 | one candidate continuation per entry of the earlier segment |
| BeatSegments.BestPrevious | Analyzer/Sources/MidiParser/MetreNormalizer/BeatSegment.cs:54-59 | a chosen predecessor is one of the candidates seen, with its score |
| BeatSegments.BestPreviousIsFirstMax | Analyzer/Sources/MidiParser/MetreNormalizer/BeatSegment.cs:54-59 | the inner loop ends on the first maximum of the candidates, or null with double.MinValue exactly when none beats double.MinValue |
| BeatSegments.Row | Analyzer/Sources/MidiParser/MetreNormalizer/BeatSegment.cs:43-63 | one new entry per interval |
| BeatSegments.BestInterval | Analyzer/Sources/MidiParser/MetreNormalizer/BeatSegment.cs:42-64 | a chosen best entry is an interval that fits before the segment, with its score |
| BeatSegments.BestIntervalIsFirstMax | Analyzer/Sources/MidiParser/MetreNormalizer/BeatSegment.cs:42-64 | the best entry is the first maximum over the intervals that fit, or null with double.MinValue exactly when none of them beats double.MinValue |
| BeatSegments.EarlyBeatHasNoBest | Analyzer/Sources/MidiParser/MetreNormalizer/BeatSegment.cs:42-52 | before the third beat no interval fits and the best entry stays null |
| BeatSegments.Install | Analyzer/Sources/MidiParser/MetreNormalizer/BeatSegment.cs:61-64 | a segment with its row written keeps one table entry per interval |
| BeatSegments.Connected | Analyzer/Sources/MidiParser/MetreNormalizer/BeatSegment.cs:40-66 | connecting keeps the segment's index, notes and base score and its tables' shape |
| BeatSegments.ScoreAtOnPrefix | Analyzer/Sources/MidiParser/MetreNormalizer/BeatSegment.cs:47-62 | an entry depends only on the base score and the scores of earlier segments |
| BeatSegments.ConnectedOnPrefix | Analyzer/Sources/MidiParser/MetreNormalizer/BeatSegment.cs:40-66 | what is written into segment k depends only on its own notes and base score and on the tables of the segments before it |
| BeatSegments.BestContinuation | Analyzer/Sources/MidiParser/MetreNormalizer/BeatSegment.cs:54-59 | the inner loop computes the first best continuation |
| BeatSegments.Entry | Analyzer/Sources/MidiParser/MetreNormalizer/BeatSegment.cs:45-62 | the entry is the base score with no predecessor when the interval reaches before the first beat, and the best continuation otherwise |
| BeatSegments.ConnectToPreviousSegments | Analyzer/Sources/MidiParser/MetreNormalizer/BeatSegment.cs:40-66 | the loops compute the connected segment |
| BeatStrength.Loud | Analyzer/Sources/MidiParser/MetreNormalizer/BeatStrengthAnalyzer.cs:87 | the kept notes are a sub-list of the notes |
| BeatStrength.LoudKeepsLoud | Analyzer/Sources/MidiParser/MetreNormalizer/BeatStrengthAnalyzer.cs:87 | exactly the notes with a positive velocity are kept |
| BeatStrength.Walk | Analyzer/Sources/MidiParser/MetreNormalizer/BeatStrengthAnalyzer.cs:92-95 | the cursor moves forward only and stays on a segment |
| BeatStrength.WalkStops | Analyzer/Sources/MidiParser/MetreNormalizer/BeatStrengthAnalyzer.cs:92-95 | the walk passes only segments that end no later than 50 ms after the note's onset, and stops at the last segment or at one that ends later |
| BeatStrength.CursorAfter | Analyzer/Sources/MidiParser/MetreNormalizer/BeatStrengthAnalyzer.cs:86-101 | the cursor always names a segment, or 0 when there is none |
| BeatStrength.CursorMonotone | Analyzer/Sources/MidiParser/MetreNormalizer/BeatStrengthAnalyzer.cs:86-101 | the cursor never moves back as more notes are walked |
| BeatStrength.LoudNotesInTimeOrder | Analyzer/Sources/MidiParser/MetreNormalizer/BeatStrengthAnalyzer.cs:87 | the loud notes ordered by onset, stably |
| BeatStrength.WalkCursor | Analyzer/Sources/MidiParser/MetreNormalizer/BeatStrengthAnalyzer.cs:92-95 | the while loop computes the walk |
| BeatStrength.CollectedNear | Analyzer/Sources/MidiParser/MetreNormalizer/BeatStrengthAnalyzer.cs:97-100 | a segment collects only notes that start within 50 ms of its beat |
| BeatStrength.Gathered | Analyzer/Sources/MidiParser/MetreNormalizer/BeatStrengthAnalyzer.cs:89-101 | gathering keeps the segments' number and shape |
| BeatStrength.GatheredKeeps | Analyzer/Sources/MidiParser/MetreNormalizer/BeatStrengthAnalyzer.cs:99 | gathering changes nothing but the segments' notes |
| BeatStrength.GatheredNothing | Analyzer/Sources/MidiParser/MetreNormalizer/BeatStrengthAnalyzer.cs:89-101 | with no notes every segment is left as it was |
| BeatStrength.GatheredStep | Analyzer/Sources/MidiParser/MetreNormalizer/BeatStrengthAnalyzer.cs:89-101 | the next note joins the segment the cursor stops at, when it starts within 50 ms of its beat, and no other |
| BeatStrength.Filled | Analyzer/Sources/MidiParser/MetreNormalizer/BeatStrengthAnalyzer.cs:84-102 | AddNotesToSegments keeps the segments' number and shape |
| BeatStrength.Scored | Analyzer/Sources/MidiParser/MetreNormalizer/BeatStrengthAnalyzer.cs:79 | computing one segment's base score leaves the others alone |
| BeatStrength.ConnectedAll | Analyzer/Sources/MidiParser/MetreNormalizer/BeatStrengthAnalyzer.cs:77-81 | the loop keeps the segments' number and shape |
| BeatStrength.ConnectedAllUntouched | Analyzer/Sources/MidiParser/MetreNormalizer/BeatStrengthAnalyzer.cs:77-81 | segments not yet handled are left alone |
| BeatStrength.ConnectedAllStable | Analyzer/Sources/MidiParser/MetreNormalizer/BeatStrengthAnalyzer.cs:77-81 | handling later segments leaves the earlier ones as they were |
| BeatStrength.ConnectedAllAt | Analyzer/Sources/MidiParser/MetreNormalizer/BeatStrengthAnalyzer.cs:77-81 | segment k ends as step k left it |
| BeatStrength.ConnectedAllScored | Analyzer/Sources/MidiParser/MetreNormalizer/BeatStrengthAnalyzer.cs:79 | segment k ends with the base score of its notes |
| BeatStrength.ConnectedAllBefore | Analyzer/Sources/MidiParser/MetreNormalizer/BeatStrengthAnalyzer.cs:77-81 | the segments before k end with the tables they had at step k |
| BeatStrength.ConnectedAllSolves | Analyzer/Sources/MidiParser/MetreNormalizer/BeatStrengthAnalyzer.cs:75-82 | after ConnectSegments every segment satisfies the recurrence: its base score is that of its notes, and its tables and best entry are those computed from the final tables of the segments before it |
| BeatStrength.WithLevels | Analyzer/Sources/MidiParser/MetreNormalizer/BeatStrengthAnalyzer.cs:38-72 | the beats carry the given levels |
| BeatStrength.SetLevel | Analyzer/Sources/MidiParser/MetreNormalizer/BeatStrengthAnalyzer.cs:48-65 | setting one beat's level changes only that level |
| BeatStrength.OnsetsAndLevels | Analyzer/Sources/MidiParser/MetreNormalizer/BeatStrengthAnalyzer.cs:38-72 | beats are determined by their onsets, lengths and levels |
| BeatStrength.MarkWeak | Analyzer/Sources/MidiParser/MetreNormalizer/BeatStrengthAnalyzer.cs:50-66 | marking keeps the number of levels |
| BeatStrength.MarkWeakBetween | Analyzer/Sources/MidiParser/MetreNormalizer/BeatStrengthAnalyzer.cs:50-66 | marking changes only beats strictly between the two strong ones, and only to weak |
| BeatStrength.Backtrack | Analyzer/Sources/MidiParser/MetreNormalizer/BeatStrengthAnalyzer.cs:46-72 | the backtracking keeps the number of levels |
| BeatStrength.BacktrackChanges | Analyzer/Sources/MidiParser/MetreNormalizer/BeatStrengthAnalyzer.cs:46-72 | backtracking from s makes s strong, leaves every later beat alone, and changes a beat only to strong or, from the third beat on, to weak |
| BeatStrength.VisitedAreStrong | Analyzer/Sources/MidiParser/MetreNormalizer/BeatStrengthAnalyzer.cs:46-72 | every strong beat the chain visits ends with level 0, each 2 to 7 beats after the next one |
| BeatStrength.StrongLevels | Analyzer/Sources/MidiParser/MetreNormalizer/BeatStrengthAnalyzer.cs:36-73 | one level per segment |
| BeatStrength.StrongLevelsShape | Analyzer/Sources/MidiParser/MetreNormalizer/BeatStrengthAnalyzer.cs:36-73 | every level is 0, 1 or 2; the first segment with the greatest BestScore is strong; the first two beats are never weak; every beat after it stays 1 |
| BeatStrength.BeatStrengthAnalyzer.constructor | Analyzer/Sources/MidiParser/MetreNormalizer/BeatStrengthAnalyzer.cs:17-27 | the beats ordered by time and one new segment per beat |
| BeatStrength.BeatStrengthAnalyzer.AddNotesToSegments | Analyzer/Sources/MidiParser/MetreNormalizer/BeatStrengthAnalyzer.cs:84-102 | fails exactly when there is a loud note and no beat; otherwise the segments are filled |
| BeatStrength.BeatStrengthAnalyzer.ConnectSegments | Analyzer/Sources/MidiParser/MetreNormalizer/BeatStrengthAnalyzer.cs:75-82 | the segments become the connected ones |
| BeatStrength.BeatStrengthAnalyzer.ResetLevels | Analyzer/Sources/MidiParser/MetreNormalizer/BeatStrengthAnalyzer.cs:38 | every beat gets level 1, nothing else changes |
| BeatStrength.BeatStrengthAnalyzer.MarkStrong | Analyzer/Sources/MidiParser/MetreNormalizer/BeatStrengthAnalyzer.cs:48-66 | beat s becomes strong and the beats the interval calls for weak |
| BeatStrength.BeatStrengthAnalyzer.BacktrackFrom | Analyzer/Sources/MidiParser/MetreNormalizer/BeatStrengthAnalyzer.cs:46-72 | the loop leaves the backtracked levels |
| BeatStrength.BeatStrengthAnalyzer.ChooseStrongBeats | Analyzer/Sources/MidiParser/MetreNormalizer/BeatStrengthAnalyzer.cs:36-73 | fails exactly when there are no segments; otherwise the beats get the strong levels |
| BeatStrength.BeatStrengthAnalyzer.Analyze | Analyzer/Sources/MidiParser/MetreNormalizer/BeatStrengthAnalyzer.cs:29-34 | fails exactly when there are no beats, with the error of the first throw; otherwise the segments are filled and connected and the beats get the strong levels |
| MetreFit.Multiple | Analyzer/Sources/MidiParser/MetreNormalizer/Normalizer.cs:231 | a quarter point weighs 1, 0.5 or 0.25 |
| MetreFit.PlacementBounds | Analyzer/Sources/MidiParser/MetreNormalizer/Normalizer.cs:229-233 | within a beat the portion is a quarter point 0..4 and the deviation lies in [-1, 1), being 0 exactly on a quarter point |
| MetreFit.PortionBounds | Analyzer/Sources/MidiParser/MetreNormalizer/Normalizer.cs:230 | within a beat the portion is 0..4 |
| MetreFit.OnQuarterPoint | Analyzer/Sources/MidiParser/MetreNormalizer/Normalizer.cs:230-233 | the deviation is 0 exactly when the note lies on a quarter point |
| MetreFit.DeviationIsTwiceTheRest | Analyzer/Sources/MidiParser/MetreNormalizer/Normalizer.cs:230-233 | the deviation is twice the distance to the chosen quarter point, in quarter beats, and lies in [-1, 1) |
| MetreFit.OnGridGoodness | Analyzer/Sources/MidiParser/MetreNormalizer/Normalizer.cs:227-236 | a note on a beat scores exp(0); one on the half beat exp(0) / 2 |
| MetreFit.GoodnessBounded | Analyzer/Sources/MidiParser/MetreNormalizer/Normalizer.cs:227-236 | when exp maps the non-positive reals into [0, 1], every note scores in [0, 1] |
| MetreFit.Goodnesses | Analyzer/Sources/MidiParser/MetreNormalizer/Normalizer.cs:213-214 | one goodness per note |
| MetreFit.MeanGoodnessBounded | Analyzer/Sources/MidiParser/MetreNormalizer/Normalizer.cs:213-214 | so does the average over the loud notes |
| MetreFit.MeanGoodnessOnBeats | Analyzer/Sources/MidiParser/MetreNormalizer/Normalizer.cs:213-214 | notes all on beats average exp(0) |
| MetreFit.NoteTicks | Analyzer/Sources/MidiParser/MetreNormalizer/Normalizer.cs:207-211 | at most one tick per event |
| MetreFit.LoudTicks | Analyzer/Sources/MidiParser/MetreNormalizer/Normalizer.cs:213 | at most one tick per event |
| MetreFit.LoudAreNotes | Analyzer/Sources/MidiParser/MetreNormalizer/Normalizer.cs:213 | every loud note is a note |
| MetreFit.LoudAfterFirst | Analyzer/Sources/MidiParser/MetreNormalizer/Normalizer.cs:211-214 | no loud note comes before the first note, so the offset subtraction never underflows |
| MetreFit.FirstTick | Analyzer/Sources/MidiParser/MetreNormalizer/Normalizer.cs:211 | the minimum tick is one of the ticks and no tick is below it |
| MetreFit.FitnessFails | Analyzer/Sources/MidiParser/MetreNormalizer/Normalizer.cs:205-237 | the metric fails exactly when there are notes but none loud (the empty average throws) or a zero tick count; without notes the offset is 0 and the model unchanged |
| MetreFit.FitnessChoice | Analyzer/Sources/MidiParser/MetreNormalizer/Normalizer.cs:205-226 | the offset is 0 or the first note's tick; the stored fit is the larger average; offset 0 wins only when strictly better; nothing else in the model changes |
| MetreFit.FitnessBounded | Analyzer/Sources/MidiParser/MetreNormalizer/Normalizer.cs:205-226 | when exp maps the non-positive reals into [0, 1] the stored fit lies in [0, 1] |
| MetreFit.OnBeatPieceFits | Analyzer/Sources/MidiParser/MetreNormalizer/Normalizer.cs:205-226 | a piece whose loud notes all fall on beats from tick 0 stores a fit of at least exp(0), above the 0.4 that makes the metre embedded |
| Normalizer.BeatLevel | Analyzer/Sources/MidiParser/MetreNormalizer/Normalizer.cs:83-88 | a beat's level is 0, 1 or 2 |
| Normalizer.BeatLevelPeriodic | Analyzer/Sources/MidiParser/MetreNormalizer/Normalizer.cs:83-88 | levels repeat bar by bar; each bar starts strong and only its start is strong |
| Normalizer.BarPatterns | Analyzer/Sources/MidiParser/MetreNormalizer/Normalizer.cs:83-88 | one bar of 4/4 is strong, weak, medium, weak; of 6/8 strong, weak, weak, medium, weak, weak; of 3/4 strong, weak, weak |
| Normalizer.ThenAssoc | Analyzer/Sources/MidiParser/MetreNormalizer/Normalizer.cs:74-94 | appending found beats in two steps is appending them at once |
| Normalizer.SteadyGrid | Analyzer/Sources/MidiParser/MetreNormalizer/Normalizer.cs:74-94 | without signature changes the grid is evenly spaced: beat j is at time + j * step with the level of bar counter counter + j, up to the end |
| Normalizer.DivStep | Analyzer/Sources/MidiParser/MetreNormalizer/Normalizer.cs:74 | one step less distance is one beat fewer |
| Normalizer.ChangeStartsBar | Analyzer/Sources/MidiParser/MetreNormalizer/Normalizer.cs:76-80 | a time signature that has been reached restarts the bar, so that beat is strong |
| Normalizer.GridInRange | Analyzer/Sources/MidiParser/MetreNormalizer/Normalizer.cs:74-94 | every grid beat lies between the start tick and the end of the piece, in tick order |
| Normalizer.SignatureTicks | Analyzer/Sources/MidiParser/MetreNormalizer/Normalizer.cs:64 | one key per signature |
| Normalizer.SignaturesInTickOrder | Analyzer/Sources/MidiParser/MetreNormalizer/Normalizer.cs:64 | the signatures stably ordered by tick |
| Normalizer.ImplicitBeats | Analyzer/Sources/MidiParser/MetreNormalizer/Normalizer.cs:59-94 | a level-2 beat at tick 0 when the offset is positive, then the grid from the offset in 4/4 |
| Normalizer.GridLoop | Analyzer/Sources/MidiParser/MetreNormalizer/Normalizer.cs:74-94 | the loop appends the grid from the given tick on |
| Normalizer.LengthsTile | Analyzer/Sources/MidiParser/MetreNormalizer/Normalizer.cs:114-122 | with two beats or more the beats keep their onsets and levels, each ends where the next begins, and the last is as long as the one before |
| Normalizer.Lengths | Analyzer/Sources/MidiParser/MetreNormalizer/Normalizer.cs:114-122 | one length per beat |
| Normalizer.ChainSpans | Analyzer/Sources/MidiParser/MetreNormalizer/Normalizer.cs:114-122 | in such a chain the lengths before beat k add up to its distance from the first onset |
| Normalizer.CalculateBeatLengths | Analyzer/Sources/MidiParser/MetreNormalizer/Normalizer.cs:114-122 | the beats ordered by onset with their lengths computed, or the index error of fewer than two beats |
| Normalizer.MeasureInPlace | Analyzer/Sources/MidiParser/MetreNormalizer/Normalizer.cs:117-121 | the loop writes the lengths in place |
| Normalizer.Tiling | Analyzer/Sources/MidiParser/MetreNormalizer/Normalizer.cs:125-134 | one beat per metre entry |
| Normalizer.TilingTiles | Analyzer/Sources/MidiParser/MetreNormalizer/Normalizer.cs:125-134 | the created beats start at 0, each lasts its metre entry and is strong, and each starts where the previous ends |
| Normalizer.CreateBeatEvents | Analyzer/Sources/MidiParser/MetreNormalizer/Normalizer.cs:125-134 | the loop lays out the tiling |
| Normalizer.Repeat | Analyzer/Sources/MidiParser/MetreNormalizer/Normalizer.cs:37-38 | k copies |
| Normalizer.SumRepeat | Analyzer/Sources/MidiParser/MetreNormalizer/Normalizer.cs:37-38 | k copies of x add k * x |
| Normalizer.CopiesExact | Analyzer/Sources/MidiParser/MetreNormalizer/Normalizer.cs:37-38 | after j copies the loop goes on exactly while j is below the number of copies |
| Normalizer.ExtendedCovers | Analyzer/Sources/MidiParser/MetreNormalizer/Normalizer.cs:36-38 | the extended metre keeps the detected lengths in front, reaches past the piece's length, and stops at the first copy that does |
| Normalizer.ExtendMetre | Analyzer/Sources/MidiParser/MetreNormalizer/Normalizer.cs:37-38 | the loop computes the extended metre, failing for an empty one |
| Normalizer.Midpoints | Analyzer/Sources/MidiParser/MetreNormalizer/Normalizer.cs:103-106 | one midpoint beat per beat |
| Normalizer.HalvedDoubles | Analyzer/Sources/MidiParser/MetreNormalizer/Normalizer.cs:102-107 | a round of halving doubles the number of beats |
| Normalizer.HalfFloor | Analyzer/Sources/MidiParser/MetreNormalizer/Normalizer.cs:100-108 | halving an average above a second lowers its integer part, so the loop ends |
| Normalizer.ShrunkIsHalved | Analyzer/Sources/MidiParser/MetreNormalizer/Normalizer.cs:99-109 | the loop ends with an average of at most a second, the start divided by 2 once per round, and above half a second unless no round ran |
| Normalizer.RoundsCount | Analyzer/Sources/MidiParser/MetreNormalizer/Normalizer.cs:100-109 | when every round doubles the beats, 2^rounds beats come from each original one |
| Normalizer.SubdividedCount | Analyzer/Sources/MidiParser/MetreNormalizer/Normalizer.cs:99-109 | the halving loop keeps 2^rounds beats for every beat it started with |
| Normalizer.HalveOnce | Analyzer/Sources/MidiParser/MetreNormalizer/Normalizer.cs:102-107 | one round adds a midpoint for each beat and computes the lengths again |
| Normalizer.RepeatRounds | Analyzer/Sources/MidiParser/MetreNormalizer/Normalizer.cs:100-109 | the loop runs the rounds |
| Normalizer.HalveLongBeats | Analyzer/Sources/MidiParser/MetreNormalizer/Normalizer.cs:99-109 | the average beat length, then the halving loop |
| Normalizer.FirstBeatAtZero | Analyzer/Sources/MidiParser/MetreNormalizer/Normalizer.cs:46-51 | afterwards some beat starts at 0; an added beat is weak, is the only one added, and lasts exactly until the earliest of the others |
| Metre.LastEnd | Analyzer/Sources/MidiParser/MetreNormalizer/Normalizer.cs:63 | the largest EndOfTrack tick, attained by one of them; the InvalidOperationException of Max exactly when there is none |
| Metre.AddToFirstTrack | Analyzer/Sources/MidiParser/MetreNormalizer/Normalizer.cs:71-91 | appends the events to the first track's meta events and changes nothing else; fails with the index error exactly when there is no track |
| Metre.AddKeepsWellFormed | Analyzer/Sources/MidiParser/MetreNormalizer/Normalizer.cs:71-91 | adding meta events keeps every track's sixteen channels |
| Metre.Advance | Analyzer/Sources/MidiParser/MetreNormalizer/Normalizer.cs:251-256 | the first beat from the cursor on that ends after the note, skipping only beats that end at or before it; fails (Peek on an empty queue) exactly when every remaining beat ends at or before the note |
| Metre.AdvanceQueue | Analyzer/Sources/MidiParser/MetreNormalizer/Normalizer.cs:251-256 | the dequeue loop finds that beat or fails the same way |
| Metre.Pairing | Analyzer/Sources/MidiParser/MetreNormalizer/Normalizer.cs:246-259 | one beat per note, each ending after its note, with the queue never moving back; a failure is InvalidOperation |
| Metre.PairingStep | Analyzer/Sources/MidiParser/MetreNormalizer/Normalizer.cs:249-258 | one more note pairs with the beat the queue reaches from the last pairing |
| Metre.PairingFailsOn | Analyzer/Sources/MidiParser/MetreNormalizer/Normalizer.cs:249-258 | a note that empties the queue fails the whole walk |
| Metre.PairNotes | Analyzer/Sources/MidiParser/MetreNormalizer/Normalizer.cs:248-259 | the foreach loop over the notes computes the pairing, or its failure |
| Metre.BeatsInTimeOrder | Analyzer/Sources/MidiParser/MetreNormalizer/Normalizer.cs:242 | the beats stably ordered by onset |
| Metre.MeterFitnessOfBeatEvents | Analyzer/Sources/MidiParser/MetreNormalizer/Normalizer.cs:240-275 | ArgumentException with no beats; otherwise the notes with a volume above 0 in time order, each paired with its beat, and the mean of their scores; InvalidOperationException when a note outlives the beats or no note is loud |
| Metre.OnBeatGoodness | Analyzer/Sources/MidiParser/MetreNormalizer/Normalizer.cs:264-274 | a note on its beat's onset scores exp(0), one half way through the beat half of that |
| Metre.BeatGoodnessBounded | Analyzer/Sources/MidiParser/MetreNormalizer/Normalizer.cs:264-274 | each note's score lies in [0, 1] when exp maps the non-positive reals there |
| Metre.BeatFitnessBounded | Analyzer/Sources/MidiParser/MetreNormalizer/Normalizer.cs:240-261 | the fit of the notes to the beats then lies in [0, 1] |
| Metre.AddImplicitBeats | Analyzer/Sources/MidiParser/MetreNormalizer/Normalizer.cs:61-94 | adds the grid from the offset up to the last EndOfTrack tick to the first track, and keeps the model well formed |
| Metre.ComputeMetaTimes | Analyzer/Sources/MidiParser/MetreNormalizer/Normalizer.cs:96 | the meta events with the real times ComputeRealTimes gives them, or its division failure |
| Metre.CalculateImplicitMetre | Analyzer/Sources/MidiParser/MetreNormalizer/Normalizer.cs:59-111 | the grid, the real times, the beat lengths, and the halving of beats while the average is over a second |
| Metre.DetectBeats | Analyzer/Sources/MidiParser/MetreNormalizer/Normalizer.cs:36-40 | the tactus of the model, the metre extended past the length of the piece, and one strong beat per entry from time 0 |
| Metre.AnalyzeStrengths | Analyzer/Sources/MidiParser/MetreNormalizer/BeatStrengthAnalyzer.cs:17-34 | the beats in time order with the levels the beat-strength analysis gives them; with no beats the failure Analyze throws |
| Metre.DetectMetre | Analyzer/Sources/MidiParser/MetreNormalizer/Normalizer.cs:33-43 | the detector branch: the notes padded to start at 0, the detected beats added beside the model's own, and their strengths |
| Metre.CalculateMetre | Analyzer/Sources/MidiParser/MetreNormalizer/Normalizer.cs:19-57 | fails when the fit of the file's own grid fails; IsNormalizedByMidiItself exactly when that fit is above 0.4; afterwards some beat starts at time 0 |
| Metre.MetreBranches | Analyzer/Sources/MidiParser/MetreNormalizer/Normalizer.cs:21-44 | a failing fit fails the whole; otherwise the grid branch exactly when the fit is above 0.4 and the detector branch otherwise |
| Metre.GridBranch | Analyzer/Sources/MidiParser/MetreNormalizer/Normalizer.cs:24-51 | the grid branch marks the model normalised by its own grid and keeps the grid's beats with a first beat at 0 |
| Metre.DetectorBranch | Analyzer/Sources/MidiParser/MetreNormalizer/Normalizer.cs:31-56 | the detector branch marks the model not normalised, keeps the detected beats with a first beat at 0, and stores the fit of the loud notes to those beats |
| Metre.MetreStartsAtZero | Analyzer/Sources/MidiParser/MetreNormalizer/Normalizer.cs:46-51 | whichever branch runs, some beat starts at time 0 |
| Metre.MetreFitBounded | Analyzer/Sources/MidiParser/MetreNormalizer/Normalizer.cs:53-56 | the fit CalculateMetre leaves lies in [0, 1] when the file has a note and exp maps the non-positive reals into [0, 1] |
| BeatNotes.BeatEventsOf | Analyzer/Sources/MidiParser/MetreNormalizer/Normalizer.cs:286 | only beat events, at most one per meta event |
| BeatNotes.BeatsInTimeOrder | Analyzer/Sources/MidiParser/MetreNormalizer/Normalizer.cs:286 | all the beat events, ordered by onset |
| BeatNotes.BeatNoteShape | Analyzer/Sources/MidiParser/MetreNormalizer/Normalizer.cs:290-301 | a beat note sounds on the percussion channel when its beat starts and for a quarter of the beat; it is a bass drum (36) exactly on strong beats and 44 otherwise; within the byte range a weak beat plays at three quarters of the volume, rounded down, any other at the full volume |
| BeatNotes.BeatNotesFor | Analyzer/Sources/MidiParser/MetreNormalizer/Normalizer.cs:288-303 | one note per beat |
| BeatNotes.AddBeatNotes | Analyzer/Sources/MidiParser/MetreNormalizer/Normalizer.cs:285-303 | the loop appends one note per beat event, in time order, to the percussion channel of the first track |
| BeatNotes.AddBeats | Analyzer/Sources/MidiParser/MetreNormalizer/Normalizer.cs:283-314 | fails on a model with no track; otherwise the beat notes are added, then the loudness pass, then sustain when asked; meta events are kept |
| Padding.ShiftedProperties | Analyzer/Sources/MidiParser/MetreNormalizer/Normalizer.cs:325-326 | no onset is negative afterwards, the order of onsets is kept, the first note lands on 0, and distances between events at or after it are kept |
| Padding.PaddedEvents | Analyzer/Sources/MidiParser/MetreNormalizer/Normalizer.cs:323-327 | one event per event |
| Padding.PaddedMeta | Analyzer/Sources/MidiParser/MetreNormalizer/Normalizer.cs:323-327 | one event per event |
| Padding.FirstSounding | Analyzer/Sources/MidiParser/MetreNormalizer/Normalizer.cs:322 | the minimum fails exactly when there is no note with a volume above 0 |
| Padding.PadNotesToZero | Analyzer/Sources/MidiParser/MetreNormalizer/Normalizer.cs:320-328 | fails exactly when there is no sounding note; otherwise every control and meta event is shifted and nothing else changes |
| Padding.PadEvents | Analyzer/Sources/MidiParser/MetreNormalizer/Normalizer.cs:323-327 | the loop over the control events |
| Padding.PadMeta | Analyzer/Sources/MidiParser/MetreNormalizer/Normalizer.cs:323-327 | the loop over the meta events |
| Padding.SoundingPadded | Analyzer/Sources/MidiParser/MetreNormalizer/Normalizer.cs:320-328 | the sounding notes after padding are the same notes, each moved by the shift |
| Padding.PaddedStartsAtZero | Analyzer/Sources/MidiParser/MetreNormalizer/Normalizer.cs:320-328 | after padding the first sounding note starts at 0 and none starts before it |
| BeatNotes.BeatsAdded | Analyzer/Sources/MidiParser/MetreNormalizer/Normalizer.cs:283-314 | fails with the index error when there is no track; without sustain it succeeds exactly when there is one; meta events are kept |
| KeyFinder.KeyNotes | Analyzer/Sources/MidiParser/KeyDetector/KeyFinder.cs:44-79 | only notes that sound (RealVolume above 0) and are not percussion, taken from the events |
| KeyFinder.ClassCount | Analyzer/Sources/MidiParser/KeyDetector/KeyFinder.cs:45 | a class count never exceeds the number of notes |
| KeyFinder.Histogram | Analyzer/Sources/MidiParser/KeyDetector/KeyFinder.cs:45-49 | one entry per pitch class |
| KeyFinder.Rotated | Analyzer/Sources/MidiParser/KeyDetector/KeyFinder.cs:54-61 | a rotation keeps the 12 entries |
| KeyFinder.Correlations | Analyzer/Sources/MidiParser/KeyDetector/KeyFinder.cs:54-61 | one correlation per rotation |
| KeyFinder.Analyze | Analyzer/Sources/MidiParser/KeyDetector/KeyFinder.cs:42-74 | the model's key becomes the key of the histogram of its sounding, non-percussion notes, and nothing else changes |
| KeyFinder.KeyOfShares | Analyzer/Sources/MidiParser/KeyDetector/KeyFinder.cs:51-73 | the key of the histogram: C minor when the histogram is flat (every correlation is then NaN), otherwise major exactly when the best major correlation is strictly above the best minor one |
| KeyFinder.NoNotesIsCMinor | Analyzer/Sources/MidiParser/KeyDetector/KeyFinder.cs:44-73 | a piece with no sounding, non-percussion note comes out as C minor |
| KeyFinder.FlatShifted | Analyzer/Sources/MidiParser/KeyDetector/KeyFinder.cs:45-62 | a shifted histogram is flat exactly when the original is |
| KeyFinder.Correlate | Analyzer/Sources/MidiParser/KeyDetector/KeyFinder.cs:51-61 | the rotation loop correlates every rotation with the major and the minor profile |
| KeyFinder.CountsTotal | Analyzer/Sources/MidiParser/KeyDetector/KeyFinder.cs:45 | the class counts add up to the number of notes |
| KeyFinder.HistogramSumsToOne | Analyzer/Sources/MidiParser/KeyDetector/KeyFinder.cs:45-49 | with at least one note the shares add up to 1 |
| KeyFinder.HistogramShare | Analyzer/Sources/MidiParser/KeyDetector/KeyFinder.cs:45-49 | entry p is the number of notes of pitch class p divided by the number of notes, or 0 when there are none, so it lies between 0 and 1 |
| KeyFinder.RotationIsTonic | Analyzer/Sources/MidiParser/KeyDetector/KeyFinder.cs:54-61 | rotation i puts pitch class i where the profile has its tonic |
| KeyFinder.ChooseKeyIsBest | Analyzer/Sources/MidiParser/KeyDetector/KeyFinder.cs:63-73 | major is chosen exactly when its best correlation is strictly above every minor one; the chosen correlation is the highest of its mode and no earlier tonic of that mode reaches it |
| KeyFinder.ShiftClasses | Analyzer/Sources/MidiParser/KeyDetector/KeyFinder.cs:45-49 | a shifted histogram has 12 entries |
| KeyFinder.ClassCountTransposed | Analyzer/Sources/MidiParser/KeyDetector/KeyFinder.cs:45 | transposing every note by t moves each class count t classes up |
| KeyFinder.HistogramTransposed | Analyzer/Sources/MidiParser/KeyDetector/KeyFinder.cs:45-49 | transposing every note by t semitones shifts the histogram by t |
| KeyFinder.RotateShifted | Analyzer/Sources/MidiParser/KeyDetector/KeyFinder.cs:54-61 | rotation i + t of the shifted histogram is rotation i of the original |
| KeyFinder.KeyTransposed | Analyzer/Sources/MidiParser/KeyDetector/KeyFinder.cs:42-74 | key detection commutes with transposition: the correlations move t tonics up and the mode found is the same, flat histograms included |
| KeyFinder.InTimeOrder | Analyzer/Sources/MidiParser/KeyDetector/KeyFinder.cs:79 | the notes ordered by onset: same length, same members, onsets never decreasing |
| KeyFinder.WindowCount | Analyzer/Sources/MidiParser/KeyDetector/KeyFinder.cs:89-95 | a class is counted at most once per window |
| KeyFinder.WindowCounts | Analyzer/Sources/MidiParser/KeyDetector/KeyFinder.cs:80-100 | one count per pitch class |
| KeyFinder.AlternativeAnalyze | Analyzer/Sources/MidiParser/KeyDetector/KeyFinder.cs:77-129 | the model's key becomes the key of the window counts (every window, the last one included) of its sounding, non-percussion notes in onset order, and nothing else changes |
| KeyFinder.CountWindows | Analyzer/Sources/MidiParser/KeyDetector/KeyFinder.cs:85-100 | the loop counts, per pitch class, the closed windows it occurs in, and leaves set exactly the classes of the window still open |
| KeyFinder.CountAllWindows | Analyzer/Sources/MidiParser/KeyDetector/KeyFinder.cs:85-100 | the loop plus one more flush counts, per pitch class, every window it occurs in, the one still open included |
| KeyFinder.Flush | Analyzer/Sources/MidiParser/KeyDetector/KeyFinder.cs:89-95 | every class seen in the window is counted once and cleared |
| KeyFinder.AlternativeNormalised | Analyzer/Sources/MidiParser/KeyDetector/KeyFinder.cs:102-103 | when something was counted the shares add up to 1 |
| KeyFinder.ClassesMembers | Analyzer/Sources/MidiParser/KeyDetector/KeyFinder.cs:99 | every note's pitch class is among the classes |
| KeyFinder.WindowsPartition | Analyzer/Sources/MidiParser/KeyDetector/KeyFinder.cs:85-100 | the windows together hold exactly the pitch classes of the notes, the last note is in the open window, and the boundary has moved one span per closed window |
| KeyFinder.CountedIffPresent | Analyzer/Sources/MidiParser/KeyDetector/KeyFinder.cs:89-95 | a class is counted in some window exactly when some window holds it |
| KeyFinder.NoWindowClosed | Analyzer/Sources/MidiParser/KeyDetector/KeyFinder.cs:87 | with no note at or after the first boundary no window closes |
| KeyFinder.EarlyNotesUncounted | Analyzer/Sources/MidiParser/KeyDetector/KeyFinder.cs:85-103 | as written a piece whose notes all start within the first 1200 ms counts nothing and comes out as C minor whatever its notes |
| KeyFinder.CorrectedCountsEveryClass | Analyzer/Sources/MidiParser/KeyDetector/KeyFinder.cs:85-103 | counting the last window too, every pitch class of a sounding note is counted at least once |
| KeyFinder.CorrectedKeyFromCorrelations | Analyzer/Sources/MidiParser/KeyDetector/KeyFinder.cs:85-129 | with any note at all the corrected counts are positive and the key comes from the correlations of their shares |
| SegmentNotes.IntervalScores | Analyzer/Sources/MidiParser/ChordDetector/NotesInSegment.cs:23-24 | one interval score per semitone |
| SegmentNotes.New | Analyzer/Sources/MidiParser/ChordDetector/NotesInSegment.cs:28-36 | a new segment has no notes, 24 scores of 0 and TotalNoteWeight 0 |
| SegmentNotes.AddNote | Analyzer/Sources/MidiParser/ChordDetector/NotesInSegment.cs:49-52 | the note is appended with weight 0 and nothing else changes |
| SegmentNotes.DistinctProperties | Analyzer/Sources/MidiParser/ChordDetector/NotesInSegment.cs:46 | Union keeps every note of either list and repeats none |
| SegmentNotes.DistinctOfDistinct | Analyzer/Sources/MidiParser/ChordDetector/NotesInSegment.cs:46 | a list without repeats is its own union |
| SegmentNotes.JoinShape | Analyzer/Sources/MidiParser/ChordDetector/NotesInSegment.cs:38-47 | the joined segment starts at the earlier start, is as long as both together, holds each note of either exactly once at weight 0, and keeps its scores, total weight and lowest pitch |
| SegmentNotes.NoteWeightBounds | Analyzer/Sources/MidiParser/ChordDetector/NotesInSegment.cs:85-87 | a note lying within the segment weighs at most its RealVolume, its share of the segment divided by one more than its whole octaves above the lowest pitch |
| SegmentNotes.Weighted | Analyzer/Sources/MidiParser/ChordDetector/NotesInSegment.cs:83-91 | every note is paired with its weight, in order |
| SegmentNotes.IntervalIndex | Analyzer/Sources/MidiParser/ChordDetector/NotesInSegment.cs:65 | the interval index is the note's distance above the chord root, modulo 12 |
| SegmentNotes.Contributions | Analyzer/Sources/MidiParser/ChordDetector/NotesInSegment.cs:63-74 | one contribution per note |
| SegmentNotes.Scored | Analyzer/Sources/MidiParser/ChordDetector/NotesInSegment.cs:54-78 | one score per chord |
| SegmentNotes.ComputeScores | Analyzer/Sources/MidiParser/ChordDetector/NotesInSegment.cs:54-78 | the weight loop, then the chord loop with the note loop inside |
| SegmentNotes.ChordScore | Analyzer/Sources/MidiParser/ChordDetector/NotesInSegment.cs:62-74 | the note loop adds up the weighted interval scores for one chord |
| SegmentNotes.ComputeWeights | Analyzer/Sources/MidiParser/ChordDetector/NotesInSegment.cs:80-92 | each note's weight is replaced, and TotalNoteWeight is 0.2 plus their sum |
| SegmentNotes.BonusDoubles | Analyzer/Sources/MidiParser/ChordDetector/NotesInSegment.cs:70-71 | the bonus doubles the interval score of a note starting within 20 ms of the segment's start, and changes no other |
| SegmentNotes.IntervalScoreTransposed | Analyzer/Sources/MidiParser/ChordDetector/NotesInSegment.cs:65-68 | a chord's interval score depends only on the interval: moving the note and the root up by k semitones changes nothing |
| SegmentNotes.GetScoreSums | Analyzer/Sources/MidiParser/ChordDetector/NotesInSegment.cs:54-97 | the score of a chord is the sum of its notes' weighted interval scores; an empty segment scores 0 for every chord and weighs 0.2 |
| SegmentNotes.TotalAtLeastBase | Analyzer/Sources/MidiParser/ChordDetector/NotesInSegment.cs:80-92 | with non-negative weights TotalNoteWeight is at least 0.2 |
| ChordSegments.DifferencePenalty | Analyzer/Sources/MidiParser/ChordDetector/ChordSegment.cs:34 | the penalty is never negative and is 0 exactly at distance 0 |
| ChordSegments.NewSegment | Analyzer/Sources/MidiParser/ChordDetector/ChordSegment.cs:44-55 | a new segment holds the key, the beat and an empty note pool of the beat, and 24-entry zero tables |
| ChordSegments.Position | Analyzer/Sources/MidiParser/ChordDetector/ChordSegment.cs:134-135 | a key's place is its tonic, plus 3 for a minor key |
| ChordSegments.DifferenceOnLineOfFifths | Analyzer/Sources/MidiParser/ChordDetector/ChordSegment.cs:132-142 | the distance is at most 6 |
| ChordSegments.DifferenceSymmetric | Analyzer/Sources/MidiParser/ChordDetector/ChordSegment.cs:132-142 | the distance is symmetric |
| ChordSegments.FewestFifths | Analyzer/Sources/MidiParser/ChordDetector/ChordSegment.cs:132-142 | the distance is the fewest fifths, up or down, leading from one position to the other modulo the octave |
| ChordSegments.NotFewer | Analyzer/Sources/MidiParser/ChordDetector/ChordSegment.cs:138-141 | no fewer fifths lead there, since 7 is its own inverse modulo 12 |
| ChordSegments.DifferenceZero | Analyzer/Sources/MidiParser/ChordDetector/ChordSegment.cs:132-142 | the distance is 0 exactly when the positions agree modulo 12; a major key and its relative minor are at distance 0 |
| ChordSegments.NotesInScale | Analyzer/Sources/MidiParser/ChordDetector/ChordSegment.cs:120-124 | at most three chord notes are counted |
| ChordSegments.ScalePenaltyHalves | Analyzer/Sources/MidiParser/ChordDetector/ChordSegment.cs:126 | the in-scale penalty halves with each chord note in the scale, and is 1 with all three |
| ChordSegments.KeyChordPenalisedLeast | Analyzer/Sources/MidiParser/ChordDetector/ChordSegment.cs:114-127 | the key's own triad is penalised least: no distance, all three notes in scale; no chord is penalised less |
| ChordSegments.PenaltyOrder | Analyzer/Sources/MidiParser/ChordDetector/ChordSegment.cs:115-126 | any distance penalty and in-scale factor cost at least as much as none |
| ChordSegments.OwnTriadInScale | Analyzer/Sources/MidiParser/ChordDetector/ChordSegment.cs:120-124 | root, fifth and third of the key's own triad are in its scale |
| ChordSegments.BaseScored | Analyzer/Sources/MidiParser/ChordDetector/ChordSegment.cs:87-99 | 24 base scores |
| ChordSegments.CalculateBaseScores | Analyzer/Sources/MidiParser/ChordDetector/ChordSegment.cs:87-99 | the beat's notes scored with the on-beat bonus, the note sum, then the base score of every chord |
| ChordSegments.ChordDistance | Analyzer/Sources/MidiParser/ChordDetector/ChordSegment.cs:72-73 | the distance between consecutive chords is at most 6 |
| ChordSegments.TransitionScaled | Analyzer/Sources/MidiParser/ChordDetector/ChordSegment.cs:72-76 | the move costs the base penalty times (1 + 0.7 level²): nothing when the chord stays; a change of mode between relative keys costs as two fifths |
| ChordSegments.Candidates | Analyzer/Sources/MidiParser/ChordDetector/ChordSegment.cs:69-80 | one candidate per previous chord |
| ChordSegments.BestOf | Analyzer/Sources/MidiParser/ChordDetector/ChordSegment.cs:67-80 | the chosen previous chord is among those seen, or 0 |
| ChordSegments.BestOfIsFirstMax | Analyzer/Sources/MidiParser/ChordDetector/ChordSegment.cs:67-80 | the inner loop ends at the first maximum, or at (0, double.MinValue) when no candidate exceeds double.MinValue |
| ChordSegments.Connected | Analyzer/Sources/MidiParser/ChordDetector/ChordSegment.cs:62-85 | every chord gets a score and a previous chord index in 0..23; nothing else changes |
| ChordSegments.ConnectToPreviousSegment | Analyzer/Sources/MidiParser/ChordDetector/ChordSegment.cs:62-85 | the loops compute the connected segment |
| ChordSegments.BestPreviousChord | Analyzer/Sources/MidiParser/ChordDetector/ChordSegment.cs:69-80 | the inner loop for one chord |
| ChordSegments.FoldStep | Analyzer/Sources/MidiParser/ChordDetector/ChordSegment.cs:79 | one more candidate replaces the best only when strictly greater |
| ChordSegments.ConnectedIsBest | Analyzer/Sources/MidiParser/ChordDetector/ChordSegment.cs:62-85 | each chord's score is the highest through any previous chord, reached first through its stored previous chord, and never below double.MinValue |
| ChordAnalysis.BeatPositions | Analyzer/Sources/MidiParser/ChordDetector/ChordAnalyzer.cs:23 | the positions of exactly the beat events, increasing |
| ChordAnalysis.BeatOrder | Analyzer/Sources/MidiParser/ChordDetector/ChordAnalyzer.cs:23 | every position names a beat event |
| ChordAnalysis.BeatOrderVisitsEachBeat | Analyzer/Sources/MidiParser/ChordDetector/ChordAnalyzer.cs:23 | the beats are taken in time order, each beat event exactly once |
| ChordAnalysis.HeardNotes | Analyzer/Sources/MidiParser/ChordDetector/ChordAnalyzer.cs:26-111 | only non-percussion notes of positive volume are taken, in model order |
| ChordAnalysis.HeardNotesComplete | Analyzer/Sources/MidiParser/ChordDetector/ChordAnalyzer.cs:26-111 | every such note is taken |
| ChordAnalysis.ByOnset | Analyzer/Sources/MidiParser/ChordDetector/ChordAnalyzer.cs:111 | ordering keeps the number of notes |
| ChordAnalysis.ByOnsetSorted | Analyzer/Sources/MidiParser/ChordDetector/ChordAnalyzer.cs:111 | the notes come in onset order and are the same notes |
| ChordAnalysis.LowestPitch | Analyzer/Sources/MidiParser/ChordDetector/ChordAnalyzer.cs:26 | the lowest pitch heard, one that occurs; Min of no notes throws InvalidOperationException |
| ChordAnalysis.KeySignaturesOf | Analyzer/Sources/MidiParser/ChordDetector/ChordAnalyzer.cs:29 | only key signatures of the model are taken |
| ChordAnalysis.KeyQueue | Analyzer/Sources/MidiParser/ChordDetector/ChordAnalyzer.cs:29 | the queue holds key signatures |
| ChordAnalysis.KeyQueueOrdered | Analyzer/Sources/MidiParser/ChordDetector/ChordAnalyzer.cs:29 | the queue is in time order |
| ChordAnalysis.FirstKey | Analyzer/Sources/MidiParser/ChordDetector/ChordAnalyzer.cs:28-31 | the first key: Dequeue of an empty queue or Value of a missing key throws InvalidOperationException; what remains queued are key signatures |
| ChordAnalysis.Advance | Analyzer/Sources/MidiParser/ChordDetector/ChordAnalyzer.cs:36-37 | the while loop takes a prefix of the queue |
| ChordAnalysis.KeysFrom | Analyzer/Sources/MidiParser/ChordDetector/ChordAnalyzer.cs:34-40 | one key per later beat |
| ChordAnalysis.SegmentKeys | Analyzer/Sources/MidiParser/ChordDetector/ChordAnalyzer.cs:31-40 | one key per beat; segment 0 has the first key |
| ChordAnalysis.LastKeyNoneReached | Analyzer/Sources/MidiParser/ChordDetector/ChordAnalyzer.cs:36-37 | with no change reached the key stays |
| ChordAnalysis.LastKeyIsLast | Analyzer/Sources/MidiParser/ChordDetector/ChordAnalyzer.cs:36-37 | the last change at or before the beat gives the key |
| ChordAnalysis.AdvanceIsLatest | Analyzer/Sources/MidiParser/ChordDetector/ChordAnalyzer.cs:36-37 | on a time-ordered queue the loop stops at the last change at or before the beat |
| ChordAnalysis.AdvanceKeepsLatest | Analyzer/Sources/MidiParser/ChordDetector/ChordAnalyzer.cs:34-40 | what the loop leaves gives the same key at any later beat |
| ChordAnalysis.KeysFromAreLatest | Analyzer/Sources/MidiParser/ChordDetector/ChordAnalyzer.cs:34-40 | each later segment's key is the last change at or before its beat |
| ChordAnalysis.SegmentKeysAreLatest | Analyzer/Sources/MidiParser/ChordDetector/ChordAnalyzer.cs:28-40 | every segment after the first has the key of the last key signature at or before its beat, or the first key |
| ChordAnalysis.InitialSegments | Analyzer/Sources/MidiParser/ChordDetector/ChordAnalyzer.cs:33-40 | one segment per beat with its key, time, length and level, and an empty own pool |
| ChordAnalysis.Walk | Analyzer/Sources/MidiParser/ChordDetector/ChordAnalyzer.cs:116-119 | the cursor stops at the first segment not ended by the onset; running past the last segment throws IndexOutOfRangeException |
| ChordAnalysis.SpanEnd | Analyzer/Sources/MidiParser/ChordDetector/ChordAnalyzer.cs:121 | the span runs to the first segment that does not start before the note ends |
| ChordAnalysis.AddToSpan | Analyzer/Sources/MidiParser/ChordDetector/ChordAnalyzer.cs:121-124 | adding keeps the number of segments |
| ChordAnalysis.AddToSpanReaches | Analyzer/Sources/MidiParser/ChordDetector/ChordAnalyzer.cs:121-124 | a segment gets the note at weight 0 exactly when it lies in the span; nothing else changes |
| ChordAnalysis.DistributePlaces | Analyzer/Sources/MidiParser/ChordDetector/ChordAnalyzer.cs:111-125 | only the own pools change, and only by notes still sounding when the beat starts |
| ChordAnalysis.DistributeSucceeds | Analyzer/Sources/MidiParser/ChordDetector/ChordAnalyzer.cs:113-125 | no throw when every note starts before the last beat ends |
| ChordAnalysis.DistributeFails | Analyzer/Sources/MidiParser/ChordDetector/ChordAnalyzer.cs:116-119 | a note starting after every beat has ended makes the index throw |
| ChordAnalysis.GroupStart | Analyzer/Sources/MidiParser/ChordDetector/ChordAnalyzer.cs:130-141 | the pool of a segment opens at the last opening beat at or before it, or before the loop |
| ChordAnalysis.GroupEnd | Analyzer/Sources/MidiParser/ChordDetector/ChordAnalyzer.cs:130-141 | and closes at the next opening beat, or the end |
| ChordAnalysis.GroupFirst | Analyzer/Sources/MidiParser/ChordDetector/ChordAnalyzer.cs:127-141 | the pool's first segment is at or before the segment |
| ChordAnalysis.Pool | Analyzer/Sources/MidiParser/ChordDetector/ChordAnalyzer.cs:127-151 | a scored pool holds 24 scores |
| ChordAnalysis.Pooled | Analyzer/Sources/MidiParser/ChordDetector/ChordAnalyzer.cs:130-151 | every segment gets its two pools, each with 24 scores; nothing else changes |
| ChordAnalysis.JoinAllHolds | Analyzer/Sources/MidiParser/ChordDetector/ChordAnalyzer.cs:146-147 | joining adds exactly the notes of the joined beats, at weight 0 |
| ChordAnalysis.PoolHoldsItsBeats | Analyzer/Sources/MidiParser/ChordDetector/ChordAnalyzer.cs:127-151 | a pool holds exactly the notes of the beats from its opening beat up to the next, each once, and all those segments share it |
| ChordAnalysis.JoinAllDistinct | Analyzer/Sources/MidiParser/ChordDetector/ChordAnalyzer.cs:146-147 | a joined pool holds no note twice |
| ChordAnalysis.SameGroup | Analyzer/Sources/MidiParser/ChordDetector/ChordAnalyzer.cs:130-141 | segments between the same opening beats have the same pool bounds |
| ChordAnalysis.GroupStartWithin | Analyzer/Sources/MidiParser/ChordDetector/ChordAnalyzer.cs:130-141 | no opening beat in between: same start |
| ChordAnalysis.GroupEndWithin | Analyzer/Sources/MidiParser/ChordDetector/ChordAnalyzer.cs:130-141 | no opening beat in between: same end |
| ChordAnalysis.FirstScored | Analyzer/Sources/MidiParser/ChordDetector/ChordAnalyzer.cs:98-99 | segment 0 has 24 scores |
| ChordAnalysis.ConnectedAt | Analyzer/Sources/MidiParser/ChordDetector/ChordAnalyzer.cs:96-106 | a later segment has 24 back links to chords |
| ChordAnalysis.ConnectAll | Analyzer/Sources/MidiParser/ChordDetector/ChordAnalyzer.cs:96-106 | every segment has 24 scores and every later one back links |
| ChordAnalysis.ConnectAllIsPass | Analyzer/Sources/MidiParser/ChordDetector/ChordAnalyzer.cs:96-106 | ConnectSegments computes a Viterbi pass: base scores first, then each score the best candidate through its predecessor |
| ChordAnalysis.ConnectedIsPass | Analyzer/Sources/MidiParser/ChordDetector/ChordAnalyzer.cs:101-105 | each later segment satisfies the recurrence |
| ChordAnalysis.CandidateAtMost | Analyzer/Sources/MidiParser/ChordDetector/ChordAnalyzer.cs:69-80 | no candidate exceeds the stored score |
| ChordAnalysis.CandidateChosen | Analyzer/Sources/MidiParser/ChordDetector/ChordAnalyzer.cs:69-80 | a score above the sentinel is the candidate through the stored predecessor |
| ChordAnalysis.PathScorePrefix | Analyzer/Sources/MidiParser/ChordDetector/ChordAnalyzer.cs:84-94 | a path's score depends only on its chords so far |
| ChordAnalysis.NoPathScoresMore | Analyzer/Sources/MidiParser/ChordDetector/ChordAnalyzer.cs:96-106 | no sequence of chords scores more than the pass's score of its last chord |
| ChordAnalysis.PathStep | Analyzer/Sources/MidiParser/ChordDetector/ChordAnalyzer.cs:72-76 | one step adds the candidate's increment |
| ChordAnalysis.Backtrack | Analyzer/Sources/MidiParser/ChordDetector/ChordAnalyzer.cs:89-93 | the backtracked path ends at the chord and names only chords |
| ChordAnalysis.BacktrackAchieves | Analyzer/Sources/MidiParser/ChordDetector/ChordAnalyzer.cs:89-93 | the backtracked chords score exactly the pass's score |
| ChordAnalysis.BacktrackStep | Analyzer/Sources/MidiParser/ChordDetector/ChordAnalyzer.cs:89-93 | one step of the backtrack keeps the score |
| ChordAnalysis.BestChords | Analyzer/Sources/MidiParser/ChordDetector/ChordAnalyzer.cs:84-94 | one chord per segment |
| ChordAnalysis.BestChordsChain | Analyzer/Sources/MidiParser/ChordDetector/ChordAnalyzer.cs:84-94 | the last chord is the first of highest score, each earlier one its successor's BestPrevious |
| ChordAnalysis.BacktrackChain | Analyzer/Sources/MidiParser/ChordDetector/ChordAnalyzer.cs:89-93 | the backtrack follows BestPrevious |
| ChordAnalysis.PassIsOptimal | Analyzer/Sources/MidiParser/ChordDetector/ChordAnalyzer.cs:84-106 | no chord sequence over all segments scores more than the chosen one |
| ChordAnalysis.BestChordsAreOptimal | Analyzer/Sources/MidiParser/ChordDetector/ChordAnalyzer.cs:43-106 | after Analyze the chosen chords score at least as much as any sequence of chords |
| ChordAnalysis.ChordPitches | Analyzer/Sources/MidiParser/ChordDetector/ChordAnalyzer.cs:61-62 | four pitches per chord |
| ChordAnalysis.ChordPitchesSpell | Analyzer/Sources/MidiParser/ChordDetector/ChordAnalyzer.cs:61-62 | root an octave below, root, major or minor third, fifth, all within a byte |
| ChordAnalysis.ChordNotesOf | Analyzer/Sources/MidiParser/ChordDetector/ChordAnalyzer.cs:64-77 | four notes per beat |
| ChordAnalysis.ChordNotesFor | Analyzer/Sources/MidiParser/ChordDetector/ChordAnalyzer.cs:59-78 | four notes for every beat |
| ChordAnalysis.ChordNotesAt | Analyzer/Sources/MidiParser/ChordDetector/ChordAnalyzer.cs:59-78 | note 4k + j plays pitch j of beat k's chord on channel 11 for the whole beat at the beat's volume |
| ChordAnalysis.ChordVolumeByLevel | Analyzer/Sources/MidiParser/ChordDetector/ChordAnalyzer.cs:70 | a strong beat plays at the volume, each level down an eighth less, rounded down |
| ChordAnalyzers.StartOutcome | Analyzer/Sources/MidiParser/ChordDetector/ChordAnalyzer.cs:20-41 | what the constructor builds, or throws: InvalidOperationException for no heard note or a missing key, IndexOutOfRangeException exactly when there are no beats; one segment per beat otherwise |
| ChordAnalyzers.StartFollowsBeats | Analyzer/Sources/MidiParser/ChordDetector/ChordAnalyzer.cs:23-40 | the segments follow the beats in time order, one each, all with no notes yet |
| ChordAnalyzers.StartKeys | Analyzer/Sources/MidiParser/ChordDetector/ChordAnalyzer.cs:28-40 | the first segment has the starting key; every later one the last key change at or before its beat |
| ChordAnalyzers.BeatTimesOrdered | Analyzer/Sources/MidiParser/ChordDetector/ChordAnalyzer.cs:23 | the beats are visited in non-decreasing time |
| ChordAnalyzers.AllKeysLatest | Analyzer/Sources/MidiParser/ChordDetector/ChordAnalyzer.cs:34-40 | every later segment has the last key change at or before its time |
| ChordAnalyzers.QueueOrdered | Analyzer/Sources/MidiParser/ChordDetector/ChordAnalyzer.cs:29-31 | the changes left after the first are in time order |
| ChordAnalyzers.SpreadNotes | Analyzer/Sources/MidiParser/ChordDetector/ChordAnalyzer.cs:111-125 | the loop over the notes computes the note distribution |
| ChordAnalyzers.DistributeStep | Analyzer/Sources/MidiParser/ChordDetector/ChordAnalyzer.cs:113-125 | one note: the walk, then the span, then the rest |
| ChordAnalyzers.WalkCursor | Analyzer/Sources/MidiParser/ChordDetector/ChordAnalyzer.cs:116-119 | the cursor loop computes the walk, including the throw |
| ChordAnalyzers.AddToBeats | Analyzer/Sources/MidiParser/ChordDetector/ChordAnalyzer.cs:121-124 | the span loop adds the note to exactly the span |
| ChordAnalyzers.GroupOf | Analyzer/Sources/MidiParser/ChordDetector/ChordAnalyzer.cs:130-141 | when a pool closes, every segment since it opened belongs to it |
| ChordAnalyzers.WithLevel | Analyzer/Sources/MidiParser/ChordDetector/ChordAnalyzer.cs:143-144 | setting one pool reference leaves the other and the own notes |
| ChordAnalyzers.WriteGroup | Analyzer/Sources/MidiParser/ChordDetector/ChordAnalyzer.cs:143-144 | the segments of a pool get the pool; the others are unchanged |
| ChordAnalyzers.KeptWritten | Analyzer/Sources/MidiParser/ChordDetector/ChordAnalyzer.cs:143-144 | writing a pool keeps everything but the pools |
| ChordAnalyzers.OtherKept | Analyzer/Sources/MidiParser/ChordDetector/ChordAnalyzer.cs:143-144 | writing one level leaves the other level's pools |
| ChordAnalyzers.CloseGroup | Analyzer/Sources/MidiParser/ChordDetector/ChordAnalyzer.cs:134-140 | closing a pool scores it and gives it to every segment it spans |
| ChordAnalyzers.ScorePool | Analyzer/Sources/MidiParser/ChordDetector/ChordAnalyzer.cs:134-139 | the closed pool scored is each of its segments' pool |
| ChordAnalyzers.PoolStep | Analyzer/Sources/MidiParser/ChordDetector/ChordAnalyzer.cs:132-147 | one step keeps the pooling invariant for one level |
| ChordAnalyzers.PoolSegments | Analyzer/Sources/MidiParser/ChordDetector/ChordAnalyzer.cs:127-151 | the second loop and the final scorings give every segment its bar and half-bar pools |
| ChordAnalyzers.PoolLoop | Analyzer/Sources/MidiParser/ChordDetector/ChordAnalyzer.cs:130-148 | the loop keeps the pooling invariant for both levels |
| ChordAnalyzers.PoolBoth | Analyzer/Sources/MidiParser/ChordDetector/ChordAnalyzer.cs:130-148 | one step for both levels |
| ChordAnalyzers.CloseBoth | Analyzer/Sources/MidiParser/ChordDetector/ChordAnalyzer.cs:150-151 | the two final scorings finish the pooling |
| ChordAnalyzers.PooledAll | Analyzer/Sources/MidiParser/ChordDetector/ChordAnalyzer.cs:127-151 | both pools in place everywhere is the pooled result |
| ChordAnalyzers.DistributeKeepsShape | Analyzer/Sources/MidiParser/ChordDetector/ChordAnalyzer.cs:113-125 | spreading notes keeps every pool's 24 scores |
| ChordAnalyzers.NotesAdded | Analyzer/Sources/MidiParser/ChordDetector/ChordAnalyzer.cs:108-152 | AddNotesToSegments keeps one 24-score segment per beat, or throws |
| ChordAnalyzers.NotesAddedOwn | Analyzer/Sources/MidiParser/ChordDetector/ChordAnalyzer.cs:108-152 | each segment keeps its beat; its own pool gains only heard notes not ended at its onset, at weight 0 |
| ChordAnalyzers.NotesAddedPool | Analyzer/Sources/MidiParser/ChordDetector/ChordAnalyzer.cs:127-151 | each bar or half-bar pool is shared by the beats of its bar or half bar and holds exactly their notes, once each |
| ChordAnalyzers.PooledShares | Analyzer/Sources/MidiParser/ChordDetector/ChordAnalyzer.cs:127-151 | each pool of the pooled segments is shared by its group and holds the group's notes once each |
| ChordAnalyzers.BuildSegments | Analyzer/Sources/MidiParser/ChordDetector/ChordAnalyzer.cs:33-40 | the construction loop builds the initial segments with the keys reached |
| ChordAnalyzers.KeyStep | Analyzer/Sources/MidiParser/ChordDetector/ChordAnalyzer.cs:36-37 | one dequeuing step keeps the key invariant |
| ChordAnalyzers.SegmentStep | Analyzer/Sources/MidiParser/ChordDetector/ChordAnalyzer.cs:39 | one new segment keeps the segment invariant |
| ChordAnalyzers.BuildStep | Analyzer/Sources/MidiParser/ChordDetector/ChordAnalyzer.cs:34-40 | one pass keeps the construction invariant |
| ChordAnalyzers.BuiltAll | Analyzer/Sources/MidiParser/ChordDetector/ChordAnalyzer.cs:34-40 | after the last beat the segments are the initial segments |
| ChordAnalyzers.DequeueReached | Analyzer/Sources/MidiParser/ChordDetector/ChordAnalyzer.cs:36-37 | the while loop dequeues exactly what Advance takes |
| ChordAnalyzers.KeysFromFirst | Analyzer/Sources/MidiParser/ChordDetector/ChordAnalyzer.cs:34-40 | the keys so far plus the keys to come are the keys of all beats |
| ChordAnalyzers.ConnectEach | Analyzer/Sources/MidiParser/ChordDetector/ChordAnalyzer.cs:96-106 | the loop computes ConnectSegments' pass |
| ChordAnalyzers.WrittenStep | Analyzer/Sources/MidiParser/ChordDetector/ChordAnalyzer.cs:89-93 | writing one more chord extends the written part |
| ChordAnalyzers.WriteChords | Analyzer/Sources/MidiParser/ChordDetector/ChordAnalyzer.cs:84-94 | the chosen chords are written into their beat events and every other meta event is unchanged |
| ChordAnalyzers.PlayChords | Analyzer/Sources/MidiParser/ChordDetector/ChordAnalyzer.cs:59-78 | the loop makes the four chord notes of every beat |
| ChordAnalyzers.Starting | Analyzer/Sources/MidiParser/ChordDetector/ChordAnalyzer.cs:20-41 | the constructor's beats, lowest pitch and segments |
| ChordAnalyzers.StartFormed | Analyzer/Sources/MidiParser/ChordDetector/ChordAnalyzer.cs:20-41 | one shaped segment per distinct beat event |
| ChordAnalyzers.ChordAnalyzer.constructor | Analyzer/Sources/MidiParser/ChordDetector/ChordAnalyzer.cs:20-41 | the analyzer holds the model, the beats in order, the lowest pitch and the initial segments |
| ChordAnalyzers.ChordAnalyzer.Create | Analyzer/Sources/MidiParser/ChordDetector/ChordAnalyzer.cs:20-41 | the constructor's throws become failures; otherwise a fresh valid analyzer |
| ChordAnalyzers.ChordAnalyzer.AddNotesToSegments | Analyzer/Sources/MidiParser/ChordDetector/ChordAnalyzer.cs:108-152 | the segments become NotesAdded; on a throw they stay |
| ChordAnalyzers.ChordAnalyzer.ConnectSegments | Analyzer/Sources/MidiParser/ChordDetector/ChordAnalyzer.cs:96-106 | the segments become ConnectAll of themselves |
| ChordAnalyzers.ChordAnalyzer.ChooseBestChords | Analyzer/Sources/MidiParser/ChordDetector/ChordAnalyzer.cs:84-94 | the chords of BestChords are written into the beat events; nothing else in the model changes |
| ChordAnalyzers.ChordAnalyzer.Analyze | Analyzer/Sources/MidiParser/ChordDetector/ChordAnalyzer.cs:43-48 | the three passes in turn: the segments are connected and the optimal chords written; control events stay |
| ChordAnalyzers.ChordAnalyzer.AddChordNotesToModel | Analyzer/Sources/MidiParser/ChordDetector/ChordAnalyzer.cs:55-82 | four notes per beat appended to channel 11 of the first track, then only loudness changes; no track throws |
| ChordAnalyzers.StartInputs | Analyzer/Sources/MidiParser/ChordDetector/ChordAnalyzer.cs:23-31 | the beats in time order, the first key with the key signatures still queued, and the lowest heard pitch, as the constructor computes them; at least one beat |
| ChordAnalyzers.StartedBy | Analyzer/Sources/MidiParser/ChordDetector/ChordAnalyzer.cs:20-41 | segments built from those inputs are the start: one shaped segment per beat event |
| ChordAnalyzers.ChordsAdded | Analyzer/Sources/MidiParser/ChordDetector/ChordAnalyzer.cs:55-82 | the chord notes appended to channel 11 of the first track, then the loudness pass; fails with the index error exactly when there is no track; meta events are kept and the count of notes added is that of the append |
| MusRecords.TypeCode | Analyzer/Sources/MusParser/EventType.cs:3-12 | the seven kinds take the codes 0..6, and reading a code back gives the kind |
| MusRecords.ChannelCluster | Analyzer/Sources/MusParser/ModelToMusicEvents.cs:51-59 | a channel casts to a cluster exactly when it is 0..11, the cluster whose number it is |
| MusRecords.LowestPitch | Analyzer/Sources/MusParser/ModelToMusicEvents.cs:51-59 | a channel of one of the eleven ranged clusters has its range's low pitch, between 24 and 55; any other channel throws KeyNotFoundException |
| MusRecords.VolumeByte | Analyzer/Sources/MusParser/ModelToMusicEvents.cs:52-68 | the average volume itself encodes as 128 |
| MusRecords.Encode | Analyzer/Sources/MusParser/ModelToMusicEvents.cs:48-100 | each Write* call emits four bytes |
| MusRecords.EncodeReadsBack | Analyzer/Sources/MusParser/ModelToMusicEvents.cs:48-100 | every field comes back from its four bytes: the kind from the low nibble, the channel from the high nibble, pitch above the channel's lowest, drum above 35, tempo low byte first, chord, instrument id |
| MusRecords.NoteOnHeader | Analyzer/Sources/MusParser/ModelToMusicEvents.cs:50 | the first byte of a note on is the kind code plus 16 times the channel |
| MusRecords.SongEndBytes | Analyzer/Sources/MusParser/ModelToMusicEvents.cs:94-100 | the end is the end code and three zero bytes |
| MusRecords.Bytes | Analyzer/Sources/MusParser/ModelToMusicEvents.cs:102-141 | a list of calls writes four bytes each |
| MusRecords.BytesAppend | Analyzer/Sources/MusParser/ModelToMusicEvents.cs:102-141 | the bytes of two lists in turn are the two byte strings joined |
| MusRecords.BytesAt | Analyzer/Sources/MusParser/ModelToMusicEvents.cs:102-141 | call k occupies bytes 4k to 4k + 3 |
| NoteClusters.NewCluster | Analyzer/Sources/MusParser/NoteCluster.cs:67-76 | a new cluster has no starts or ends and keeps its metre, chord and place in the beat |
| MusRecords.NoteOnReadsBack | Analyzer/Sources/MusParser/ModelToMusicEvents.cs:48-54 | a note on's four bytes give back its kind, its channel from the high nibble, its pitch above the channel's lowest and its instrument id |
| MusRecords.NoteOffReadsBack | Analyzer/Sources/MusParser/ModelToMusicEvents.cs:56-62 | a note off's four bytes give back its kind, its pitch above the channel's lowest and its channel in the third byte |
| MusRecords.PercussionReadsBack | Analyzer/Sources/MusParser/ModelToMusicEvents.cs:64-78 | a percussion record's bytes give back its kind and its drum above 35 |
| MusRecords.SpaceReadsBack | Analyzer/Sources/MusParser/ModelToMusicEvents.cs:80-92 | a space's bytes give back its kind, its tempo low byte first and a chord of 0..255 |
| MusWriter.NoteOns | Analyzer/Sources/MusParser/ModelToMusicEvents.cs:108-135 | one note on per note start |
| MusWriter.NoteOffs | Analyzer/Sources/MusParser/ModelToMusicEvents.cs:109-133 | one note off per note end |
| MusWriter.PercussionOns | Analyzer/Sources/MusParser/ModelToMusicEvents.cs:110-134 | one percussion on per percussion start |
| MusWriter.PercussionOffs | Analyzer/Sources/MusParser/ModelToMusicEvents.cs:111-132 | one percussion off per percussion end |
| MusWriter.EventLists | Analyzer/Sources/MusParser/ModelToMusicEvents.cs:106-138 | one list of calls per cluster |
| MusWriter.Pause | Analyzer/Sources/MusParser/ModelToMusicEvents.cs:104-137 | the pause counter never exceeds the cluster index |
| MusWriter.WriteClusters | Analyzer/Sources/MusParser/ModelToMusicEvents.cs:102-141 | the calls are the clusters' records then the song end, and every call succeeds for clusters on musical channels |
| MusWriter.WriteCluster | Analyzer/Sources/MusParser/ModelToMusicEvents.cs:106-138 | one iteration writes the pending spaces, if the cluster has anything, then its four lists, and updates the pause |
| MusWriter.WriteSpaces | Analyzer/Sources/MusParser/ModelToMusicEvents.cs:115-129 | the while loop writes the spaces of the pause |
| MusWriter.EventsAreNotes | Analyzer/Sources/MusParser/ModelToMusicEvents.cs:132-135 | a cluster's lists give note and percussion calls only, none for an empty cluster |
| MusWriter.EventListAt | Analyzer/Sources/MusParser/ModelToMusicEvents.cs:106-138 | entry k is cluster k's calls |
| MusWriter.EventListsFit | Analyzer/Sources/MusParser/ModelToMusicEvents.cs:106-138 | the loops of every cluster write as the writer relies on |
| MusWriter.EventListsWritable | Analyzer/Sources/MusParser/ModelToMusicEvents.cs:132-135 | the calls of clusters on musical channels all succeed |
| MusWriter.SpacesWritable | Analyzer/Sources/MusParser/ModelToMusicEvents.cs:115-129 | the loop writes only spaces |
| MusWriter.EventsWritable | Analyzer/Sources/MusParser/ModelToMusicEvents.cs:132-135 | a writable cluster's calls succeed |
| MusWriter.AppendWritable | Analyzer/Sources/MusParser/ModelToMusicEvents.cs:102-141 | succeeding calls joined still succeed |
| MusWriter.ClusterRecordsWritable | Analyzer/Sources/MusParser/ModelToMusicEvents.cs:113-135 | an iteration's calls succeed |
| MusWriter.FramesAppend | Analyzer/Sources/MusParser/ModelToMusicEvents.cs:115-129 | frames add up over joined lists |
| MusWriter.FirstSpace | Analyzer/Sources/MusParser/ModelToMusicEvents.cs:117-128 | the first space is big (six frames) when six remain and it starts on a multiple of six in the beat, small (one frame) otherwise |
| MusWriter.SpacesTotal | Analyzer/Sources/MusParser/ModelToMusicEvents.cs:115-129 | the spaces before a cluster stand for exactly the pause |
| MusWriter.SpacePlaced | Analyzer/Sources/MusParser/ModelToMusicEvents.cs:115-129 | each space starts where the previous ones end, with tempo 1 and the chord twelve frames ahead, or 24 past the end |
| MusWriter.NoSpacesNoFrames | Analyzer/Sources/MusParser/ModelToMusicEvents.cs:132-135 | note calls take no frames |
| MusWriter.FramesWritten | Analyzer/Sources/MusParser/ModelToMusicEvents.cs:104-138 | after i clusters the frames written plus the pause are i |
| MusWriter.ClusterAtItsFrame | Analyzer/Sources/MusParser/ModelToMusicEvents.cs:104-138 | every non-empty cluster's calls are written after exactly as many frames as its index |
| MusWriter.NextWritten | Analyzer/Sources/MusParser/ModelToMusicEvents.cs:106-138 | a non-empty cluster adds its spaces and its calls |
| MusWriter.TrailingClustersSilent | Analyzer/Sources/MusParser/ModelToMusicEvents.cs:113-137 | trailing empty clusters write nothing |
| MusWriter.WrittenNoSongEnd | Analyzer/Sources/MusParser/ModelToMusicEvents.cs:106-138 | nothing before the end is a song end |
| MusWriter.WrittenWritable | Analyzer/Sources/MusParser/ModelToMusicEvents.cs:106-138 | all calls of the clusters succeed |
| MusWriter.StreamEnds | Analyzer/Sources/MusParser/ModelToMusicEvents.cs:102-141 | the song end is the last call and only there |
| MusWriter.FileEnds | Analyzer/Sources/MusParser/ModelToMusicEvents.cs:94-140 | the file is a whole number of four-byte records and ends in the end code and three zeros |
| MusWriter.LastRecordBytes | Analyzer/Sources/MusParser/ModelToMusicEvents.cs:94-140 | the last four bytes are the last call's |
| MusWriter.GroupedAppend | Analyzer/Sources/MusParser/ModelToMusicEvents.cs:132-135 | a sorted group after lower-ranked ones keeps the order |
| MusWriter.NoteOnsSorted | Analyzer/Sources/MusParser/ModelToMusicEvents.cs:108-135 | note ons go by channel, then pitch |
| MusWriter.NoteOffsSorted | Analyzer/Sources/MusParser/ModelToMusicEvents.cs:109-133 | note offs go by channel, then pitch |
| MusWriter.PercussionOnsSorted | Analyzer/Sources/MusParser/ModelToMusicEvents.cs:110-134 | percussion ons go by drum |
| MusWriter.PercussionOffsSorted | Analyzer/Sources/MusParser/ModelToMusicEvents.cs:111-132 | percussion offs go by drum |
| MusWriter.EventsGrouped | Analyzer/Sources/MusParser/ModelToMusicEvents.cs:132-135 | percussion ends, note ends, percussion starts, note starts, each group sorted |
| MusWriter.EventsHoldCluster | Analyzer/Sources/MusParser/ModelToMusicEvents.cs:108-135 | each entry of the cluster gets exactly one call and nothing else is written |
| MusWriter.NoteOnsHold | Analyzer/Sources/MusParser/ModelToMusicEvents.cs:108-135 | the note ons are the starts' calls, and only those |
| MusWriter.NoteOffsHold | Analyzer/Sources/MusParser/ModelToMusicEvents.cs:109-133 | the note offs are the ends' calls, and only those |
| MusWriter.PercussionOnsHold | Analyzer/Sources/MusParser/ModelToMusicEvents.cs:110-134 | the percussion ons are the starts' calls, and only those |
| MusWriter.PercussionOffsHold | Analyzer/Sources/MusParser/ModelToMusicEvents.cs:111-132 | the percussion offs are the ends' calls, and only those |
| MusWriter.EndsOnce | Analyzer/Sources/MusParser/ModelToMusicEvents.cs:140 | a list without a song end followed by one ends in the only song end |
| MusWriter.StreamWritable | Analyzer/Sources/MusParser/ModelToMusicEvents.cs:102-141 | for writable clusters every call of the stream, the song end included, succeeds |
| MusParser.Audible | Analyzer/Sources/MusParser/ModelToMusicEvents.cs:17-18 | the filter keeps at most the notes it is given; asking a note without instrument for its cluster throws NullReferenceException |
| MusParser.AudibleKeepsHeard | Analyzer/Sources/MusParser/ModelToMusicEvents.cs:17-18 | the filter throws exactly when an audible note has no instrument, and otherwise keeps exactly the audible notes of musical clusters |
| MusParser.GetNotes | Analyzer/Sources/MusParser/ModelToMusicEvents.cs:15-20 | GetNotes fails only with a null reference |
| MusParser.GetNotesSpec | Analyzer/Sources/MusParser/ModelToMusicEvents.cs:15-20 | GetNotes throws exactly when an audible note lacks an instrument; otherwise it returns every heard note and nothing else, in onset order |
| MusParser.NotesOfEvents | Analyzer/Sources/MusParser/ModelToMusicEvents.cs:17 | EventsOfType<NoteOn> keeps exactly the NoteOn events |
| MusParser.Deltas | Analyzer/Sources/MusParser/ModelToMusicEvents.cs:36-43 | one delta per note |
| MusParser.GetPairs | Analyzer/Sources/MusParser/ModelToMusicEvents.cs:29-46 | each note is paired, in order, with its delta |
| MusParser.PlacedFrames | Analyzer/Sources/MusParser/ModelToMusicEvents.cs:40 | one frame per note |
| MusParser.DeltaInFrames | Analyzer/Sources/MusParser/ModelToMusicEvents.cs:38 | the delta is the onset's frames after the offset, less the previous note's frame, plus a half, truncated |
| MusParser.DeltasTrackOnsets | Analyzer/Sources/MusParser/ModelToMusicEvents.cs:36-43 | on onsets in order every delta is non-negative and every note lands in the frame nearest its onset |
| MusParser.PlacedFramesSum | Analyzer/Sources/MusParser/ModelToMusicEvents.cs:40 | each note's frame is the sum of the deltas so far |
| MusParser.Offset | Analyzer/Sources/MusParser/ModelToMusicEvents.cs:171 | the offset is a whole 600 ms beat at most the first onset and less than a beat before it |
| MusParser.PairsTrackOnsets | Analyzer/Sources/MusParser/ModelToMusicEvents.cs:171-173 | as Parse calls GetPairs, deltas are non-negative and every note lands within half a frame of its onset |
| MusParser.ChannelRange | Analyzer/Sources/MusParser/ModelToMusicEvents.cs:221-227 | a musical channel's range starts at its cluster's low pitch, at least 24, spans at least 18 semitones and ends at most at 84 |
| MusParser.ClusterChannel | Analyzer/Sources/MusParser/ModelToMusicEvents.cs:220-221 | a musical cluster's channel is at most 10 and has the cluster's range |
| MusParser.Wrapped | Analyzer/Sources/MusParser/ModelToMusicEvents.cs:224-227 | the wrapped pitch lies in the range, in the pitch's class; a pitch above comes down to the top octave, one below up to the bottom octave, one inside stays |
| MusParser.WrapPitch | Analyzer/Sources/MusParser/ModelToMusicEvents.cs:224-227 | the two while loops compute the wrapped pitch |
| MusParser.HoldLength | Analyzer/Sources/MusParser/ModelToMusicEvents.cs:208-249 | a hold lasts at least one frame and at most 4800 ms' worth, and otherwise its length in frames rounded half up |
| MusParser.Tick | Analyzer/Sources/MusParser/ModelToMusicEvents.cs:191 | a hold with frames left loses one; others stay |
| MusParser.Ticked | Analyzer/Sources/MusParser/ModelToMusicEvents.cs:186-193 | every note table entry moves one frame on |
| MusParser.TickedDrums | Analyzer/Sources/MusParser/ModelToMusicEvents.cs:194-198 | every percussion entry moves one frame on |
| MusParser.SlotParts | Analyzer/Sources/MusParser/ModelToMusicEvents.cs:161-193 | a slot gives back its channel and pitch |
| MusParser.SetHoldKeeps | Analyzer/Sources/MusParser/ModelToMusicEvents.cs:251 | setting one entry to a valid hold keeps the table valid |
| MusParser.ExpiringEnds | Analyzer/Sources/MusParser/ModelToMusicEvents.cs:190 | a note ends in the pass exactly when its slot had one frame left |
| MusParser.ExpiringFromSlots | Analyzer/Sources/MusParser/ModelToMusicEvents.cs:190 | every end comes from a slot with one frame left |
| MusParser.ExpiringDrumEnds | Analyzer/Sources/MusParser/ModelToMusicEvents.cs:196 | a hit ends exactly when its drum had one frame left |
| MusParser.TickNotes | Analyzer/Sources/MusParser/ModelToMusicEvents.cs:186-276 | the nested loops tick the note table, collect the expiring ends, and report whether any entry had frames left |
| MusParser.TickDrums | Analyzer/Sources/MusParser/ModelToMusicEvents.cs:194-285 | the loop ticks the percussion table, collects the expiring ends, and reports whether any had frames left |
| MusParser.NothingExpires | Analyzer/Sources/MusParser/ModelToMusicEvents.cs:190-196 | with nothing held a pass ends nothing |
| MusParser.SilentAfterTick | Analyzer/Sources/MusParser/ModelToMusicEvents.cs:256-286 | a pass over empty tables leaves them silent |
| MusParser.TickedTotal | Analyzer/Sources/MusParser/ModelToMusicEvents.cs:270-274 | a pass keeps entries non-negative and takes a frame off the total when any was held |
| MusParser.TickedDrumTotal | Analyzer/Sources/MusParser/ModelToMusicEvents.cs:280-284 | the same for the percussion table |
| MusParser.PlayableWritable | Analyzer/Sources/MusParser/ModelToMusicEvents.cs:289 | playable clusters can be written: every channel has a range |
| MusParser.BeatIndex | Analyzer/Sources/MusParser/ModelToMusicEvents.cs:183-262 | the beat index is below the number of beats; a zero ticksPerBeat divides by zero, a negative frame indexes out of range; non-negative frames succeed |
| MusParser.AdvanceFrame | Analyzer/Sources/MusParser/ModelToMusicEvents.cs:182-285 | one frame on over the hold arrays is NextFrame of the state before: the new cluster and the ticked tables, or the same failure; in the final loop it reports whether anything was still held |
| MusParser.AdvanceKeeps | Analyzer/Sources/MusParser/ModelToMusicEvents.cs:182-198 | a new frame keeps the clusters playable and the tables valid |
| MusParser.DrumHit | Analyzer/Sources/MusParser/ModelToMusicEvents.cs:201-216 | a hit changes only the current cluster and the drum's own entry |
| MusParser.HitDrum | Analyzer/Sources/MusParser/ModelToMusicEvents.cs:201-216 | the percussion branch computes the hit |
| MusParser.DrumHitKeeps | Analyzer/Sources/MusParser/ModelToMusicEvents.cs:205-215 | a hit keeps the clusters playable, with no drum starting twice in a frame, and the tables valid |
| MusParser.WithoutStart | Analyzer/Sources/MusParser/ModelToMusicEvents.cs:242-243 | removing the found start takes out one start of that channel and pitch, and nothing when none matches |
| MusParser.StrikeSlot | Analyzer/Sources/MusParser/ModelToMusicEvents.cs:220-227 | the note plays on its cluster's channel at a wrapped pitch in that channel's range |
| MusParser.Released | Analyzer/Sources/MusParser/ModelToMusicEvents.cs:231-244 | releasing a held note keeps the number of clusters |
| MusParser.NoteStruck | Analyzer/Sources/MusParser/ModelToMusicEvents.cs:218-253 | a melodic note changes only its own slot of the note table |
| MusParser.StrikeNote | Analyzer/Sources/MusParser/ModelToMusicEvents.cs:218-253 | the melodic branch computes the strike |
| MusParser.ReplaceKeeps | Analyzer/Sources/MusParser/ModelToMusicEvents.cs:242-243 | replacing a cluster by a playable one keeps the list playable |
| MusParser.AddStartKeeps | Analyzer/Sources/MusParser/ModelToMusicEvents.cs:252 | adding an in-range start keeps a cluster playable |
| MusParser.AddEndKeeps | Analyzer/Sources/MusParser/ModelToMusicEvents.cs:234 | adding an in-range end keeps a cluster playable |
| MusParser.RemoveStartKeeps | Analyzer/Sources/MusParser/ModelToMusicEvents.cs:243 | removing a start keeps a cluster playable |
| MusParser.ReleasedKeeps | Analyzer/Sources/MusParser/ModelToMusicEvents.cs:231-244 | releasing keeps the clusters playable |
| MusParser.NoteStruckKeeps | Analyzer/Sources/MusParser/ModelToMusicEvents.cs:218-253 | a melodic note keeps the clusters playable and the tables valid |
| MusParser.AdvancedSnoc | Analyzer/Sources/MusParser/ModelToMusicEvents.cs:178-180 | one more pair moves on by its positive delta |
| MusParser.AdvancedIsSum | Analyzer/Sources/MusParser/ModelToMusicEvents.cs:178-180 | with non-negative deltas the loop moves on by their sum |
| MusParser.AdvanceFrames | Analyzer/Sources/MusParser/ModelToMusicEvents.cs:180-199 | the inner for loop over the delta is FramesOn: the same clusters, tables and frame counter, or the same failure |
| MusParser.PlaceNotes | Analyzer/Sources/MusParser/ModelToMusicEvents.cs:178-254 | the foreach loop over the pairs is Placed: the same clusters, tables and frame counter, or the same failure |
| MusParser.DrainStep | Analyzer/Sources/MusParser/ModelToMusicEvents.cs:257-286 | a pass keeps the tables valid, lowers the total when anything was held, and with nothing held its cluster and the tables are silent |
| MusParser.Drain | Analyzer/Sources/MusParser/ModelToMusicEvents.cs:256-286 | the do-while loop is Drained: it only appends clusters, the last one silent, and leaves nothing held; a zero ticksPerBeat divides by zero, a bad index fails as IndexOutOfRange, non-negative frames succeed |
| MusParser.GetNotesHeard | Analyzer/Sources/MusParser/ModelToMusicEvents.cs:15-20 | GetNotes gives heard notes in onset order |
| MusParser.TicksPerBeat | Analyzer/Sources/MusParser/ModelToMusicEvents.cs:169-170 | ticksPerBeat is zero exactly for frame rates over 600 ms |
| MusParser.BuildClusters | Analyzer/Sources/MusParser/ModelToMusicEvents.cs:175-286 | the two loops from the fresh start are Built: at least one cluster per frame moved on plus two, all playable, the last silent; the same failures |
| MusParser.FirstFrame | Analyzer/Sources/MusParser/ModelToMusicEvents.cs:176 | the first frame is not negative when the first note is not before zero |
| MusParser.ParseNotes | Analyzer/Sources/MusParser/ModelToMusicEvents.cs:167-289 | for some notes: a zero frame rate or one over 600 ms divides by zero; one up to 600 ms with notes from zero succeeds; the clusters are ClustersOfNotes and the records are their stream |
| MusParser.Parse | Analyzer/Sources/MusParser/ModelToMusicEvents.cs:156-290 | no beats throws NonanalyzedMidiException; a note without instrument a null reference; no notes writes nothing; bad frame rates divide by zero; otherwise the written records can all be read back and the last frame is silent; the clusters are ParsedClusters of the model, and every failure is its failure |
| MusParser.Paired | Analyzer/Sources/MusParser/ModelToMusicEvents.cs:29-46 | each note paired, in order, with its own delta |
| MusParser.NextFrame | Analyzer/Sources/MusParser/ModelToMusicEvents.cs:182-263 | one frame on: the counter up by one and one more cluster, placed in the beat by ticksPerBeat inside the note loop and by 12 in the final loop; a zero ticksPerBeat divides by zero, a negative frame indexes out of range, non-negative frames succeed |
| MusParser.NextFrameKeeps | Analyzer/Sources/MusParser/ModelToMusicEvents.cs:182-198 | a frame on keeps the clusters playable and the tables valid |
| MusParser.FramesOn | Analyzer/Sources/MusParser/ModelToMusicEvents.cs:180-199 | n frames on: the counter and the clusters grow by n, earlier clusters stay, the same failures, none for non-negative frames |
| MusParser.FramesOnKeeps | Analyzer/Sources/MusParser/ModelToMusicEvents.cs:180-199 | frames on keep the clusters playable and the tables valid |
| MusParser.FramesOnStep | Analyzer/Sources/MusParser/ModelToMusicEvents.cs:180-199 | one more pass of the inner loop is one more frame on |
| MusParser.FramesOnFailStays | Analyzer/Sources/MusParser/ModelToMusicEvents.cs:180-199 | once a frame fails, every later count of frames fails the same way |
| MusParser.NoteHeard | Analyzer/Sources/MusParser/ModelToMusicEvents.cs:201-253 | a note heard in the current frame keeps the clusters playable, the tables valid, and the number of clusters and frames |
| MusParser.StrikeStart | Analyzer/Sources/MusParser/ModelToMusicEvents.cs:220-252 | a melodic start is in its channel's range and in the pitch class of the transposed note |
| MusParser.MelodicNoteStarts | Analyzer/Sources/MusParser/ModelToMusicEvents.cs:218-253 | a melodic note starts in the current cluster and holds its slot for its length from there, unless the same pitch, no quieter, started under 400 ms before and still sounds, when nothing changes |
| MusParser.DrumHitStarts | Analyzer/Sources/MusParser/ModelToMusicEvents.cs:201-216 | a drum hit starts in the current cluster and holds its drum for its length, unless it is no drum (outside 35..82) or the drum already starts there, when nothing changes |
| MusParser.Placed | Analyzer/Sources/MusParser/ModelToMusicEvents.cs:178-254 | the pairs in order, each its delta of frames and then its note: the counter and clusters grow by the positive deltas' sum, the tables stay valid; a zero ticksPerBeat divides by zero, a bad index fails; non-negative frames succeed |
| MusParser.PlaceOne | Analyzer/Sources/MusParser/ModelToMusicEvents.cs:179-253 | one pass: the pair's frames, then its note in the frame reached |
| MusParser.PlacedStep | Analyzer/Sources/MusParser/ModelToMusicEvents.cs:178-254 | one more pair is one more pass after the first i |
| MusParser.PlacedFailStays | Analyzer/Sources/MusParser/ModelToMusicEvents.cs:178-254 | once the first pairs fail, every longer prefix fails the same way |
| MusParser.PlacedHearsInFrame | Analyzer/Sources/MusParser/ModelToMusicEvents.cs:178-254 | every note is heard in cluster (start + frames moved on so far), in a valid state |
| MusParser.Drained | Analyzer/Sources/MusParser/ModelToMusicEvents.cs:256-286 | the final loop appends clusters until a pass finds nothing held; the clusters stay playable and the last is silent; a zero ticksPerBeat divides by zero, a bad index fails; non-negative frames succeed |
| MusParser.Fresh | Analyzer/Sources/MusParser/ModelToMusicEvents.cs:161-176 | one cluster with the first beat's length and chord and empty hold tables is a valid start |
| NoteStreams.NotesAreNoteOns | Analyzer/Sources/PianoRoll/MidiInterface/NoteStream.cs:22 | EventsOfType<NoteOn> gives only NoteOn events |
| NoteStreams.NotesByOnset | Analyzer/Sources/PianoRoll/MidiInterface/NoteStream.cs:22 | the stream has as many notes as the model, all NoteOns, in onset order |
| NoteStreams.NotesByOnsetHoldsEachNote | Analyzer/Sources/PianoRoll/MidiInterface/NoteStream.cs:22 | every note of the model is in the stream, each at a place of its own |
| NoteStreams.InFrame | Analyzer/Sources/PianoRoll/MidiInterface/NoteStream.cs:28-56 | the frame holds NoteOns of the stream, no more of them than the stream |
| NoteStreams.InFrameMembers | Analyzer/Sources/PianoRoll/MidiInterface/NoteStream.cs:28-46 | a note is in the frame exactly when it is in the stream, has not ended before the frame starts and does not start after it ends |
| NoteStreams.InFrameOrdered | Analyzer/Sources/PianoRoll/MidiInterface/NoteStream.cs:41-55 | the frame keeps the stream's onset order |
| NoteStreams.ScanIsFrame | Analyzer/Sources/PianoRoll/MidiInterface/NoteStream.cs:41-55 | on notes in onset order, the scan that stops at the first later note yields exactly the frame |
| NoteStreams.NothingLater | Analyzer/Sources/PianoRoll/MidiInterface/NoteStream.cs:46 | after a note starting past the frame nothing is in the frame |
| NoteStreams.ScanFromCursor | Analyzer/Sources/PianoRoll/MidiInterface/NoteStream.cs:30-41 | starting at a cursor behind which every note is over yields what a scan from the start yields |
| NoteStreams.ScanFrom | Analyzer/Sources/PianoRoll/MidiInterface/NoteStream.cs:41-55 | the loop yields the scan and moves the cursor to the first note yielded, leaving only finished notes behind |
| NoteStreams.NoteStream.constructor | Analyzer/Sources/PianoRoll/MidiInterface/NoteStream.cs:20-25 | the notes by onset and the cursor at the first |
| NoteStreams.NoteStream.GetFrame | Analyzer/Sources/PianoRoll/MidiInterface/NoteStream.cs:36-56 | the notes sounding in [time, time + frameLength]; the cursor moves forward to the first note returned and the stream stays ready for any later time |

## Left out

- File and stream handling (`File.Open`, `BinaryReader`, `BinaryWriter`): the parsers and the `.mus` encoder work on `seq<byte>`, and the encoder's output is a list of records with their bytes.
- TimeSpan: times are exact real milliseconds. The 100 ns tick rounding of `TimeSpan.FromMilliseconds` and `FromSeconds` is not modelled.
- `double` and `float` are `real`, so rounding is not modelled. That covers the `(float)` casts of the fit at `Normalizer.cs:55,218,223`, and every infinity or NaN that does not end in an exception.
- `Math.Log`, `Math.Sqrt`, `Math.Exp`, `Math.Pow` and `Statistics.Correlation` are fields of the `Maths` parameter. Statistics.cs and Blur.cs are not part of this model.
- SegmentNotes.NoteWeight: a zero divisor (an empty segment, or a note 12 to 23 semitones below the lowest pitch) gives weight 0, where the source's double becomes an infinity or NaN (`NotesInSegment.cs:87`).
- Metre.BeatGoodness: a paired beat of length 0 scores 0, which is the value the source's division by 0 works out to through `Math.Exp`.
- TimeChanger: the `Console.WriteLine` at `TimeChanger.cs:113` is console output only and is dropped.
- NoteStreams.NoteStream.GetFrame: the frame is enumerated to the end. In the source it is a lazy iterator, and the cursor moves only once the first note of the frame is yielded, so a caller that stops early is not modelled (`NoteStream.cs:36-56`).
- Tactus.Tactus.constructor: `CreatePips` (`Tactus.cs:157-178`) is taken as the pips passed in. `Metre.CalculateMetre` takes it as the `pipsOf` parameter.
- Metre.CalculateMetre: the beats it creates are returned beside the model rather than appended to the first track's meta-event list.
- Normalizer.ImplicitGrid: the grid time is an unbounded `nat`, where the source's `uint` would wrap past 2^32. A zero step that would loop forever is the failure `Diverges`.
- MusParser.GetPairs: the error estimate it also returns is unused by `Parse` and not modelled.
- `MLKeyFinder.cs` is not part of this model; it is a trained random forest from a foreign library.
- `MusicEventsToModel.cs` (file reading, random jitter) and `ModelToMidiParser.cs` (file-writing glue) are not part of this model.
- `Normalizer.Normalize` (`Normalizer.cs:144-188`), the floating rescale of time to 600 ms beats, is not part of this model.
- `BigEndianReader.ReadUInt64` is not part of this model: it shifts an `int` by 32 bits or more, so it is not a 64-bit decode.
- The PianoRoll GUI, rendering and MIDI playback (`MidiPlayer.cs`, `ClockScheduler.cs`) are not part of this model.
- Object identity: where several lists share one event object, the model uses indices into the flat event list or re-applies the update to every copy (`PitchBendCalculator.Ranged`).

## Findings

| source | as written | input that shows it | evidently intended | confidence | as-written member | corrected member |
|---|---|---|---|---|---|---|
| Analyzer/Sources/MidiParser/MetreNormalizer/Tactus.cs:70-76 | the best entry is remembered with `current.prevLength` in the place of its length, and `LabelBeats` starts from that | a piece of at most `min` pips: every best score there has previous length -1, so `LabelBeats` indexes the score table with -1 and throws | the best entry keeps the loop's own `length`, and the labelling starts from it | medium; not executed | Tactus.EvaluateAsWritten, Tactus.ShortPieceFailsAsWritten | Tactus.Tactus.EvaluateSolution |
| Analyzer/Sources/MidiParser/KeyDetector/KeyFinder.cs:85-100 | the window still being filled when the notes run out is never added to `occurencies` | a piece whose sounding notes all start within the first 1200 ms: nothing is counted, every share is 0/0 and the key is C minor whatever the notes | the last window is counted like every other | medium; not executed | KeyFinder.AlternativeKey, KeyFinder.EarlyNotesUncounted | KeyFinder.AlternativeAnalyze, KeyFinder.CorrectedCountsEveryClass, KeyFinder.CorrectedKeyFromCorrelations |
