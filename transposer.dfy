/** Transposer.cs: moves a piece to a requested tonic. The shift is the
    shorter way round the octave from the model's key to the target, notes
    outside the percussion channel move by it, and chord and key-signature
    tones rotate by it. */
module Transposer {
  import opened Wrappers
  import opened Keys
  import opened Events
  import opened Tracks
  import opened MathExt

  /** The tonic the key is moved to: the requested tone for a major key,
      the tone three semitones below it (its relative minor) for a minor
      key. */
  function TargetTone(key: Key, tone: Tone): (t: Tone)
    ensures key.scale == Major ==> t == tone
    ensures key.scale == Minor ==> (t + 3) % 12 == tone
  {
    if key.scale == Major then tone else (tone - 3 + 12) % 12
  }

  /** The shift in semitones: down when that is strictly shorter than up. */
  function Shift(key: Key, tone: Tone): (scale: int)
    ensures -5 <= scale <= 6
    ensures (key.tone + scale + 12) % 12 == TargetTone(key, tone)
    ensures key.tone == TargetTone(key, tone) ==> scale == 0
  {
    var target := TargetTone(key, tone);
    var scaleDown := if key.tone > target then key.tone - target else key.tone - target + 12;
    var scaleUp := 12 - scaleDown;
    if scaleDown < scaleUp then -scaleDown else scaleUp
  }

  /** No shift reaching the target tonic is shorter. */
  lemma ShiftShortest(key: Key, tone: Tone, s: int)
    requires (key.tone + s) % 12 == TargetTone(key, tone)
    ensures Shift(key, tone) <= Abs(s) && -Shift(key, tone) <= Abs(s)
  {
    var k := (key.tone + s) / 12;
    assert key.tone + s == 12 * k + TargetTone(key, tone);
  }

  /** A note moved by the shift and folded back by an octave when it leaves
      0..127; the byte cast never wraps, since the folded value stays in
      0..255. */
  function ShiftedPitch(note: byte, scale: int): (r: byte)
    requires -5 <= scale <= 6
    ensures note < 128 ==> r < 128
    ensures (r - note - scale) % 12 == 0
    ensures 0 <= note + scale <= 127 ==> r == note + scale
  {
    var n := note + scale;
    if n < 0 then n + 12 else if n > 127 then n - 12 else n
  }

  /** A tone rotated by the shift, modulo 12. */
  function RotatedTone(t: Tone, scale: int): (r: Tone)
    requires -5 <= scale <= 6
    ensures (r - t - scale) % 12 == 0
  {
    (t + scale + 12) % 12
  }

  /** What Transpose does to a control event: a NoteOn outside the
      percussion channel gets the shifted pitch; nothing else changes. */
  function TransposedEvent(e: ControlEvent, scale: int): (r: ControlEvent)
    requires -5 <= scale <= 6
  {
    if e.NoteOn? && !IsPercussion(e) then WithPitch(e, ShiftedPitch(e.note, scale)) else e
  }

  /** The note with NoteNumber set to p. */
  function WithPitch(e: ControlEvent, p: byte): (r: ControlEvent)
    requires e.NoteOn?
    ensures r.NoteOn? && r.note == p
  {
    NoteOn(e.tick, e.time, e.channel, p, e.volume, e.realVolume, e.length, e.instrument, e.realLength, e.end, e.bends)
  }

  /** Only non-percussion NoteOns change, and only in pitch, by a whole
      number of octaves plus the shift. */
  lemma TransposedEventEffect(e: ControlEvent, scale: int)
    requires -5 <= scale <= 6
    ensures e.NoteOn? ==> TransposedEvent(e, scale) == WithPitch(e, TransposedEvent(e, scale).note)
    ensures !e.NoteOn? || IsPercussion(e) ==> TransposedEvent(e, scale) == e
    ensures e.NoteOn? && !IsPercussion(e) ==>
      (TransposedEvent(e, scale).note - e.note - scale) % 12 == 0 &&
      (e.note < 128 ==> TransposedEvent(e, scale).note < 128)
  {
  }

  /** A beat's chord tone is rotated by the shift, and so is the tone of a
      key signature; other meta events are untouched. */
  function RotatedMeta(me: MetaEvent, scale: int): (r: MetaEvent)
    requires -5 <= scale <= 6
  {
    match me
    case BeatEvent(tick, time, length, chord, level) =>
      BeatEvent(tick, time, length, chord.(tone := RotatedTone(chord.tone, scale)), level)
    case KeySignature(tick, time, key) => KeySignature(tick, time, key.(tone := RotatedTone(key.tone, scale)))
    case _ => me
  }

  /** A rotated meta event keeps its kind, time and mode; only the tone of
      a chord or key signature moves, by the shift. */
  lemma RotatedMetaEffect(me: MetaEvent, scale: int)
    requires -5 <= scale <= 6
    ensures var r := RotatedMeta(me, scale);
      r.tick == me.tick && r.time == me.time &&
      (me.BeatEvent? ==> (r.BeatEvent? && r == me.(chord := r.chord) && r.chord.scale == me.chord.scale &&
                          (r.chord.tone - me.chord.tone - scale) % 12 == 0)) &&
      (me.KeySignature? ==> (r.KeySignature? && r.key.scale == me.key.scale &&
                             (r.key.tone - me.key.tone - scale) % 12 == 0)) &&
      (!me.BeatEvent? && !me.KeySignature? ==> r == me)
  {
  }

  /** Transpose(midi, tone): nothing without a key; otherwise every note,
      chord and key signature moved by the shift. The model's own key is
      not changed: the source assigns the new tone to a local copy. */
  method Transpose(m: Model, tone: Tone) returns (r: Model)
    ensures m.key.None? ==> r == m
    ensures r == m.(tracks := r.tracks) && |r.tracks| == |m.tracks|
    ensures m.key.Some? ==>
      var scale := Shift(m.key.value, tone);
      |ControlEvents(r)| == |ControlEvents(m)| &&
      (forall i :: 0 <= i < |ControlEvents(m)| ==> ControlEvents(r)[i] == TransposedEvent(ControlEvents(m)[i], scale)) &&
      |MetaEvents(r)| == |MetaEvents(m)| &&
      forall i :: 0 <= i < |MetaEvents(m)| ==> MetaEvents(r)[i] == RotatedMeta(MetaEvents(m)[i], scale)
  {
    if m.key.None? {
      return m;
    }
    var key := m.key.value;
    var scale := Shift(key, tone);
    var es := ControlEvents(m);
    for i := 0 to |es|
      invariant |es| == |ControlEvents(m)|
      invariant forall k :: 0 <= k < i ==> es[k] == TransposedEvent(ControlEvents(m)[k], scale)
      invariant forall k :: i <= k < |es| ==> es[k] == ControlEvents(m)[k]
    {
      if es[i].NoteOn? && !IsPercussion(es[i]) {
        var noteNumber := es[i].note + scale;
        if noteNumber < 0 {
          noteNumber := noteNumber + 12;
        } else if noteNumber > 127 {
          noteNumber := noteNumber - 12;
        }
        es := es[i := WithPitch(es[i], noteNumber)];
      }
    }
    var ms := MetaEvents(m);
    for i := 0 to |ms|
      invariant |ms| == |MetaEvents(m)|
      invariant forall k :: 0 <= k < |ms| ==>
        ms[k] == if k < i && MetaEvents(m)[k].BeatEvent? then RotatedMeta(MetaEvents(m)[k], scale) else MetaEvents(m)[k]
    {
      if ms[i].BeatEvent? {
        ms := ms[i := ms[i].(chord := ms[i].chord.(tone := (ms[i].chord.tone + scale + 12) % 12))];
      }
    }
    for i := 0 to |ms|
      invariant |ms| == |MetaEvents(m)|
      invariant forall k :: 0 <= k < |ms| ==>
        ms[k] == if k < i || MetaEvents(m)[k].BeatEvent? then RotatedMeta(MetaEvents(m)[k], scale) else MetaEvents(m)[k]
    {
      if ms[i].KeySignature? {
        ms := ms[i := ms[i].(key := ms[i].key.(tone := (ms[i].key.tone + scale + 12) % 12))];
      }
    }
    r := ReplaceMeta(ReplaceEvents(m, es), ms);
  }
}
