/** Globals.cs of the metre detector, with Tactus.Quantize, which the
    length bounds are computed from. */
module MetreGlobals {
  import opened MathExt

  /** The longest note length counted, in milliseconds. */
  const MaxEffectiveLength := 1000
  /** The quantization step (one pip), in milliseconds. */
  const PipTime := 35
  const NoteFactor := 1.0
  const BeatIntervalFactor := 10.0
  const NoteBonus := 0.2
  const PercussionMultiple := 1.0
  /** A tempo change up to this many milliseconds is not punished. */
  const BeatSlop := PipTime
  const TactusMin := 400.0
  const TactusMax := 1200.0
  const TactusWidth := 1.8
  const TactusStep := 1.1
  const LengthPower := 2.0

  /** The shortest and longest beat, in pips. */
  const MinLength := 11
  const MaxLength := 34

  /** Entries of a pip's score and state tables. */
  const TableSize := MaxLength - MinLength + 1

  /** Tactus.Quantize: (int)(t / 35 + 0.5), the nearest pip with halves
      rounded up, for any time from -17.5 ms on. */
  function Quantize(t: real): (q: int)
    ensures t >= -17.5 ==> q as real * 35.0 - 17.5 <= t < q as real * 35.0 + 17.5
    ensures t >= -17.5 ==> q >= 0
  {
    Trunc(t / PipTime as real + 0.5)
  }

  /** MinLength and MaxLength are the quantized TactusMin and TactusMax. */
  lemma LengthsQuantized()
    ensures Quantize(TactusMin) == MinLength && Quantize(TactusMax) == MaxLength
  {
  }

  /** Quantize never decreases on the times a beat can take. */
  lemma QuantizeMonotone(a: real, b: real)
    requires -17.5 <= a <= b
    ensures Quantize(a) <= Quantize(b)
  {
  }

  /** DefaultScore = Math.Log((TactusMin + TactusMin) / 2 + 1, 2). */
  function DefaultScore(maths: Maths): real
  {
    maths.log2((TactusMin + TactusMin) / 2.0 + 1.0)
  }
}
