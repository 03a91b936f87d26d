/** Scale.cs: the Key value type (tonic and mode), its 0..23 index, the
    key-signature constructor and the comparison used to grade key detection. */
module Keys {
  import MathExt

  /** The twelve pitch classes C, Cis, D, ..., B as 0..11. */
  type Tone = x: int | 0 <= x < 12

  datatype Scale = Major | Minor

  datatype Key = Key(tone: Tone, scale: Scale)

  datatype DetectionError = NoError | ParallelKeys | MajorMinor | Fifth | TotallyWrong

  /** Key.ToInt: majors are 0..11, minors 12..23. */
  function ToInt(k: Key): (n: int)
    ensures 0 <= n < 24
    ensures n % 12 == k.tone
    ensures (n < 12) == (k.scale == Major)
  {
    (if k.scale == Major then 0 else 1) * 12 + k.tone
  }

  /** Key(int keyNumber): the inverse of ToInt on 0..23. */
  function KeyOfIndex(n: int): (k: Key)
    requires 0 <= n < 24
    ensures ToInt(k) == n
  {
    if n < 12 then Key(n, Major) else Key(n - 12, Minor)
  }

  lemma IndexOfKey(k: Key)
    ensures KeyOfIndex(ToInt(k)) == k
  {
  }

  /** Key(Scale, sbyte): the tonic of a key signature with `sf` sharps
      (negative: flats). The parser only admits -7..7, where the C#
      remainder of the positive dividend is the Euclidean one. */
  function KeyOfSignature(scale: Scale, sf: int): (k: Key)
    requires -7 <= sf <= 7
    ensures k.scale == scale
  {
    if scale == Major then Key(((12 - sf) * 5) % 12, scale)
    else Key(((12 - sf) * 5 + 9) % 12, scale)
  }

  /** Each sharp moves the major tonic a fifth up (7 semitones); the minor
      tonic is the relative minor, 9 semitones above the major one. No
      accidentals is C major or A minor. */
  lemma SignatureCircleOfFifths(sf: int)
    requires -7 <= sf <= 7
    ensures KeyOfSignature(Major, sf).tone == (7 * sf) % 12
    ensures KeyOfSignature(Minor, sf).tone == (KeyOfSignature(Major, sf).tone + 9) % 12
    ensures KeyOfSignature(Major, 0) == Key(0, Major) && KeyOfSignature(Minor, 0) == Key(9, Minor)
  {
    var m := (12 - sf) * 5;
    MathExt.DivModUnique(m, 12, (7 * sf) / 12 + 5 - sf, (7 * sf) % 12);
    MathExt.DivModUnique(m + 9, 12, m / 12 + (m % 12 + 9) / 12, (m % 12 + 9) % 12);
  }

  /** Key.HowMuchAreEqual: grades a detected key against the expected one. */
  function HowMuchAreEqual(a: Key, b: Key): (e: DetectionError)
    ensures e == NoError <==> a == b
    ensures e == ParallelKeys <==> a.tone == b.tone && a.scale != b.scale
    ensures e == Fifth <==> a.scale == b.scale && ((a.tone - b.tone + 12) % 12 == 7 || (a.tone - b.tone + 12) % 12 == 5)
    ensures e == MajorMinor <==>
      (a.scale == Major && b.scale == Minor && (a.tone - b.tone + 12) % 12 == 3) ||
      (a.scale == Minor && b.scale == Major && (b.tone - a.tone + 12) % 12 == 3)
  {
    if a.tone == b.tone && a.scale == b.scale then NoError
    else if a.tone == b.tone then ParallelKeys
    else if a.scale == b.scale && ((a.tone - b.tone + 12) % 12 == 7 || (a.tone - b.tone + 12) % 12 == 5) then Fifth
    else if a.scale == Major && b.scale == Minor && (a.tone - b.tone + 12) % 12 == 3 then MajorMinor
    else if a.scale == Minor && b.scale == Major && (b.tone - a.tone + 12) % 12 == 3 then MajorMinor
    else TotallyWrong
  }

  /** Grading does not depend on which key is the reference. */
  lemma HowMuchAreEqualSymmetric(a: Key, b: Key)
    ensures HowMuchAreEqual(a, b) == HowMuchAreEqual(b, a)
  {
    var d := (a.tone - b.tone + 12) % 12;
    var d' := (b.tone - a.tone + 12) % 12;
    assert d != 0 ==> d' == 12 - d;
  }

  /** Key.Equals and operator ==: field-wise comparison. */
  function KeyEquals(a: Key, b: Key): (r: bool)
    ensures r <==> a.tone == b.tone && a.scale == b.scale
    ensures r <==> ToInt(a) == ToInt(b)
  {
    a.tone == b.tone && a.scale == b.scale
  }

  /** operator !=: the negation of ==. */
  function KeyNotEquals(a: Key, b: Key): (r: bool)
    ensures r <==> a != b
  {
    !KeyEquals(a, b)
  }
}
