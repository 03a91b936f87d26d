/** KeyFinder.cs: Krumhansl's key detection. The pitch classes of the
    sounding notes form a histogram, which is correlated with the major and
    the minor key profile at each of the twelve rotations; the best
    correlation gives the tonic and the mode. */
module KeyFinder {
  import opened Wrappers
  import opened MathExt
  import opened Keys
  import opened Events
  import opened Tracks
  import opened Ordering

  /** The key profile of C major. */
  const MajorProfile: seq<real> := [
    0.08874125044, 0.007118282121, 0.05789536125, 0.009728318899, 0.07948748369, 0.05457349626,
    0.01138925139, 0.08482619528, 0.01233835568, 0.04342152094, 0.006762368015, 0.04745521414]

  /** The key profile of C minor. */
  const MinorProfile: seq<real> := [
    0.08447028117, 0.00996559497, 0.05623442876, 0.07331830585, 0.005813263732, 0.05457349626,
    0.01245699371, 0.08862261241, 0.04792976628, 0.007948748369, 0.0157788587, 0.03915055167]

  /** The span of one window of the alternative analysis, in milliseconds. */
  const WindowSpan: real := 1200.0

  /** A list of notes. */
  type NoteList = ns: seq<ControlEvent> | forall k :: 0 <= k < |ns| ==> ns[k].NoteOn?

  /** The notes that take part: sounding (RealVolume > 0) and not percussion. */
  function KeyNotes(es: seq<ControlEvent>): (ns: NoteList)
    ensures |ns| <= |es|
    ensures forall k :: 0 <= k < |ns| ==> ns[k].realVolume > 0.0 && !IsPercussion(ns[k]) && ns[k] in es
  {
    if es == [] then []
    else
      var e := es[|es| - 1];
      KeyNotes(es[..|es| - 1]) + if e.NoteOn? && e.realVolume > 0.0 && !IsPercussion(e) then [e] else []
  }

  function PitchClass(e: ControlEvent): Tone
    requires e.NoteOn?
  {
    e.note % 12
  }

  /** How many of the notes have pitch class p. */
  function ClassCount(ns: NoteList, p: Tone): (n: nat)
    ensures n <= |ns|
  {
    if ns == [] then 0
    else ClassCount(ns[..|ns| - 1], p) + if PitchClass(ns[|ns| - 1]) == p then 1 else 0
  }

  /** The count of each pitch class, as doubles. */
  function Counts(ns: NoteList): (c: seq<real>)
    ensures |c| == 12
  {
    seq(12, p requires 0 <= p < 12 => ClassCount(ns, p) as real)
  }

  /** Every element divided by d. */
  function Scaled(xs: seq<real>, d: real): (r: seq<real>)
    requires d != 0.0
    ensures |r| == |xs|
  {
    seq(|xs|, k requires 0 <= k < |xs| => xs[k] / d)
  }

  /** GroupBy(NoteNumber % 12) with each group's count divided by the number
      of notes, copied into a 12-entry array; a class no note has stays 0. */
  function Histogram(ns: NoteList): (h: seq<real>)
    ensures |h| == 12
  {
    if ns == [] then seq(12, p => 0.0) else Scaled(Counts(ns), |ns| as real)
  }

  /** The histogram after i Enqueue(Dequeue()) steps: shifted left by i. */
  function Rotated(h: seq<real>, i: nat): (r: seq<real>)
    requires i <= |h|
    ensures |r| == |h|
  {
    h[i..] + h[..i]
  }

  /** The correlation of the profile with each rotation of the histogram. */
  function Correlations(maths: Maths, h: seq<real>, profile: seq<real>): (c: seq<real>)
    requires |h| == 12
    ensures |c| == 12
  {
    seq(12, i requires 0 <= i < 12 => maths.correlation(Rotated(h, i), profile))
  }

  /** The mode whose best correlation is strictly higher, minor on a tie; the
      tonic is the first rotation reaching that correlation. */
  function ChooseKey(major: seq<real>, minor: seq<real>): (k: Key)
    requires |major| == 12 && |minor| == 12
  {
    var a := MaxWithIndex(major).value;
    var b := MaxWithIndex(minor).value;
    if a.1 > b.1 then Key(a.0, Major) else Key(b.0, Minor)
  }

  /** A histogram whose twelve entries are all equal, such as the empty one.
      Its variance is 0, so Statistics.Correlation divides 0 by Math.Sqrt(0)
      and every correlation is NaN. */
  predicate Flat(h: seq<real>)
    requires |h| == 12
  {
    forall k :: 0 <= k < 12 ==> h[k] == h[0]
  }

  /** The key of a histogram. On a flat histogram every correlation is NaN,
      MaxWithIndex keeps index 0 and NaN > NaN is false, so the key is C
      minor; otherwise ChooseKey over the correlations. */
  function KrumhanslKey(maths: Maths, h: seq<real>): Key
    requires |h| == 12
  {
    if Flat(h) then Key(0, Minor)
    else ChooseKey(Correlations(maths, h, MajorProfile), Correlations(maths, h, MinorProfile))
  }

  /** Analyze: the key of the histogram of the sounding, non-percussion notes. */
  method Analyze(maths: Maths, m: Model) returns (r: Model)
    ensures r == m.(key := Some(KrumhanslKey(maths, Histogram(KeyNotes(ControlEvents(m))))))
  {
    var notes := KeyNotes(ControlEvents(m));
    var occurrences := Histogram(notes);
    var key := KeyOfShares(maths, occurrences);
    r := m.(key := Some(key));
  }

  /** The rotation loop and the choice of the key; on a flat histogram the
      NaN correlations leave C minor. */
  method KeyOfShares(maths: Maths, h: seq<real>) returns (k: Key)
    requires |h| == 12
    ensures k == KrumhanslKey(maths, h)
    ensures Flat(h) ==> k == Key(0, Minor)
    ensures !Flat(h) ==> (k.scale == Major <==> MaxWithIndex(Correlations(maths, h, MajorProfile)).value.1 > MaxWithIndex(Correlations(maths, h, MinorProfile)).value.1)
  {
    if Flat(h) {
      k := Key(0, Minor);
    } else {
      var major, minor := Correlate(maths, h);
      k := ChooseKey(major, minor);
    }
  }

  /** A piece with no sounding, non-percussion note is in C minor. */
  lemma NoNotesIsCMinor(maths: Maths)
    ensures KrumhanslKey(maths, Histogram([])) == Key(0, Minor)
  {
    assert Flat(Histogram([]));
  }

  /** The rotation loop: correlate, then move the first entry to the back. */
  method Correlate(maths: Maths, h: seq<real>) returns (major: seq<real>, minor: seq<real>)
    requires |h| == 12
    ensures major == Correlations(maths, h, MajorProfile)
    ensures minor == Correlations(maths, h, MinorProfile)
  {
    var queue := h;
    major, minor := [], [];
    for i := 0 to 12
      invariant queue == Rotated(h, i)
      invariant major == Correlations(maths, h, MajorProfile)[..i]
      invariant minor == Correlations(maths, h, MinorProfile)[..i]
    {
      major := major + [maths.correlation(queue, MajorProfile)];
      minor := minor + [maths.correlation(queue, MinorProfile)];
      assert h[..i] + [h[i]] == h[..i + 1];
      queue := queue[1..] + [queue[0]];
    }
  }

  // ---------------------------------------------------------------------
  // Properties of the histogram and the key choice

  /** The counts add up to the number of notes. */
  lemma {:induction false} CountsTotal(ns: NoteList)
    ensures Sum(Counts(ns)) == |ns| as real
  {
    if ns == [] {
      SumConst(Counts(ns), 0.0);
    } else {
      var init := ns[..|ns| - 1];
      var p := PitchClass(ns[|ns| - 1]);
      CountsTotal(init);
      assert Counts(ns) == Counts(init)[p := Counts(init)[p] + 1.0];
      SumUpdate(Counts(init), p, 1.0);
    }
  }

  /** Adding d to one element adds d to the sum. */
  lemma {:induction false} SumUpdate(xs: seq<real>, i: nat, d: real)
    requires i < |xs|
    ensures Sum(xs[i := xs[i] + d]) == Sum(xs) + d
  {
    var n := |xs| - 1;
    if i < n {
      assert xs[i := xs[i] + d][..n] == xs[..n][i := xs[i] + d];
      SumUpdate(xs[..n], i, d);
    } else {
      assert xs[i := xs[i] + d][..n] == xs[..n];
    }
  }

  /** Dividing every element divides the sum. */
  lemma {:induction false} SumScaled(xs: seq<real>, d: real)
    requires d != 0.0
    ensures Sum(Scaled(xs, d)) == Sum(xs) / d
  {
    if xs != [] {
      var n := |xs| - 1;
      assert Scaled(xs, d)[..n] == Scaled(xs[..n], d);
      SumScaled(xs[..n], d);
    }
  }

  /** With at least one note the shares of the histogram add up to 1. */
  lemma HistogramSumsToOne(ns: NoteList)
    requires ns != []
    ensures Sum(Histogram(ns)) == 1.0
  {
    var n := |ns| as real;
    CountsTotal(ns);
    SumScaled(Counts(ns), n);
    assert Histogram(ns) == Scaled(Counts(ns), n);
    assert Sum(Counts(ns)) / n == 1.0;
  }

  /** Entry p of the histogram is the share of the notes with pitch class p
      (0 when there are no notes), so it lies between 0 and 1. */
  lemma HistogramShare(ns: NoteList, p: Tone)
    ensures ns == [] ==> Histogram(ns)[p] == 0.0
    ensures ns != [] ==> Histogram(ns)[p] == ClassCount(ns, p) as real / |ns| as real
    ensures 0.0 <= Histogram(ns)[p] <= 1.0
  {
    if ns != [] {
      var counts := Counts(ns);
      assert counts[p] == ClassCount(ns, p) as real;
      assert Histogram(ns)[p] == counts[p] / |ns| as real;
      ShareBounds(Histogram(ns)[p], ClassCount(ns, p) as real, |ns| as real);
    }
  }

  lemma ShareBounds(x: real, c: real, n: real)
    requires 0.0 <= c <= n && n > 0.0 && x == c / n
    ensures 0.0 <= x <= 1.0
  {
  }

  /** Rotation i puts pitch class i where the profile has its tonic: entry k
      of rotation i is the share of the class k semitones above i. */
  lemma RotationIsTonic(h: seq<real>, i: nat)
    requires |h| == 12 && i < 12
    ensures forall k :: 0 <= k < 12 ==> Rotated(h, i)[k] == h[(i + k) % 12]
  {
    forall k | 0 <= k < 12
      ensures Rotated(h, i)[k] == h[(i + k) % 12]
    {
      if i + k < 12 {
        assert Rotated(h, i)[k] == h[i..][k];
      } else {
        assert Rotated(h, i)[k] == h[..i][k - (12 - i)];
      }
    }
  }

  /** The key found is the best of all 24: a major key is chosen exactly when
      its correlation is strictly above every minor one, the chosen
      correlation is the highest of its mode, and no earlier tonic of that
      mode reaches it. */
  lemma ChooseKeyIsBest(major: seq<real>, minor: seq<real>)
    requires |major| == 12 && |minor| == 12
    ensures var k := ChooseKey(major, minor);
      var best := if k.scale == Major then major else minor;
      (k.scale == Major <==> forall j :: 0 <= j < 12 ==> minor[j] < major[k.tone]) &&
      (k.scale == Minor ==> forall j :: 0 <= j < 12 ==> major[j] <= minor[k.tone]) &&
      (forall j :: 0 <= j < 12 ==> best[j] <= best[k.tone]) &&
      (forall j :: 0 <= j < k.tone ==> best[j] < best[k.tone])
  {
    var a := MaxWithIndex(major).value;
    var b := MaxWithIndex(minor).value;
    if a.1 <= b.1 {
      assert minor[b.0] == b.1;
    }
  }

  /** The histogram of notes whose pitch classes are all t semitones higher:
      entry q takes the value of entry q - t. */
  function ShiftClasses(h: seq<real>, t: Tone): (r: seq<real>)
    requires |h| == 12
    ensures |r| == 12
  {
    seq(12, q requires 0 <= q < 12 => h[(q - t) % 12])
  }

  lemma {:induction false} ClassCountTransposed(ns: NoteList, moved: NoteList, t: Tone, p: Tone)
    requires |moved| == |ns|
    requires forall k :: 0 <= k < |ns| ==> PitchClass(moved[k]) == (PitchClass(ns[k]) + t) % 12
    ensures ClassCount(moved, p) == ClassCount(ns, (p - t) % 12)
  {
    if ns != [] {
      var n := |ns| - 1;
      ClassCountTransposed(ns[..n], moved[..n], t, p);
      ShiftedClass(PitchClass(ns[n]), t, p);
    }
  }

  lemma ShiftedClass(a: Tone, t: Tone, p: Tone)
    ensures (a + t) % 12 == p <==> a == (p - t) % 12
  {
    if a + t < 12 {
      assert (a + t) % 12 == a + t;
    } else {
      assert (a + t) % 12 == a + t - 12;
    }
    if p - t >= 0 {
      assert (p - t) % 12 == p - t;
    } else {
      assert (p - t) % 12 == p - t + 12;
    }
  }

  /** Transposing every note by t semitones shifts the histogram by t. */
  lemma HistogramTransposed(ns: NoteList, moved: NoteList, t: Tone)
    requires |moved| == |ns|
    requires forall k :: 0 <= k < |ns| ==> PitchClass(moved[k]) == (PitchClass(ns[k]) + t) % 12
    ensures Histogram(moved) == ShiftClasses(Histogram(ns), t)
  {
    if ns != [] {
      forall p: Tone
        ensures Histogram(moved)[p] == ShiftClasses(Histogram(ns), t)[p]
      {
        ClassCountTransposed(ns, moved, t, p);
      }
    }
  }

  /** Rotation i + t of the shifted histogram is rotation i of the original. */
  lemma RotateShifted(h: seq<real>, t: Tone, i: Tone)
    requires |h| == 12
    ensures Rotated(ShiftClasses(h, t), (i + t) % 12) == Rotated(h, i)
  {
    var j := (i + t) % 12;
    RotationIsTonic(ShiftClasses(h, t), j);
    RotationIsTonic(h, i);
    forall k | 0 <= k < 12
      ensures Rotated(ShiftClasses(h, t), j)[k] == Rotated(h, i)[k]
    {
      assert ((j + k) % 12 - t) % 12 == (i + k) % 12;
    }
  }

  /** Key detection commutes with transposition: the correlations of the
      transposed piece are those of the original moved t tonics up, so the
      mode found is the same and its correlation as good. */
  lemma KeyTransposed(maths: Maths, h: seq<real>, t: Tone)
    requires |h| == 12
    ensures forall i: Tone :: Correlations(maths, ShiftClasses(h, t), MajorProfile)[(i + t) % 12] == Correlations(maths, h, MajorProfile)[i]
    ensures forall i: Tone :: Correlations(maths, ShiftClasses(h, t), MinorProfile)[(i + t) % 12] == Correlations(maths, h, MinorProfile)[i]
    ensures KrumhanslKey(maths, ShiftClasses(h, t)).scale == KrumhanslKey(maths, h).scale
  {
    var s := ShiftClasses(h, t);
    forall i: Tone
      ensures Rotated(s, (i + t) % 12) == Rotated(h, i)
    {
      RotateShifted(h, t, i);
    }
    SameBest(Correlations(maths, h, MajorProfile), Correlations(maths, s, MajorProfile), t);
    SameBest(Correlations(maths, h, MinorProfile), Correlations(maths, s, MinorProfile), t);
    FlatShifted(h, t);
  }

  /** A shifted histogram is flat exactly when the original is. */
  lemma FlatShifted(h: seq<real>, t: Tone)
    requires |h| == 12
    ensures Flat(ShiftClasses(h, t)) <==> Flat(h)
  {
    var s := ShiftClasses(h, t);
    forall k: Tone
      ensures s[(k + t) % 12] == h[k]
    {
      UndoShift(k, t);
    }
    if Flat(s) {
      forall k: Tone
        ensures h[k] == h[0]
      {
        assert h[k] == s[(k + t) % 12] && h[0] == s[(0 + t) % 12];
      }
    }
  }

  /** Shifting t classes up and then down comes back to the same class. */
  lemma UndoShift(k: Tone, t: Tone)
    ensures ((k + t) % 12 - t) % 12 == k
  {
    if k + t < 12 {
      assert (k + t) % 12 == k + t;
    } else {
      assert (k + t) % 12 == k + t - 12;
      assert (k - 12) % 12 == k;
    }
  }

  /** A rotated copy has the same maximum. */
  lemma SameBest(c: seq<real>, d: seq<real>, t: Tone)
    requires |c| == 12 && |d| == 12
    requires forall i: Tone :: d[(i + t) % 12] == c[i]
    ensures MaxWithIndex(c).value.1 == MaxWithIndex(d).value.1
  {
    var a := MaxWithIndex(c).value;
    var b := MaxWithIndex(d).value;
    var back: Tone := (b.0 - t) % 12;
    TurnBack(b.0, t);
    assert c[back] == d[b.0] && c[back] <= a.1;
    var ahead := (a.0 + t) % 12;
    assert d[ahead] == c[a.0] && d[ahead] <= b.1;
  }

  /** Going t tonics down and then up again comes back to the same tonic. */
  lemma TurnBack(b: int, t: int)
    requires 0 <= b < 12 && 0 <= t < 12
    ensures ((b - t) % 12 + t) % 12 == b
  {
    if b < t {
      assert (b - t) % 12 == b - t + 12;
    } else {
      assert (b - t) % 12 == b - t;
    }
  }

  // ---------------------------------------------------------------------
  // AlternativeAnalyze: pitch classes counted once per window

  /** The notes ordered by onset, ties in list order. */
  function InTimeOrder(ns: NoteList): (r: NoteList)
    ensures |r| == |ns|
    ensures forall k :: 0 <= k < |r| ==> r[k] in ns
    ensures forall k :: 0 <= k < |ns| ==> ns[k] in r
    ensures forall a, b :: 0 <= a < b < |r| ==> r[a].time <= r[b].time
  {
    var order := StableSort(TimesOf(ns));
    ArrangedInTimeOrder(ns, order);
    Arranged(ns, order)
  }

  lemma ArrangedInTimeOrder(ns: NoteList, order: seq<nat>)
    requires StableOrder(TimesOf(ns), order)
    ensures var r := Arranged(ns, order);
      (forall k :: 0 <= k < |r| ==> r[k] in ns && r[k].NoteOn?) &&
      (forall k :: 0 <= k < |ns| ==> ns[k] in r) &&
      (forall a, b :: 0 <= a < b < |r| ==> r[a].time <= r[b].time)
  {
    var r := Arranged(ns, order);
    forall a, b | 0 <= a < b < |order|
      ensures r[a].time <= r[b].time
    {
      StableOrderMonotone(TimesOf(ns), order, a, b);
    }
    forall k | 0 <= k < |ns|
      ensures ns[k] in r
    {
      assert k in order;
      var j :| 0 <= j < |order| && order[j] == k;
      assert r[j] == ns[k];
    }
  }

  /** The state of the window scan: the next boundary, the pitch classes of
      each window already closed, and those of the window being filled. */
  datatype Windows = Windows(next: real, closed: seq<set<Tone>>, open: set<Tone>)

  /** The window scan over the notes in onset order: a note at or after the
      boundary closes the window being filled and moves the boundary one
      span on, once, however far the note lies beyond it. */
  function WindowsOf(ns: NoteList): (w: Windows)
  {
    if ns == [] then Windows(WindowSpan, [], {})
    else
      var w := WindowsOf(ns[..|ns| - 1]);
      var n := ns[|ns| - 1];
      if n.time >= w.next then Windows(w.next + WindowSpan, w.closed + [w.open], {PitchClass(n)})
      else w.(open := w.open + {PitchClass(n)})
  }

  /** In how many of the windows pitch class p occurs. */
  function WindowCount(ws: seq<set<Tone>>, p: Tone): (n: nat)
    ensures n <= |ws|
  {
    if ws == [] then 0
    else WindowCount(ws[..|ws| - 1], p) + if p in ws[|ws| - 1] then 1 else 0
  }

  function WindowCounts(ws: seq<set<Tone>>): (c: seq<real>)
    ensures |c| == 12
  {
    seq(12, p requires 0 <= p < 12 => WindowCount(ws, p) as real)
  }

  /** The key of window counts: normalised to sum 1, then as Analyze. With
      nothing counted the division is 0/0 and every entry is NaN; every
      correlation is then NaN, MaxWithIndex keeps index 0 and NaN > NaN is
      false, so the key is C minor. */
  function KeyOfCounts(maths: Maths, occ: seq<real>): Key
    requires |occ| == 12
  {
    var total := Sum(occ);
    if total == 0.0 then Key(0, Minor) else KrumhanslKey(maths, Scaled(occ, total))
  }

  /** The key AlternativeAnalyze computes as written (KeyFinder.cs:85-100):
      only the closed windows are counted. */
  function AlternativeKey(maths: Maths, ns: NoteList): Key
  {
    KeyOfCounts(maths, WindowCounts(WindowsOf(InTimeOrder(ns)).closed))
  }

  /** AlternativeAnalyze with the last window counted as well (see
      CorrectedAlternativeKey): the key it stores is the corrected one. */
  method AlternativeAnalyze(maths: Maths, m: Model) returns (r: Model)
    ensures r == m.(key := Some(CorrectedAlternativeKey(maths, KeyNotes(ControlEvents(m)))))
  {
    var notes := KeyNotes(ControlEvents(m));
    var ordered := InTimeOrder(notes);
    var occurrences := CountAllWindows(ordered);
    var total := Sum(occurrences);
    if total == 0.0 {
      r := m.(key := Some(Key(0, Minor)));
    } else {
      var h := occurrences;
      for i := 0 to 12
        invariant |h| == 12
        invariant forall p :: 0 <= p < i ==> h[p] == occurrences[p] / total
        invariant forall p :: i <= p < 12 ==> h[p] == occurrences[p]
      {
        h := h[i := h[i] / total];
      }
      assert h == Scaled(occurrences, total);
      var key := KeyOfShares(maths, h);
      r := m.(key := Some(key));
    }
  }

  /** The foreach loop: counts, per pitch class, the closed windows it
      occurs in. */
  method CountWindows(ns: NoteList) returns (occurrences: seq<real>, occurred: seq<bool>)
    ensures occurrences == WindowCounts(WindowsOf(ns).closed)
    ensures |occurred| == 12
    ensures forall p :: 0 <= p < 12 ==> (occurred[p] <==> p in WindowsOf(ns).open)
  {
    var nextBeat := WindowSpan;
    occurred := seq(12, p => false);
    occurrences := seq(12, p => 0.0);
    for k := 0 to |ns|
      invariant |occurrences| == 12 && |occurred| == 12
      invariant nextBeat == WindowsOf(ns[..k]).next
      invariant forall p :: 0 <= p < 12 ==> (occurred[p] <==> p in WindowsOf(ns[..k]).open)
      invariant occurrences == WindowCounts(WindowsOf(ns[..k]).closed)
    {
      assert ns[..k + 1][..k] == ns[..k];
      var note := ns[k];
      if note.time >= nextBeat {
        occurrences, occurred := Flush(occurrences, occurred);
        nextBeat := nextBeat + WindowSpan;
      }
      occurred := occurred[note.note % 12 := true];
    }
    assert ns[..|ns|] == ns;
  }

  /** The loop followed by one more flush, so that the window still open
      when the notes run out is counted too. */
  method CountAllWindows(ns: NoteList) returns (occurrences: seq<real>)
    ensures occurrences == WindowCounts(AllWindows(WindowsOf(ns)))
  {
    var occurred;
    occurrences, occurred := CountWindows(ns);
    occurrences, occurred := Flush(occurrences, occurred);
    var w := WindowsOf(ns);
    forall p | 0 <= p < 12
      ensures occurrences[p] == WindowCounts(AllWindows(w))[p]
    {
      assert AllWindows(w)[..|w.closed|] == w.closed;
    }
  }

  /** The inner loop: every class seen in the window is counted once and
      cleared. */
  method Flush(occurrences: seq<real>, occurred: seq<bool>) returns (counted: seq<real>, cleared: seq<bool>)
    requires |occurrences| == 12 && |occurred| == 12
    ensures |counted| == 12 && |cleared| == 12
    ensures forall p :: 0 <= p < 12 ==> counted[p] == occurrences[p] + if occurred[p] then 1.0 else 0.0
    ensures forall p :: 0 <= p < 12 ==> !cleared[p]
  {
    counted, cleared := occurrences, occurred;
    for i := 0 to 12
      invariant |counted| == 12 && |cleared| == 12
      invariant forall p :: 0 <= p < i ==> counted[p] == occurrences[p] + (if occurred[p] then 1.0 else 0.0) && !cleared[p]
      invariant forall p :: i <= p < 12 ==> counted[p] == occurrences[p] && cleared[p] == occurred[p]
    {
      if !cleared[i] {
        continue;
      }
      counted := counted[i := counted[i] + 1.0];
      cleared := cleared[i := false];
    }
  }

  /** The shares handed to the correlations add up to 1. */
  lemma AlternativeNormalised(occ: seq<real>)
    requires |occ| == 12 && Sum(occ) != 0.0
    ensures Sum(Scaled(occ, Sum(occ))) == 1.0
  {
    var total := Sum(occ);
    SumScaled(occ, total);
    assert total / total == 1.0;
  }

  /** The pitch classes of the notes. */
  function Classes(ns: NoteList): set<Tone>
  {
    if ns == [] then {} else Classes(ns[..|ns| - 1]) + {PitchClass(ns[|ns| - 1])}
  }

  lemma {:induction false} ClassesMembers(ns: NoteList)
    ensures forall k :: 0 <= k < |ns| ==> PitchClass(ns[k]) in Classes(ns)
  {
    if ns != [] {
      ClassesMembers(ns[..|ns| - 1]);
      assert forall k :: 0 <= k < |ns| - 1 ==> ns[..|ns| - 1][k] == ns[k];
    }
  }

  function Union(ws: seq<set<Tone>>): set<Tone>
  {
    if ws == [] then {} else Union(ws[..|ws| - 1]) + ws[|ws| - 1]
  }

  /** Every window of a scan, the one still being filled included. */
  function AllWindows(w: Windows): seq<set<Tone>>
  {
    w.closed + [w.open]
  }

  /** The windows split the notes: together they hold exactly the pitch
      classes of the notes, the last note is in the window still open, and
      the boundary has moved one span per closed window. */
  lemma {:induction false} WindowsPartition(ns: NoteList)
    ensures Union(AllWindows(WindowsOf(ns))) == Classes(ns)
    ensures ns != [] ==> PitchClass(ns[|ns| - 1]) in WindowsOf(ns).open
    ensures WindowsOf(ns).next == WindowSpan * (|WindowsOf(ns).closed| + 1) as real
  {
    if ns != [] {
      var init := ns[..|ns| - 1];
      var w := WindowsOf(init);
      WindowsPartition(init);
      var all := AllWindows(w);
      assert all[..|w.closed|] == w.closed;
      var pc := PitchClass(ns[|ns| - 1]);
      if ns[|ns| - 1].time >= w.next {
        assert AllWindows(WindowsOf(ns)) == all + [{pc}];
        assert (all + [{pc}])[..|all|] == all;
      } else {
        assert AllWindows(WindowsOf(ns)) == w.closed + [w.open + {pc}];
        assert (w.closed + [w.open + {pc}])[..|w.closed|] == w.closed;
      }
    }
  }

  /** A class is counted in some window exactly when some window holds it. */
  lemma {:induction false} CountedIffPresent(ws: seq<set<Tone>>, p: Tone)
    ensures WindowCount(ws, p) >= 1 <==> p in Union(ws)
  {
    if ws != [] {
      CountedIffPresent(ws[..|ws| - 1], p);
    }
  }

  /** With no note at or after the first boundary no window closes. */
  lemma {:induction false} NoWindowClosed(ns: NoteList)
    requires forall k :: 0 <= k < |ns| ==> ns[k].time < WindowSpan
    ensures WindowsOf(ns).closed == [] && WindowsOf(ns).next == WindowSpan
  {
    if ns != [] {
      NoWindowClosed(ns[..|ns| - 1]);
    }
  }

  /** As written the window still open when the notes run out is never
      counted: a piece whose sounding notes all start within its first
      1200 ms counts nothing, and comes out as C minor whatever its notes. */
  lemma EarlyNotesUncounted(maths: Maths, ns: NoteList)
    requires forall k :: 0 <= k < |ns| ==> ns[k].time < WindowSpan
    ensures WindowsOf(InTimeOrder(ns)).closed == []
    ensures AlternativeKey(maths, ns) == Key(0, Minor)
  {
    NoWindowClosed(InTimeOrder(ns));
    SumConst(WindowCounts([]), 0.0);
  }

  /** The evidently intended count: the last window as well. */
  function CorrectedAlternativeKey(maths: Maths, ns: NoteList): Key
  {
    KeyOfCounts(maths, WindowCounts(AllWindows(WindowsOf(InTimeOrder(ns)))))
  }

  /** Counting the last window too, every pitch class of a sounding note is
      counted at least once. */
  lemma CorrectedCountsEveryClass(ns: NoteList)
    ensures var c := WindowCounts(AllWindows(WindowsOf(InTimeOrder(ns))));
      forall k :: 0 <= k < |ns| ==> c[PitchClass(ns[k])] >= 1.0
  {
    var ordered := InTimeOrder(ns);
    var all := AllWindows(WindowsOf(ordered));
    var c := WindowCounts(all);
    WindowsPartition(ordered);
    ClassesMembers(ordered);
    forall k | 0 <= k < |ns|
      ensures c[PitchClass(ns[k])] >= 1.0
    {
      var j :| 0 <= j < |ordered| && ordered[j] == ns[k];
      CountedIffPresent(all, PitchClass(ns[k]));
    }
  }

  /** So with any note at all the shares are defined and the corrected key
      comes from the correlations. */
  lemma CorrectedKeyFromCorrelations(maths: Maths, ns: NoteList)
    requires ns != []
    ensures var c := WindowCounts(AllWindows(WindowsOf(InTimeOrder(ns))));
      Sum(c) >= 1.0 && CorrectedAlternativeKey(maths, ns) == KrumhanslKey(maths, Scaled(c, Sum(c)))
  {
    var c := WindowCounts(AllWindows(WindowsOf(InTimeOrder(ns))));
    CorrectedCountsEveryClass(ns);
    SumAtLeast(c, PitchClass(ns[0]));
  }

  /** A sum of non-negative values is at least each of them. */
  lemma {:induction false} SumAtLeast(xs: seq<real>, i: nat)
    requires i < |xs| && forall k :: 0 <= k < |xs| ==> xs[k] >= 0.0
    ensures Sum(xs) >= xs[i]
  {
    var n := |xs| - 1;
    if i < n {
      SumAtLeast(xs[..n], i);
    } else {
      SumNonNegative(xs[..n]);
    }
  }
}
