/** Normalizer.CalculateMetre and Normalizer.CalculateMeterFitnessOfBeatEvents:
    how well the notes fit the file's own tick grid decides where the beats
    come from. A fit above 0.4 keeps that grid; otherwise the notes are
    padded to time 0, the tactus is detected, laid out and given beat
    strengths, and the fit is measured again against the detected beats.
    Either way a weak beat is put at time 0 when no beat starts there. */
module Metre {
  import opened Wrappers
  import opened MathExt
  import opened Ordering
  import opened Keys
  import opened Events
  import opened Tracks
  import opened BeatSegments
  import opened BeatStrength
  import opened Normalizer
  import MetreFit
  import Padding
  import TimeCalculator
  import BeatNotes
  import Pips
  import Tactus

  /** CalculateMetre keeps the file's own grid when its notes fit it better
      than this. */
  const EmbeddedFit := 0.4

  // ------------------------------------------------------------ the model's events

  /** A NoteOn as the beat analysers see it. */
  function AsNote(e: ControlEvent): (n: Note)
    requires e.NoteOn?
    ensures n.time == e.time && n.volume == e.volume
  {
    Note(e.time, e.volume, e.realVolume, e.realLength)
  }

  /** EventsOfType<NoteOn>(), as notes of the beat analysers. */
  function NotesOf(es: seq<ControlEvent>): (r: seq<Note>)
    ensures |r| <= |es|
  {
    if es == [] then []
    else
      var last := es[|es| - 1];
      NotesOf(es[..|es| - 1]) + if last.NoteOn? then [AsNote(last)] else []
  }

  /** A BeatEvent as the beat analysers see it. */
  function AsBeat(e: MetaEvent): (b: Beat)
    requires e.BeatEvent?
    ensures b.time == e.time && b.length == e.length && b.level == e.level
  {
    Beat(e.time, e.length, e.level)
  }

  /** EventsOfType<BeatEvent>(), as beats. */
  function BeatsOf(ms: seq<MetaEvent>): (r: seq<Beat>)
    ensures |r| == |BeatNotes.BeatEventsOf(ms)|
  {
    var bs := BeatNotes.BeatEventsOf(ms);
    seq(|bs|, k requires 0 <= k < |bs| => AsBeat(bs[k]))
  }

  // ------------------------------------------------------------ the embedded grid

  /** Max(e => e.AbsoluteTime) over the EndOfTrack events; with none the
      maximum throws. */
  function LastEnd(ms: seq<MetaEvent>): (r: Result<nat>)
    ensures r.Fail? <==> forall k :: 0 <= k < |ms| ==> !ms[k].EndOfTrack?
    ensures r.Fail? ==> r.failure == InvalidOperation
    ensures r.Ok? ==> exists k :: 0 <= k < |ms| && ms[k].EndOfTrack? && ms[k].tick == r.value
    ensures r.Ok? ==> forall k :: 0 <= k < |ms| && ms[k].EndOfTrack? ==> ms[k].tick <= r.value
  {
    if ms == [] then Fail(InvalidOperation)
    else
      var init := ms[..|ms| - 1];
      var e := ms[|ms| - 1];
      var rest := LastEnd(init);
      assert forall k :: 0 <= k < |init| ==> init[k] == ms[k];
      if !e.EndOfTrack? then rest
      else if rest.Ok? && e.tick <= rest.value then rest
      else Ok(e.tick)
  }

  /** EventsOfType<TimeSignature>(), as the grid reads them. */
  function Signatures(ms: seq<MetaEvent>): (r: seq<Signature>)
    ensures |r| <= |ms|
  {
    if ms == [] then []
    else
      var e := ms[|ms| - 1];
      Signatures(ms[..|ms| - 1]) +
        if e.TimeSignature? then [Signature(e.tick, e.numerator, e.denominator)] else []
  }

  /** new BeatEvent { AbsoluteTime = tick, Level = level }: no real time,
      length or chord yet (a default Key is C major). */
  function GridEvent(g: GridBeat): MetaEvent
  {
    BeatEvent(g.tick, 0.0, 0.0, Key(0, Major), g.level)
  }

  function GridEvents(grid: seq<GridBeat>): (r: seq<MetaEvent>)
    ensures |r| == |grid|
  {
    seq(|grid|, k requires 0 <= k < |grid| => GridEvent(grid[k]))
  }

  /** midi.Tracks[0].MetaEvents.Add for each event; with no track the index
      is out of range. */
  function AddToFirstTrack(m: Model, ms: seq<MetaEvent>): (r: Result<Model>)
    ensures r.Fail? <==> m.tracks == []
    ensures r.Ok? ==> r.value == m.(tracks := r.value.tracks) && |r.value.tracks| == |m.tracks|
    ensures r.Ok? ==> r.value.tracks[0].meta == m.tracks[0].meta + ms
    ensures r.Ok? ==> forall t :: 0 <= t < |m.tracks| ==> r.value.tracks[t].channels == m.tracks[t].channels
    ensures r.Ok? ==> forall t :: 0 < t < |m.tracks| ==> r.value.tracks[t] == m.tracks[t]
  {
    if m.tracks == [] then Fail(IndexOutOfRange)
    else Ok(m.(tracks := m.tracks[0 := m.tracks[0].(meta := m.tracks[0].meta + ms)]))
  }

  /** Adding meta events leaves every track its sixteen channels. */
  lemma AddKeepsWellFormed(m: Model, ms: seq<MetaEvent>)
    requires WellFormed(m) && AddToFirstTrack(m, ms).Ok?
    ensures WellFormed(AddToFirstTrack(m, ms).value)
  {
    var r := AddToFirstTrack(m, ms).value;
    forall t | t in r.tracks
      ensures WellFormedTrack(t)
    {
      var i :| 0 <= i < |r.tracks| && r.tracks[i] == t;
      assert m.tracks[i] in m.tracks;
    }
  }

  /** The meta events after TimeCalculator.ComputeRealTimes: each at the real
      time of its tick. */
  function Retimed(ms: seq<MetaEvent>, st: seq<TimeCalculator.Stamp>, rate: TimeCalculator.Rate): (r: seq<MetaEvent>)
    requires rate.ticksPerBeat > 0
    ensures |r| == |ms|
  {
    seq(|ms|, i requires 0 <= i < |ms| => ms[i].(time := TimeCalculator.TimeAt(st, rate, ms[i].tick)))
  }

  /** The meta events of the model once ComputeRealTimes has run, or the
      exception it throws for a division with no beat length. */
  function RealTimedMeta(m: Model): Result<seq<MetaEvent>>
  {
    var st := TimeCalculator.Stamps(m);
    if TimeCalculator.ZeroRate(m.division) then
      if |st| > 0 then
        Fail(if exists i :: 0 <= i < |st| && st[i].tick == 0 then ArgumentError else Overflow)
      else Ok(MetaEvents(m))
    else Ok(Retimed(MetaEvents(m), st, TimeCalculator.DefaultRate(m.division)))
  }

  /** The model once CalculateImplicitMetre has added the grid from the
      fitted offset up to the last EndOfTrack to its first track. */
  function GridModel(m: Model, offset: nat): Result<Model>
  {
    var ms := MetaEvents(m);
    var end :- LastEnd(ms);
    var grid :- ImplicitGrid(MetreFit.TicksPerBeatOf(m.division), end, offset, Signatures(ms));
    AddToFirstTrack(m, GridEvents(grid))
  }

  /** CalculateImplicitMetre: the grid added; real times computed for every
      event; the beats given lengths and halved while longer than a second
      on average. */
  function ImplicitMetre(m: Model, offset: nat): Result<seq<Beat>>
  {
    var withGrid :- GridModel(m, offset);
    var timed :- RealTimedMeta(withGrid);
    var measured :- WithLengths(InTimeOrder(BeatsOf(timed)));
    Shortened(measured)
  }

  // ------------------------------------------------------------ the detector

  /** The segments the BeatStrengthAnalyzer constructor creates. */
  function FreshSegments(n: nat): (r: seq<Segment>)
    ensures |r| == n
  {
    seq(n, k requires 0 <= k < n => NewSegment(k))
  }

  /** The levels BeatStrengthAnalyzer.Analyze gives beats in time order. */
  function Strengths(sorted: seq<Beat>, notes: seq<Note>): seq<Beat>
    requires sorted != []
  {
    var n := |sorted|;
    WithLevels(sorted, StrongLevels(ConnectedAll(Filled(FreshSegments(n), sorted, notes), n)))
  }

  /** The detector branch of CalculateMetre on the model: PadNotesToZero,
      the tactus of the padded notes (the pips come from pipsOf, which stands
      for CreatePips), the metre extended past the end of the piece, one
      strong beat per metre entry from time 0 beside the beats the model
      already has, and their strengths. The padded model and the beats in
      time order are returned. */
  function DetectedMetre(maths: Maths, m: Model, pipsOf: Model -> seq<Pips.Pip>): Result<(Model, seq<Beat>)>
    requires forall x :: Tactus.Table(pipsOf(x))
  {
    var padded :- Padding.Padded(m);
    var created :- TactusBeats(maths, padded, pipsOf);
    var analyzed :- Analyzed(BeatsOf(MetaEvents(padded)) + created, NotesOf(ControlEvents(padded)));
    Ok((padded, analyzed))
  }

  /** The beats CreateBeatEvents lays out for the detected tactus, extended
      past the length of the piece. */
  function TactusBeats(maths: Maths, m: Model, pipsOf: Model -> seq<Pips.Pip>): Result<seq<Beat>>
    requires forall x :: Tactus.Table(pipsOf(x))
  {
    var metre :- Tactus.Computed(pipsOf(m), maths);
    var extended :- Extended(metre, m.length);
    Ok(Tiling(extended))
  }

  /** The beats in time order with the levels BeatStrengthAnalyzer gives
      them; with no beats Analyze throws. */
  function Analyzed(beats: seq<Beat>, notes: seq<Note>): Result<seq<Beat>>
  {
    var sorted := InTimeOrder(beats);
    if sorted == [] then Fail(if LoudInTimeOrder(notes) == [] then ArgumentError else IndexOutOfRange)
    else Ok(Strengths(sorted, notes))
  }

  // ------------------------------------------------------------ the beat-event fit

  /** The queue walk of CalculateMeterFitnessOfBeatEvents for a note at t:
      from beat c, every beat that has ended by t is dequeued, and peeking
      into the emptied queue throws. */
  function Advance(beats: seq<Beat>, c: nat, t: real): (r: Result<nat>)
    requires c < |beats|
    ensures r.Ok? ==> c <= r.value < |beats| && beats[r.value].time + beats[r.value].length > t
    ensures r.Ok? ==> forall j :: c <= j < r.value ==> beats[j].time + beats[j].length <= t
    ensures r.Fail? <==> forall j :: c <= j < |beats| ==> beats[j].time + beats[j].length <= t
    ensures r.Fail? ==> r.failure == InvalidOperation
    decreases |beats| - c
  {
    if beats[c].time + beats[c].length > t then Ok(c)
    else if c + 1 == |beats| then Fail(InvalidOperation)
    else Advance(beats, c + 1, t)
  }

  /** The beat each note is paired with, the queue carried from note to
      note. */
  function Pairing(beats: seq<Beat>, ns: seq<Note>): (r: Result<seq<nat>>)
    requires beats != []
    ensures r.Ok? ==> |r.value| == |ns| && forall k :: 0 <= k < |ns| ==> r.value[k] < |beats|
    ensures r.Ok? ==> forall k :: 0 <= k < |ns| ==>
      beats[r.value[k]].time + beats[r.value[k]].length > ns[k].time
    ensures r.Ok? ==> forall j, k :: 0 <= j <= k < |ns| ==> r.value[j] <= r.value[k]
    ensures r.Fail? ==> r.failure == InvalidOperation
  {
    if ns == [] then Ok([])
    else
      var init :- Pairing(beats, ns[..|ns| - 1]);
      assert forall k :: 0 <= k < |ns| - 1 ==> ns[..|ns| - 1][k] == ns[k];
      var next :- Advance(beats, Cursor(init), ns[|ns| - 1].time);
      Ok(init + [next])
  }

  /** The head of the queue after the pairs so far. */
  function Cursor(pairs: seq<nat>): nat
  {
    if pairs == [] then 0 else pairs[|pairs| - 1]
  }

  /** GoodnessOfNote for a note at t paired with beat b: the weight of the
      nearest quarter of the beat times exp(-16 d^2), d the deviation from
      it in eighths of the beat. A paired beat of length 0 starts after the
      note; the source's divisions by 0 then make the exponent -infinity
      and the score 0, which is what is given here. */
  function BeatGoodness(maths: Maths, t: real, b: Beat): real
  {
    if b.length == 0.0 then 0.0
    else
      var time := t - b.time;
      var portion := Trunc(time * 4.0 / b.length + 0.5);
      var d := (time - portion as real / 4.0 * b.length) * 8.0 / b.length;
      maths.exp(-d * d * 4.0 * 4.0) * MetreFit.Multiple(portion)
  }

  /** The score of each note against its beat. */
  function PairGoodnesses(maths: Maths, beats: seq<Beat>, ns: seq<Note>, pairs: seq<nat>): (gs: seq<real>)
    requires |pairs| == |ns| && forall k :: 0 <= k < |pairs| ==> pairs[k] < |beats|
    ensures |gs| == |ns|
  {
    seq(|ns|, k requires 0 <= k < |ns| => BeatGoodness(maths, ns[k].time, beats[pairs[k]]))
  }

  /** CalculateMeterFitnessOfBeatEvents: no beats throw an
      ArgumentException; the loud notes in time order are paired with the
      beats in time order, and their mean score is the fit (an empty mean
      throws). */
  function BeatFitness(maths: Maths, beats: seq<Beat>, notes: seq<Note>): (r: Result<real>)
  {
    var sorted := InTimeOrder(beats);
    if sorted == [] then Fail(ArgumentError)
    else
      var ns := LoudInTimeOrder(notes);
      var pairs :- Pairing(sorted, ns);
      if ns == [] then Fail(InvalidOperation)
      else Ok(Mean(PairGoodnesses(maths, sorted, ns, pairs)))
  }

  // ------------------------------------------------------------ CalculateMetre

  /** What CalculateMetre leaves: the model with IsNormalizedByMidiItself and
      GoodnessOfMetreFit set (padded in the detector branch), and its beats. */
  datatype Metre = Metre(model: Model, beats: seq<Beat>)

  /** The embedded branch: the file's grid, then the first beat. */
  function ByGrid(m: Model, offset: nat): Result<Metre>
  {
    var beats :- ImplicitMetre(m, offset);
    var first :- WithFirstBeat(beats);
    Ok(Metre(m.(normalizedByMidi := true), first))
  }

  /** The detector branch: the detected beats, the first beat, and the fit
      of the notes to them as the new GoodnessOfMetreFit. */
  function ByDetector(maths: Maths, m: Model, pipsOf: Model -> seq<Pips.Pip>): Result<Metre>
    requires forall x :: Tactus.Table(pipsOf(x))
  {
    var detected :- DetectedMetre(maths, m.(normalizedByMidi := false), pipsOf);
    var first :- WithFirstBeat(detected.1);
    var fit :- BeatFitness(maths, first, NotesOf(ControlEvents(detected.0)));
    Ok(Metre(detected.0.(goodnessOfFit := fit), first))
  }

  /** CalculateMetre: the fit of the file's own grid chooses the branch. */
  function Metred(maths: Maths, m: Model, pipsOf: Model -> seq<Pips.Pip>): Result<Metre>
    requires forall x :: Tactus.Table(pipsOf(x))
  {
    var fitness :- MetreFit.MeterFitness(maths, m);
    if fitness.1.goodnessOfFit > EmbeddedFit then ByGrid(fitness.1, fitness.0)
    else ByDetector(maths, fitness.1, pipsOf)
  }

  // ------------------------------------------------------------ the methods

  /** The inner while loop of CalculateMeterFitnessOfBeatEvents. */
  method AdvanceQueue(beats: seq<Beat>, c: nat, t: real) returns (r: Result<nat>)
    requires c < |beats|
    ensures r == Advance(beats, c, t)
  {
    var current := c;
    while beats[current].time + beats[current].length <= t
      invariant current < |beats| && Advance(beats, current, t) == Advance(beats, c, t)
      decreases |beats| - current
    {
      if current + 1 == |beats| {
        return Fail(InvalidOperation);
      }
      current := current + 1;
    }
    r := Ok(current);
  }

  /** One more note moves the cursor on from the last pairing. */
  lemma PairingStep(beats: seq<Beat>, ns: seq<Note>, i: nat, pairs: seq<nat>)
    requires beats != [] && i < |ns| && Pairing(beats, ns[..i]) == Ok(pairs)
    ensures Cursor(pairs) < |beats|
    ensures var next := Advance(beats, Cursor(pairs), ns[i].time);
      Pairing(beats, ns[..i + 1]) == if next.Ok? then Ok(pairs + [next.value]) else Fail(next.failure)
  {
    assert ns[..i + 1][..i] == ns[..i];
  }

  /** A failure part way through the notes is a failure of the whole walk. */
  lemma {:induction false} PairingFailsOn(beats: seq<Beat>, ns: seq<Note>, i: nat)
    requires beats != [] && i <= |ns| && Pairing(beats, ns[..i]).Fail?
    ensures Pairing(beats, ns).Fail?
    decreases |ns|
  {
    if i < |ns| {
      var init := ns[..|ns| - 1];
      assert init[..i] == ns[..i];
      PairingFailsOn(beats, init, i);
    } else {
      assert ns[..i] == ns;
    }
  }

  /** CalculateMeterFitnessOfBeatEvents. */
  method MeterFitnessOfBeatEvents(maths: Maths, beats: seq<Beat>, notes: seq<Note>) returns (r: Result<real>)
    ensures r == BeatFitness(maths, beats, notes)
  {
    var sorted := BeatsInTimeOrder(beats);
    if sorted == [] {
      return Fail(ArgumentError);
    }
    var ns := LoudNotesInTimeOrder(notes);
    var pairs := PairNotes(sorted, ns);
    if pairs.Fail? {
      return Fail(pairs.failure);
    }
    if ns == [] {
      return Fail(InvalidOperation);
    }
    r := Ok(Mean(PairGoodnesses(maths, sorted, ns, pairs.value)));
  }

  /** beatEvents.OrderBy(b => b.Time). */
  method BeatsInTimeOrder(beats: seq<Beat>) returns (sorted: seq<Beat>)
    ensures sorted == InTimeOrder(beats)
  {
    var order := OrderBy(BeatTimes(beats));
    StableOrderUnique(BeatTimes(beats), order, StableSort(BeatTimes(beats)));
    sorted := Arranged(beats, order);
  }

  /** The foreach loop of CalculateMeterFitnessOfBeatEvents: each note in
      turn moves the queue on to its beat. */
  method PairNotes(sorted: seq<Beat>, ns: seq<Note>) returns (r: Result<seq<nat>>)
    requires sorted != []
    ensures r == Pairing(sorted, ns)
  {
    var pairs: seq<nat> := [];
    var current: nat := 0;
    for i := 0 to |ns|
      invariant Pairing(sorted, ns[..i]) == Ok(pairs)
      invariant current == Cursor(pairs) < |sorted|
    {
      PairingStep(sorted, ns, i, pairs);
      var next := AdvanceQueue(sorted, current, ns[i].time);
      if next.Fail? {
        PairingFailsOn(sorted, ns, i + 1);
        return Fail(InvalidOperation);
      }
      pairs := pairs + [next.value];
      current := next.value;
    }
    assert ns[..|ns|] == ns;
    r := Ok(pairs);
  }

  /** The beat-adding part of CalculateImplicitMetre on the model. */
  method AddImplicitBeats(m: Model, offset: nat) returns (r: Result<Model>)
    requires WellFormed(m)
    ensures r == GridModel(m, offset)
    ensures r.Ok? ==> WellFormed(r.value)
  {
    var ms := MetaEvents(m);
    var end := LastEnd(ms);
    if end.Fail? {
      return Fail(end.failure);
    }
    var grid := ImplicitBeats(MetreFit.TicksPerBeatOf(m.division), end.value, offset, Signatures(ms));
    if grid.Fail? {
      return Fail(grid.failure);
    }
    r := AddToFirstTrack(m, GridEvents(grid.value));
    if r.Ok? {
      AddKeepsWellFormed(m, GridEvents(grid.value));
    }
  }

  /** TimeCalculator.ComputeRealTimes, read back as the meta events. */
  method ComputeMetaTimes(m: Model) returns (r: Result<seq<MetaEvent>>)
    requires WellFormed(m)
    ensures r == RealTimedMeta(m)
  {
    var timed := TimeCalculator.ComputeRealTimes(m);
    if timed.Fail? {
      return Fail(timed.failure);
    }
    r := Ok(MetaEvents(timed.value));
    if !TimeCalculator.ZeroRate(m.division) {
      assert r.value == Retimed(MetaEvents(m), TimeCalculator.Stamps(m), TimeCalculator.DefaultRate(m.division));
    }
  }

  /** CalculateImplicitMetre. */
  method CalculateImplicitMetre(m: Model, offset: nat) returns (r: Result<seq<Beat>>)
    requires WellFormed(m)
    ensures r == ImplicitMetre(m, offset)
  {
    var withGrid := AddImplicitBeats(m, offset);
    if withGrid.Fail? {
      return Fail(withGrid.failure);
    }
    var meta := ComputeMetaTimes(withGrid.value);
    if meta.Fail? {
      return Fail(meta.failure);
    }
    var measured := CalculateBeatLengths(BeatsOf(meta.value));
    if measured.Fail? {
      return Fail(measured.failure);
    }
    r := HalveLongBeats(measured.value);
  }

  /** The detector branch of CalculateMetre. */
  method DetectMetre(maths: Maths, m: Model, pipsOf: Model -> seq<Pips.Pip>) returns (r: Result<(Model, seq<Beat>)>)
    requires forall x :: Tactus.Table(pipsOf(x))
    ensures r == DetectedMetre(maths, m, pipsOf)
  {
    var padded := Padding.PadNotesToZero(m);
    if padded.Fail? {
      return Fail(padded.failure);
    }
    var created := DetectBeats(maths, padded.value, pipsOf);
    if created.Fail? {
      return Fail(created.failure);
    }
    var analyzed := AnalyzeStrengths(BeatsOf(MetaEvents(padded.value)) + created.value, NotesOf(ControlEvents(padded.value)));
    if analyzed.Fail? {
      return Fail(analyzed.failure);
    }
    r := Ok((padded.value, analyzed.value));
  }

  /** Analyze(midi) on a new Tactus, the extension loop and CreateBeatEvents. */
  method DetectBeats(maths: Maths, m: Model, pipsOf: Model -> seq<Pips.Pip>) returns (r: Result<seq<Beat>>)
    requires forall x :: Tactus.Table(pipsOf(x))
    ensures r == TactusBeats(maths, m, pipsOf)
  {
    var tactus := new Tactus.Tactus(pipsOf(m), maths);
    var metre := tactus.Compute();
    if metre.Fail? {
      return Fail(metre.failure);
    }
    var extended := ExtendMetre(metre.value, m.length);
    if extended.Fail? {
      return Fail(extended.failure);
    }
    var created := CreateBeatEvents(extended.value);
    r := Ok(created);
  }

  /** A new BeatStrengthAnalyzer over the beats, and Analyze. */
  method AnalyzeStrengths(beats: seq<Beat>, notes: seq<Note>) returns (r: Result<seq<Beat>>)
    ensures r == Analyzed(beats, notes)
  {
    var analyzer := new BeatStrengthAnalyzer(beats);
    assert analyzer.segments == FreshSegments(|analyzer.beats|);
    var analyzed := analyzer.Analyze(notes);
    if analyzed.Fail? {
      return Fail(analyzed.failure);
    }
    r := Ok(analyzer.beats);
  }

  /** CalculateMetre: the embedded grid is used exactly when the file's own
      fit is above 0.4, and afterwards a beat starts at time 0. */
  method CalculateMetre(maths: Maths, m: Model, pipsOf: Model -> seq<Pips.Pip>) returns (r: Result<Metre>)
    requires WellFormed(m) && forall x :: Tactus.Table(pipsOf(x))
    ensures r == Metred(maths, m, pipsOf)
    ensures r.Ok? ==> MetreFit.MeterFitness(maths, m).Ok?
    ensures r.Ok? ==>
      (r.value.model.normalizedByMidi <==> MetreFit.MeterFitness(maths, m).value.1.goodnessOfFit > EmbeddedFit)
    ensures r.Ok? ==> exists k :: 0 <= k < |r.value.beats| && r.value.beats[k].time == 0.0
  {
    var fitness := MetreFit.MeterFitness(maths, m);
    if fitness.Fail? {
      return Fail(fitness.failure);
    }
    var offset, fitted := fitness.value.0, fitness.value.1;
    assert fitted.tracks == m.tracks;
    if fitted.goodnessOfFit > EmbeddedFit {
      var beats := CalculateImplicitMetre(fitted, offset);
      if beats.Fail? {
        return Fail(beats.failure);
      }
      var first := WithFirstBeat(beats.value);
      if first.Fail? {
        return Fail(first.failure);
      }
      r := Ok(Metre(fitted.(normalizedByMidi := true), first.value));
    } else {
      var detected := DetectMetre(maths, fitted.(normalizedByMidi := false), pipsOf);
      if detected.Fail? {
        return Fail(detected.failure);
      }
      var first := WithFirstBeat(detected.value.1);
      if first.Fail? {
        return Fail(first.failure);
      }
      var fit := MeterFitnessOfBeatEvents(maths, first.value, NotesOf(ControlEvents(detected.value.0)));
      if fit.Fail? {
        return Fail(fit.failure);
      }
      r := Ok(Metre(detected.value.0.(goodnessOfFit := fit.value), first.value));
    }
    MetreBranches(maths, m, pipsOf);
    MetreStartsAtZero(maths, m, pipsOf);
  }

  // ------------------------------------------------------------ properties

  /** The branch CalculateMetre takes: the embedded grid exactly when the
      file's own fit is above 0.4, the detector otherwise; a failing fit
      fails the whole. */
  lemma MetreBranches(maths: Maths, m: Model, pipsOf: Model -> seq<Pips.Pip>)
    requires forall x :: Tactus.Table(pipsOf(x))
    ensures MetreFit.MeterFitness(maths, m).Fail? ==>
      Metred(maths, m, pipsOf) == Fail(MetreFit.MeterFitness(maths, m).failure)
    ensures Metred(maths, m, pipsOf).Ok? ==> MetreFit.MeterFitness(maths, m).Ok?
    ensures Metred(maths, m, pipsOf).Ok? ==>
      var (offset, fitted) := MetreFit.MeterFitness(maths, m).value;
      (Metred(maths, m, pipsOf).value.model.normalizedByMidi <==> fitted.goodnessOfFit > EmbeddedFit)
    ensures MetreFit.MeterFitness(maths, m).Ok? ==>
      var (offset, fitted) := MetreFit.MeterFitness(maths, m).value;
      Metred(maths, m, pipsOf) == if fitted.goodnessOfFit > EmbeddedFit then ByGrid(fitted, offset)
                                  else ByDetector(maths, fitted, pipsOf)
  {
    if MetreFit.MeterFitness(maths, m).Ok? {
      var (offset, fitted) := MetreFit.MeterFitness(maths, m).value;
      if fitted.goodnessOfFit > EmbeddedFit {
        GridBranch(fitted, offset);
      } else {
        DetectorBranch(maths, fitted, pipsOf);
      }
    }
  }

  /** The embedded branch marks the model normalised by its own grid and
      keeps the grid's beats with a first beat. */
  lemma GridBranch(m: Model, offset: nat)
    ensures ByGrid(m, offset).Ok? ==>
      ByGrid(m, offset).value.model == m.(normalizedByMidi := true) &&
      ImplicitMetre(m, offset).Ok? &&
      WithFirstBeat(ImplicitMetre(m, offset).value) == Ok(ByGrid(m, offset).value.beats)
  {
  }

  /** The detector branch marks the model not normalised, keeps the detected
      beats with a first beat, and stores the fit of the notes to them. */
  lemma DetectorBranch(maths: Maths, m: Model, pipsOf: Model -> seq<Pips.Pip>)
    requires forall x :: Tactus.Table(pipsOf(x))
    ensures var r := ByDetector(maths, m, pipsOf);
      r.Ok? ==>
        var detected := DetectedMetre(maths, m.(normalizedByMidi := false), pipsOf);
        detected.Ok? && !r.value.model.normalizedByMidi &&
        WithFirstBeat(detected.value.1) == Ok(r.value.beats) &&
        r.value.model == detected.value.0.(goodnessOfFit := r.value.model.goodnessOfFit) &&
        BeatFitness(maths, r.value.beats, NotesOf(ControlEvents(r.value.model))) == Ok(r.value.model.goodnessOfFit)
  {
    var r := ByDetector(maths, m, pipsOf);
    if r.Ok? {
      var m' := m.(normalizedByMidi := false);
      var padded := Padding.Padded(m').value;
      assert padded == m'.(tracks := padded.tracks);
      var detected := DetectedMetre(maths, m', pipsOf).value;
      assert ControlEvents(r.value.model) == ControlEvents(detected.0);
    }
  }

  /** Whatever the branch, some beat starts at time 0. */
  lemma MetreStartsAtZero(maths: Maths, m: Model, pipsOf: Model -> seq<Pips.Pip>)
    requires forall x :: Tactus.Table(pipsOf(x))
    ensures var r := Metred(maths, m, pipsOf);
      r.Ok? ==> exists k :: 0 <= k < |r.value.beats| && r.value.beats[k].time == 0.0
  {
    var r := Metred(maths, m, pipsOf);
    if r.Ok? {
      MetreBranches(maths, m, pipsOf);
      var (offset, fitted) := MetreFit.MeterFitness(maths, m).value;
      if fitted.goodnessOfFit > EmbeddedFit {
        GridBranch(fitted, offset);
        FirstBeatAtZero(ImplicitMetre(fitted, offset).value);
      } else {
        DetectorBranch(maths, fitted, pipsOf);
        FirstBeatAtZero(DetectedMetre(maths, fitted.(normalizedByMidi := false), pipsOf).value.1);
      }
    }
  }

  /** A note on the onset of its beat scores exp(0), one half way through
      the beat exp(0) / 2. */
  lemma OnBeatGoodness(maths: Maths, b: Beat)
    requires b.length != 0.0
    ensures BeatGoodness(maths, b.time, b) == maths.exp(0.0)
    ensures BeatGoodness(maths, b.time + b.length / 2.0, b) == maths.exp(0.0) * 0.5
  {
    var len := b.length;
    assert (b.time - b.time) * 4.0 / len + 0.5 == 0.5;
    assert Trunc(0.5) == 0;
    var half := b.time + len / 2.0;
    assert half - b.time == len / 2.0;
    assert len / 2.0 * 4.0 == 2.0 * len;
    assert 2.0 * len / len == 2.0;
    assert Trunc(2.5) == 2;
    assert (len / 2.0 - 2 as real / 4.0 * len) * 8.0 / len == 0.0;
  }

  /** When exp maps the non-positive reals into [0, 1], so does every score. */
  lemma BeatGoodnessBounded(maths: Maths, t: real, b: Beat)
    requires forall x :: x <= 0.0 ==> 0.0 <= maths.exp(x) <= 1.0
    ensures 0.0 <= BeatGoodness(maths, t, b) <= 1.0
  {
    if b.length != 0.0 {
      var time := t - b.time;
      var portion := Trunc(time * 4.0 / b.length + 0.5);
      var d := (time - portion as real / 4.0 * b.length) * 8.0 / b.length;
      assert -d * d * 4.0 * 4.0 <= 0.0;
    }
  }

  /** ... and then the fit of the notes to the beats lies in [0, 1]. */
  lemma BeatFitnessBounded(maths: Maths, beats: seq<Beat>, notes: seq<Note>)
    requires forall x :: x <= 0.0 ==> 0.0 <= maths.exp(x) <= 1.0
    requires BeatFitness(maths, beats, notes).Ok?
    ensures 0.0 <= BeatFitness(maths, beats, notes).value <= 1.0
  {
    var sorted := InTimeOrder(beats);
    var ns := LoudInTimeOrder(notes);
    var pairs := Pairing(sorted, ns).value;
    var gs := PairGoodnesses(maths, sorted, ns, pairs);
    forall k | 0 <= k < |gs|
      ensures 0.0 <= gs[k] <= 1.0
    {
      BeatGoodnessBounded(maths, ns[k].time, sorted[pairs[k]]);
    }
    SumBounded(gs);
    MetreFit.MeanBounded(Sum(gs), |gs|);
  }

  /** The fit CalculateMetre leaves lies in [0, 1] whenever the file has a
      note. */
  lemma MetreFitBounded(maths: Maths, m: Model, pipsOf: Model -> seq<Pips.Pip>)
    requires forall x :: Tactus.Table(pipsOf(x))
    requires forall x :: x <= 0.0 ==> 0.0 <= maths.exp(x) <= 1.0
    requires MetreFit.NoteTicks(ControlEvents(m)) != []
    ensures var r := Metred(maths, m, pipsOf);
      r.Ok? ==> 0.0 <= r.value.model.goodnessOfFit <= 1.0
  {
    var r := Metred(maths, m, pipsOf);
    if r.Ok? {
      MetreBranches(maths, m, pipsOf);
      var (offset, fitted) := MetreFit.MeterFitness(maths, m).value;
      if fitted.goodnessOfFit > EmbeddedFit {
        MetreFit.FitnessBounded(maths, m);
        GridBranch(fitted, offset);
      } else {
        DetectorBranch(maths, fitted, pipsOf);
        BeatFitnessBounded(maths, r.value.beats, NotesOf(ControlEvents(r.value.model)));
      }
    }
  }
}
