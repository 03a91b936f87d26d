/** WriteClusters of ModelToMusicEvents.cs: the clusters of a piece, one per
    frame, become the records of a .mus file. Time advances only through
    space records (a small space is one frame, a big space six), written
    just before the next cluster that has anything in it; within a cluster
    the percussion ends come first, then the note ends, the percussion
    starts and the note starts, each group sorted. */
module MusWriter {
  import opened MathExt
  import opened Keys
  import opened Instruments
  import opened Events
  import opened Ordering
  import opened NoteClusters
  import opened MusRecords

  /** OrderBy(s => s.Channel).ThenBy(s => s.Pitch) as a single key: both
      are bytes, so comparing 256 * channel + pitch is comparing channel
      first and pitch second. */
  function NoteKey(pitch: byte, channel: byte): real
  {
    (256 * channel + pitch) as real
  }

  function StartKeys(ss: seq<NoteStart>): (keys: seq<real>)
    ensures |keys| == |ss| && forall k :: 0 <= k < |ss| ==> keys[k] == NoteKey(ss[k].pitch, ss[k].channel)
  {
    seq(|ss|, k requires 0 <= k < |ss| => NoteKey(ss[k].pitch, ss[k].channel))
  }

  function EndKeys(es: seq<NoteEnd>): (keys: seq<real>)
    ensures |keys| == |es| && forall k :: 0 <= k < |es| ==> keys[k] == NoteKey(es[k].pitch, es[k].channel)
  {
    seq(|es|, k requires 0 <= k < |es| => NoteKey(es[k].pitch, es[k].channel))
  }

  function DrumKeys(ps: seq<PercussionStart>): (keys: seq<real>)
    ensures |keys| == |ps| && forall k :: 0 <= k < |ps| ==> keys[k] == ps[k].drum as real
  {
    seq(|ps|, k requires 0 <= k < |ps| => ps[k].drum as real)
  }

  function DrumEndKeys(ps: seq<PercussionEnd>): (keys: seq<real>)
    ensures |keys| == |ps| && forall k :: 0 <= k < |ps| ==> keys[k] == ps[k].drum as real
  {
    seq(|ps|, k requires 0 <= k < |ps| => ps[k].drum as real)
  }

  /** The call each list entry's foreach body makes. */
  function StartCall(s: NoteStart): Record
  {
    NoteOnRecord(s.pitch, s.volume, s.instrument, s.channel)
  }

  function EndCall(e: NoteEnd): Record
  {
    NoteOffRecord(e.pitch, e.channel)
  }

  function DrumCall(p: PercussionStart): Record
  {
    PercussionOnRecord(p.drum, p.volume)
  }

  function DrumEndCall(p: PercussionEnd): Record
  {
    PercussionOffRecord(p.drum)
  }

  /** The WriteNoteOn calls of the note starts, by channel then pitch. */
  function NoteOns(ss: seq<NoteStart>): (rs: seq<Record>)
    ensures |rs| == |ss|
  {
    var sorted := Arranged(ss, StableSort(StartKeys(ss)));
    seq(|sorted|, k requires 0 <= k < |sorted| => StartCall(sorted[k]))
  }

  /** The WriteNoteOff calls of the note ends, by channel then pitch. */
  function NoteOffs(es: seq<NoteEnd>): (rs: seq<Record>)
    ensures |rs| == |es|
  {
    var sorted := Arranged(es, StableSort(EndKeys(es)));
    seq(|sorted|, k requires 0 <= k < |sorted| => EndCall(sorted[k]))
  }

  /** The WritePercussionOn calls of the percussion starts, by drum. */
  function PercussionOns(ps: seq<PercussionStart>): (rs: seq<Record>)
    ensures |rs| == |ps|
  {
    var sorted := Arranged(ps, StableSort(DrumKeys(ps)));
    seq(|sorted|, k requires 0 <= k < |sorted| => DrumCall(sorted[k]))
  }

  /** The WritePercussionOff calls of the percussion ends, by drum. */
  function PercussionOffs(ps: seq<PercussionEnd>): (rs: seq<Record>)
    ensures |rs| == |ps|
  {
    var sorted := Arranged(ps, StableSort(DrumEndKeys(ps)));
    seq(|sorted|, k requires 0 <= k < |sorted| => DrumEndCall(sorted[k]))
  }

  /** The four foreach loops of one cluster. */
  function ClusterEvents(c: NoteCluster): seq<Record>
  {
    PercussionOffs(c.percussionEnds) + NoteOffs(c.noteEnds) + PercussionOns(c.percussionStarts) + NoteOns(c.noteStarts)
  }

  /** The calls of the four loops of every cluster, in cluster order. */
  function EventLists(cs: seq<NoteCluster>): (evs: seq<seq<Record>>)
    ensures |evs| == |cs|
  {
    seq(|cs|, k requires 0 <= k < |cs| => ClusterEvents(cs[k]))
  }

  /** The chord number written with a space that starts at cluster `at`:
      that of the cluster twelve frames on, or 24 (no chord) past the end. */
  function ChordAhead(cs: seq<NoteCluster>, ahead: nat): int
  {
    if ahead >= |cs| then 24 else ToInt(cs[ahead].chord)
  }

  /** The spaces of the inner while loop before cluster i, which is `pause`
      frames after the last written cluster: a big space when six frames
      remain and the frame it starts at is on a multiple of six within its
      beat, a small space otherwise. C#'s % and Dafny's agree on whether
      the remainder is zero. */
  function Spaces(cs: seq<NoteCluster>, i: nat, pause: nat): seq<Record>
    requires pause <= i < |cs|
    decreases pause
  {
    if pause == 0 then []
    else
      var chord := ChordAhead(cs, i - pause + 12);
      if pause >= 6 && cs[i - pause].orderInBeat % 6 == 0 then [BigSpace(1, chord)] + Spaces(cs, i, pause - 6)
      else [SmallSpace(1, chord)] + Spaces(cs, i, pause - 1)
  }

  /** The pause counter when the loop reaches cluster i: one more than the
      clusters since the last one written, or i when none was. */
  function Pause(cs: seq<NoteCluster>, i: nat): (p: nat)
    requires i <= |cs|
    ensures p <= i
  {
    if i == 0 then 0
    else if IsEmpty(cs[i - 1]) then Pause(cs, i - 1) + 1
    else 1
  }

  /** The records of iteration i, given the calls of the cluster's four
      loops: the pending spaces, when the cluster has anything in it, then
      those calls. */
  function ClusterRecords(cs: seq<NoteCluster>, i: nat, events: seq<Record>): seq<Record>
    requires i < |cs|
  {
    (if IsEmpty(cs[i]) then [] else Spaces(cs, i, Pause(cs, i))) + events
  }

  /** The records written by the first i iterations, cluster k's loops
      writing evs[k]. */
  function Written(cs: seq<NoteCluster>, evs: seq<seq<Record>>, i: nat): seq<Record>
    requires |evs| == |cs| && i <= |cs|
  {
    if i == 0 then [] else Written(cs, evs, i - 1) + ClusterRecords(cs, i - 1, evs[i - 1])
  }

  /** Everything WriteClusters writes: the clusters, then the song end. */
  function Stream(cs: seq<NoteCluster>): seq<Record>
  {
    Written(cs, EventLists(cs), |cs|) + [SongEnd]
  }

  /** The channels of a cluster's notes are those of musical clusters. */
  predicate WritableCluster(c: NoteCluster)
  {
    (forall k :: 0 <= k < |c.noteStarts| ==> c.noteStarts[k].channel <= 10) &&
    (forall k :: 0 <= k < |c.noteEnds| ==> c.noteEnds[k].channel <= 10)
  }

  predicate WritableClusters(cs: seq<NoteCluster>)
  {
    forall i :: 0 <= i < |cs| ==> WritableCluster(cs[i])
  }

  /** The frames the space records of a list stand for. */
  function Frames(rs: seq<Record>): nat
  {
    if rs == [] then 0
    else Frames(rs[..|rs| - 1]) + match rs[|rs| - 1] case SmallSpace(_, _) => 1 case BigSpace(_, _) => 6 case _ => 0
  }

  /** Percussion ends, note ends, percussion starts, note starts. */
  function Rank(r: Record): nat
  {
    match r
    case PercussionOffRecord(_) => 0
    case NoteOffRecord(_, _) => 1
    case PercussionOnRecord(_, _) => 2
    case NoteOnRecord(_, _, _, _) => 3
    case _ => 4
  }

  /** Note and percussion calls only. */
  predicate NotesOnly(rs: seq<Record>)
  {
    forall j :: 0 <= j < |rs| ==> Rank(rs[j]) < 4
  }

  /** What the loops of a cluster write, as the rest of the writer relies
      on it: note and percussion calls only, and nothing for a cluster with
      nothing in it. */
  predicate EventsFit(cs: seq<NoteCluster>, evs: seq<seq<Record>>)
  {
    |evs| == |cs| && forall k :: 0 <= k < |cs| ==> NotesOnly(evs[k]) && (IsEmpty(cs[k]) ==> evs[k] == [])
  }

  // ---------------------------------------------------------------------
  // The writer. The BinaryWriter is modelled by the list of Write* calls
  // made on it; Bytes gives the file those calls produce.

  /** WriteClusters: every cluster in turn, then WriteSongEnd. Only
      clusters whose notes are on musical channels can be written: any
      other channel has no pitch range, and its lookup throws. */
  method WriteClusters(cs: seq<NoteCluster>) returns (calls: seq<Record>)
    requires WritableClusters(cs)
    ensures calls == Stream(cs) && AllWritable(calls)
  {
    ghost var evs := EventLists(cs);
    var pause := 0;
    calls := [];
    for i := 0 to |cs|
      invariant pause == Pause(cs, i) && calls == Written(cs, evs, i) && AllWritable(calls)
    {
      ghost var before := calls;
      calls, pause := WriteCluster(cs, i, pause, calls);
      EventsWritable(cs[i]);
      ClusterRecordsWritable(cs, i, evs[i]);
      AppendWritable(before, ClusterRecords(cs, i, evs[i]));
    }
    AppendWritable(calls, [SongEnd]);
    calls := calls + [SongEnd];
  }

  /** One iteration of WriteClusters. */
  method WriteCluster(cs: seq<NoteCluster>, i: nat, pause: nat, calls: seq<Record>)
    returns (calls': seq<Record>, pause': nat)
    requires i < |cs| && pause == Pause(cs, i)
    ensures pause' == Pause(cs, i + 1) && calls' == calls + ClusterRecords(cs, i, ClusterEvents(cs[i]))
  {
    var c := cs[i];
    // the four sorted foreach loops write these
    var events := ClusterEvents(c);
    ClusterStep(cs, i, pause, events);
    if IsEmpty(c) {
      calls' := calls + events;
      pause' := pause + 1;
    } else {
      var spaced := WriteSpaces(cs, i, pause, calls);
      calls' := spaced + events;
      pause' := 0 + 1;
      AppendAssoc(calls, Spaces(cs, i, pause), events);
    }
  }

  lemma AppendAssoc<T>(a: seq<T>, b: seq<T>, c: seq<T>)
    ensures (a + b) + c == a + (b + c)
  {
  }

  /** Iteration i writes its events, after the pending spaces when the
      cluster has anything in it, and the pause counter then restarts. */
  lemma ClusterStep(cs: seq<NoteCluster>, i: nat, pause: nat, events: seq<Record>)
    requires i < |cs| && pause == Pause(cs, i)
    ensures IsEmpty(cs[i]) ==> ClusterRecords(cs, i, events) == events && Pause(cs, i + 1) == pause + 1
    ensures !IsEmpty(cs[i]) ==> ClusterRecords(cs, i, events) == Spaces(cs, i, pause) + events && Pause(cs, i + 1) == 1
  {
    if IsEmpty(cs[i]) {
      assert ClusterRecords(cs, i, events) == [] + events;
    }
  }

  /** The while (pause > 0) loop. */
  method WriteSpaces(cs: seq<NoteCluster>, i: nat, pause0: nat, calls0: seq<Record>)
    returns (calls: seq<Record>)
    requires pause0 <= i < |cs|
    ensures calls == calls0 + Spaces(cs, i, pause0)
  {
    var pause: nat := pause0;
    calls := calls0;
    while pause > 0
      invariant pause <= pause0 && calls + Spaces(cs, i, pause) == calls0 + Spaces(cs, i, pause0)
    {
      var chordInNextBeat := if i - pause + 12 >= |cs| then 24 else ToInt(cs[i - pause + 12].chord);
      if pause >= 6 && cs[i - pause].orderInBeat % 6 == 0 {
        calls := calls + [BigSpace(1, chordInNextBeat)];
        pause := pause - 6;
      } else {
        calls := calls + [SmallSpace(1, chordInNextBeat)];
        pause := pause - 1;
      }
    }
  }

  // ---------------------------------------------------------------------
  // What the four loops write.

  /** The calls of a cluster's four lists are note and percussion calls
      only, and there are none for a cluster with nothing in it. */
  lemma EventsAreNotes(c: NoteCluster)
    ensures NotesOnly(ClusterEvents(c))
    ensures IsEmpty(c) ==> ClusterEvents(c) == []
  {
    EventsGrouped(c);
    if IsEmpty(c) {
      assert |ClusterEvents(c)| == 0;
    }
  }

  /** Cluster k's entry of EventLists. */
  lemma EventListAt(cs: seq<NoteCluster>, k: nat)
    requires k < |cs|
    ensures EventLists(cs)[k] == ClusterEvents(cs[k])
  {
  }

  /** The loops of every cluster write as the writer relies on. */
  lemma EventListsFit(cs: seq<NoteCluster>)
    ensures EventsFit(cs, EventLists(cs))
  {
    var evs := EventLists(cs);
    forall k | 0 <= k < |cs| ensures NotesOnly(evs[k]) && (IsEmpty(cs[k]) ==> evs[k] == []) {
      EventListAt(cs, k);
      EventsAreNotes(cs[k]);
    }
  }

  /** The loops of writable clusters make only calls that succeed. */
  lemma EventListsWritable(cs: seq<NoteCluster>)
    requires WritableClusters(cs)
    ensures forall k :: 0 <= k < |cs| ==> AllWritable(EventLists(cs)[k])
  {
    forall k | 0 <= k < |cs| ensures AllWritable(EventLists(cs)[k]) {
      EventListAt(cs, k);
      EventsWritable(cs[k]);
    }
  }

  // ---------------------------------------------------------------------
  // Writability: the calls of writable clusters all succeed.

  lemma {:induction false} SpacesWritable(cs: seq<NoteCluster>, i: nat, pause: nat)
    requires pause <= i < |cs|
    ensures forall k :: 0 <= k < |Spaces(cs, i, pause)| ==> Spaces(cs, i, pause)[k].SmallSpace? || Spaces(cs, i, pause)[k].BigSpace?
    decreases pause
  {
    if pause != 0 {
      SpacesWritable(cs, i, if pause >= 6 && cs[i - pause].orderInBeat % 6 == 0 then pause - 6 else pause - 1);
    }
  }

  lemma EventsWritable(c: NoteCluster)
    requires WritableCluster(c)
    ensures AllWritable(ClusterEvents(c))
  {
    var g0, g1, g2, g3 := PercussionOffs(c.percussionEnds), NoteOffs(c.noteEnds), PercussionOns(c.percussionStarts), NoteOns(c.noteStarts);
    assert AllWritable(g1) by {
      var order := StableSort(EndKeys(c.noteEnds));
      forall k | 0 <= k < |g1| ensures g1[k].channel <= 10 {
        assert g1[k].channel == c.noteEnds[order[k]].channel;
      }
    }
    assert AllWritable(g3) by {
      var order := StableSort(StartKeys(c.noteStarts));
      forall k | 0 <= k < |g3| ensures g3[k].channel <= 10 {
        assert g3[k].channel == c.noteStarts[order[k]].channel;
      }
    }
    AppendWritable(g0, g1);
    AppendWritable(g0 + g1, g2);
    AppendWritable(g0 + g1 + g2, g3);
  }

  lemma AppendWritable(a: seq<Record>, b: seq<Record>)
    requires AllWritable(a) && AllWritable(b)
    ensures AllWritable(a + b)
  {
    forall k | 0 <= k < |a + b| ensures Writable((a + b)[k]) {
      if k >= |a| {
        assert (a + b)[k] == b[k - |a|];
      }
    }
  }

  lemma ClusterRecordsWritable(cs: seq<NoteCluster>, i: nat, events: seq<Record>)
    requires i < |cs| && AllWritable(events)
    ensures AllWritable(ClusterRecords(cs, i, events))
  {
    if !IsEmpty(cs[i]) {
      SpacesWritable(cs, i, Pause(cs, i));
      AppendWritable(Spaces(cs, i, Pause(cs, i)), events);
    } else {
      assert ClusterRecords(cs, i, events) == events;
    }
  }

  // ---------------------------------------------------------------------
  // Time: the spaces.

  lemma {:induction false} FramesAppend(a: seq<Record>, b: seq<Record>)
    ensures Frames(a + b) == Frames(a) + Frames(b)
  {
    if b != [] {
      var n := |b| - 1;
      FramesAppend(a, b[..n]);
      assert (a + b)[..|a + b| - 1] == a + b[..n];
      assert (a + b)[|a + b| - 1] == b[n];
    } else {
      assert a + b == a;
    }
  }

  /** The width of the first space before cluster i, and the rest. */
  lemma FirstSpace(cs: seq<NoteCluster>, i: nat, pause: nat) returns (w: nat)
    requires 0 < pause <= i < |cs|
    ensures w == (if pause >= 6 && cs[i - pause].orderInBeat % 6 == 0 then 6 else 1) && w <= pause
    ensures var s := Spaces(cs, i, pause);
      s == [s[0]] + Spaces(cs, i, pause - w) && Frames([s[0]]) == w &&
      PlacedSpace(cs, i, s[0], i - pause)
  {
    w := if pause >= 6 && cs[i - pause].orderInBeat % 6 == 0 then 6 else 1;
    var s := Spaces(cs, i, pause);
    assert [s[0]][..0] == [];
  }

  /** The spaces before a cluster add up to exactly the pause. */
  lemma {:induction false} SpacesTotal(cs: seq<NoteCluster>, i: nat, pause: nat)
    requires pause <= i < |cs|
    ensures Frames(Spaces(cs, i, pause)) == pause
    decreases pause
  {
    if pause != 0 {
      var s := Spaces(cs, i, pause);
      var w := FirstSpace(cs, i, pause);
      SpacesTotal(cs, i, pause - w);
      FramesAppend([s[0]], Spaces(cs, i, pause - w));
    }
  }

  /** A space record starting at cluster `at`, before cluster i: tempo 1,
      the chord of the cluster twelve frames on, and a big space exactly
      when six whole frames remain before cluster i and `at` is on a
      multiple of six within its beat. */
  predicate PlacedSpace(cs: seq<NoteCluster>, i: nat, r: Record, at: int)
    requires i < |cs|
  {
    0 <= at < i && (r.BigSpace? || r.SmallSpace?) && r.tempo == 1 && r.chord == ChordAhead(cs, at + 12) &&
    (r.BigSpace? <==> at + 6 <= i && cs[at].orderInBeat % 6 == 0)
  }

  lemma PlacedAt(cs: seq<NoteCluster>, i: nat, r: Record, at: int, at': int)
    requires i < |cs| && PlacedSpace(cs, i, r, at) && at == at'
    ensures PlacedSpace(cs, i, r, at')
  {
  }

  /** Space k of those before cluster i starts where the earlier ones end,
      counting from the frame after the last written cluster; so the
      spaces tile the pause, a big one wherever one fits on a multiple of
      six. */
  lemma {:induction false} SpacePlaced(cs: seq<NoteCluster>, i: nat, pause: nat, k: nat)
    requires pause <= i < |cs| && k < |Spaces(cs, i, pause)|
    ensures var s := Spaces(cs, i, pause); PlacedSpace(cs, i, s[k], i - pause + Frames(s[..k]))
    decreases pause
  {
    var s := Spaces(cs, i, pause);
    var w := FirstSpace(cs, i, pause);
    if k == 0 {
      assert s[..0] == [];
    } else {
      var rest := Spaces(cs, i, pause - w);
      SpacePlaced(cs, i, pause - w, k - 1);
      assert s[..k] == [s[0]] + rest[..k - 1];
      FramesAppend([s[0]], rest[..k - 1]);
      assert s[k] == rest[k - 1];
      PlacedAt(cs, i, s[k], i - (pause - w) + Frames(rest[..k - 1]), i - pause + Frames(s[..k]));
    }
  }

  /** Events take no time: no space record is among them. */
  lemma {:induction false} NoSpacesNoFrames(rs: seq<Record>)
    requires NotesOnly(rs)
    ensures Frames(rs) == 0
  {
    if rs != [] {
      NoSpacesNoFrames(rs[..|rs| - 1]);
    }
  }

  /** After the first i clusters, the frames written and the pause add up to i. */
  lemma {:induction false} FramesWritten(cs: seq<NoteCluster>, evs: seq<seq<Record>>, i: nat)
    requires EventsFit(cs, evs) && i <= |cs|
    ensures Frames(Written(cs, evs, i)) + Pause(cs, i) == i
  {
    if i != 0 {
      var n := i - 1;
      FramesWritten(cs, evs, n);
      NoSpacesNoFrames(evs[n]);
      var spaces := if IsEmpty(cs[n]) then [] else Spaces(cs, n, Pause(cs, n));
      if !IsEmpty(cs[n]) {
        SpacesTotal(cs, n, Pause(cs, n));
      }
      FramesAppend(spaces, evs[n]);
      FramesAppend(Written(cs, evs, n), ClusterRecords(cs, n, evs[n]));
      assert Written(cs, evs, i) == Written(cs, evs, n) + ClusterRecords(cs, n, evs[n]);
    } else {
      assert Written(cs, evs, i) == [];
    }
  }

  /** The events of every cluster with anything in it are written after
      exactly as many frames as the cluster's index. */
  lemma ClusterAtItsFrame(cs: seq<NoteCluster>, evs: seq<seq<Record>>, i: nat)
    requires EventsFit(cs, evs) && i < |cs| && !IsEmpty(cs[i])
    ensures Written(cs, evs, i + 1) == Written(cs, evs, i) + Spaces(cs, i, Pause(cs, i)) + evs[i]
    ensures Frames(Written(cs, evs, i) + Spaces(cs, i, Pause(cs, i))) == i
  {
    var w, s := Written(cs, evs, i), Spaces(cs, i, Pause(cs, i));
    FramesWritten(cs, evs, i);
    SpacesTotal(cs, i, Pause(cs, i));
    FramesAppend(w, s);
    NextWritten(cs, evs, i);
  }

  lemma NextWritten(cs: seq<NoteCluster>, evs: seq<seq<Record>>, i: nat)
    requires |evs| == |cs| && i < |cs| && !IsEmpty(cs[i])
    ensures Written(cs, evs, i + 1) == Written(cs, evs, i) + Spaces(cs, i, Pause(cs, i)) + evs[i]
  {
    var w, s := Written(cs, evs, i), Spaces(cs, i, Pause(cs, i));
    assert ClusterRecords(cs, i, evs[i]) == s + evs[i];
    assert w + (s + evs[i]) == w + s + evs[i];
  }

  /** Clusters with nothing in them write nothing, so trailing ones leave
      no spaces behind. */
  lemma {:induction false} TrailingClustersSilent(cs: seq<NoteCluster>, evs: seq<seq<Record>>, j: nat, n: nat)
    requires EventsFit(cs, evs) && j <= n <= |cs| && forall k :: j <= k < |cs| ==> IsEmpty(cs[k])
    ensures Written(cs, evs, n) == Written(cs, evs, j)
    decreases n
  {
    if n != j {
      TrailingClustersSilent(cs, evs, j, n - 1);
      var w := Written(cs, evs, n - 1);
      assert ClusterRecords(cs, n - 1, evs[n - 1]) == [];
      assert Written(cs, evs, n) == w + [];
      assert w + [] == w;
      assert Written(cs, evs, n) == Written(cs, evs, j);
    } else {
      assert n == j;
    }
  }

  /** Nothing written for the clusters is a song end. */
  lemma {:induction false} WrittenNoSongEnd(cs: seq<NoteCluster>, evs: seq<seq<Record>>, i: nat)
    requires EventsFit(cs, evs) && i <= |cs|
    ensures SongEnd !in Written(cs, evs, i)
  {
    if i != 0 {
      var n := i - 1;
      WrittenNoSongEnd(cs, evs, n);
      var w, r := Written(cs, evs, n), ClusterRecords(cs, n, evs[n]);
      assert Written(cs, evs, i) == w + r;
      NotesOnlyNoSongEnd(evs[n]);
      if IsEmpty(cs[n]) {
        assert r == evs[n];
      } else {
        var spaces := Spaces(cs, n, Pause(cs, n));
        SpacesWritable(cs, n, Pause(cs, n));
        assert SongEnd !in spaces;
        assert r == spaces + evs[n];
        AppendAvoids(spaces, evs[n], SongEnd);
      }
      AppendAvoids(w, r, SongEnd);
    } else {
      assert Written(cs, evs, i) == [];
    }
  }

  lemma NotesOnlyNoSongEnd(rs: seq<Record>)
    requires NotesOnly(rs)
    ensures SongEnd !in rs
  {
    forall j | 0 <= j < |rs|
      ensures rs[j] != SongEnd
    {
      assert Rank(rs[j]) < 4;
    }
  }

  lemma AppendAvoids<T>(a: seq<T>, b: seq<T>, x: T)
    requires x !in a && x !in b
    ensures x !in a + b
  {
  }

  lemma {:induction false} WrittenWritable(cs: seq<NoteCluster>, evs: seq<seq<Record>>, i: nat)
    requires |evs| == |cs| && i <= |cs| && forall k :: 0 <= k < |cs| ==> AllWritable(evs[k])
    ensures AllWritable(Written(cs, evs, i))
  {
    if i != 0 {
      var before := Written(cs, evs, i - 1);
      WrittenWritable(cs, evs, i - 1);
      ClusterRecordsWritable(cs, i - 1, evs[i - 1]);
      AppendWritable(before, ClusterRecords(cs, i - 1, evs[i - 1]));
      assert Written(cs, evs, i) == before + ClusterRecords(cs, i - 1, evs[i - 1]);
    } else {
      assert Written(cs, evs, i) == [];
    }
  }

  /** The song end is the last call and only there, and every call
      succeeds. */
  lemma StreamEnds(cs: seq<NoteCluster>)
    requires WritableClusters(cs)
    ensures var s := Stream(cs); |s| > 0 && s[|s| - 1] == SongEnd && forall k :: 0 <= k < |s| - 1 ==> s[k] != SongEnd
    ensures AllWritable(Stream(cs))
  {
    var w := Written(cs, EventLists(cs), |cs|);
    assert Stream(cs) == w + [SongEnd];
    EventListsFit(cs);
    WrittenNoSongEnd(cs, EventLists(cs), |cs|);
    EndsOnce(w, Stream(cs));
    StreamWritable(cs, w);
  }

  /** A list without a song end, and then one. */
  lemma EndsOnce(w: seq<Record>, s: seq<Record>)
    requires SongEnd !in w && s == w + [SongEnd]
    ensures |s| > 0 && s[|s| - 1] == SongEnd && forall k :: 0 <= k < |s| - 1 ==> s[k] != SongEnd
  {
    forall k | 0 <= k < |s| - 1
      ensures s[k] != SongEnd
    {
      assert s[k] == w[k] && w[k] in w;
    }
  }

  lemma StreamWritable(cs: seq<NoteCluster>, w: seq<Record>)
    requires WritableClusters(cs) && w == Written(cs, EventLists(cs), |cs|)
    ensures AllWritable(Stream(cs))
  {
    EventListsWritable(cs);
    WrittenWritable(cs, EventLists(cs), |cs|);
    var end := [SongEnd];
    assert Stream(cs) == w + end;
    SongEndWritable(end);
    AppendWritable(w, end);
  }

  lemma SongEndWritable(end: seq<Record>)
    requires end == [SongEnd]
    ensures AllWritable(end)
  {
    assert end[0] == SongEnd;
  }

  /** The file is a whole number of four-byte records and ends in the
      four bytes of an EndEvent. */
  lemma FileEnds(maths: Maths, cs: seq<NoteCluster>)
    requires WritableClusters(cs)
    ensures AllWritable(Stream(cs)) && var b := Bytes(maths, Stream(cs));
      |b| == 4 * |Stream(cs)| && |b| >= 4 && b[|b| - 4..] == [TypeCode(EndEvent), 0, 0, 0]
  {
    var s := Stream(cs);
    StreamEnds(cs);
    LastRecordBytes(maths, s);
    var last := s[|s| - 1];
    assert last == SongEnd;
    SongEndBytes(maths);
  }

  lemma LastRecordBytes(maths: Maths, s: seq<Record>)
    requires AllWritable(s) && |s| > 0
    ensures var b := Bytes(maths, s); |b| >= 4 && b[|b| - 4..] == Encode(maths, s[|s| - 1])
  {
    var b := Bytes(maths, s);
    BytesAt(maths, s, |s| - 1);
    assert 4 * (|s| - 1) == |b| - 4;
  }

  // ---------------------------------------------------------------------
  // Order within a cluster.

  /** The key a group is sorted by: channel then pitch, or the drum. */
  function SortKey(r: Record): real
  {
    match r
    case NoteOnRecord(pitch, _, _, channel) => NoteKey(pitch, channel)
    case NoteOffRecord(pitch, channel) => NoteKey(pitch, channel)
    case PercussionOnRecord(drum, _) => drum as real
    case PercussionOffRecord(drum) => drum as real
    case _ => 0.0
  }

  predicate Grouped(rs: seq<Record>)
  {
    forall a, b :: 0 <= a < b < |rs| ==>
      Rank(rs[a]) < Rank(rs[b]) || (Rank(rs[a]) == Rank(rs[b]) && SortKey(rs[a]) <= SortKey(rs[b]))
  }

  /** A group of one rank, sorted by its key. */
  predicate SortedGroup(rs: seq<Record>, rank: nat)
  {
    (forall k :: 0 <= k < |rs| ==> Rank(rs[k]) == rank) &&
    forall a, b :: 0 <= a < b < |rs| ==> SortKey(rs[a]) <= SortKey(rs[b])
  }

  lemma GroupedAppend(x: seq<Record>, y: seq<Record>, rank: nat)
    requires Grouped(x) && (forall k :: 0 <= k < |x| ==> Rank(x[k]) < rank) && SortedGroup(y, rank)
    ensures Grouped(x + y) && forall k :: 0 <= k < |x + y| ==> Rank((x + y)[k]) <= rank
  {
    forall a, b | 0 <= a < b < |x + y|
      ensures Rank((x + y)[a]) < Rank((x + y)[b]) || (Rank((x + y)[a]) == Rank((x + y)[b]) && SortKey((x + y)[a]) <= SortKey((x + y)[b]))
    {
      if b < |x| {
        assert (x + y)[a] == x[a] && (x + y)[b] == x[b];
      } else if a < |x| {
        assert (x + y)[a] == x[a] && (x + y)[b] == y[b - |x|];
      } else {
        assert (x + y)[a] == y[a - |x|] && (x + y)[b] == y[b - |x|];
      }
    }
  }

  lemma NoteOnsSorted(ss: seq<NoteStart>)
    ensures SortedGroup(NoteOns(ss), 3)
  {
    var keys := StartKeys(ss);
    var order := StableSort(keys);
    var rs := NoteOns(ss);
    forall a, b | 0 <= a < b < |rs| ensures SortKey(rs[a]) <= SortKey(rs[b]) {
      StableOrderMonotone(keys, order, a, b);
    }
  }

  lemma NoteOffsSorted(es: seq<NoteEnd>)
    ensures SortedGroup(NoteOffs(es), 1)
  {
    var keys := EndKeys(es);
    var order := StableSort(keys);
    var rs := NoteOffs(es);
    forall a, b | 0 <= a < b < |rs| ensures SortKey(rs[a]) <= SortKey(rs[b]) {
      StableOrderMonotone(keys, order, a, b);
    }
  }

  lemma PercussionOnsSorted(ps: seq<PercussionStart>)
    ensures SortedGroup(PercussionOns(ps), 2)
  {
    var keys := DrumKeys(ps);
    var order := StableSort(keys);
    var rs := PercussionOns(ps);
    forall a, b | 0 <= a < b < |rs| ensures SortKey(rs[a]) <= SortKey(rs[b]) {
      StableOrderMonotone(keys, order, a, b);
    }
  }

  lemma PercussionOffsSorted(ps: seq<PercussionEnd>)
    ensures SortedGroup(PercussionOffs(ps), 0)
  {
    var keys := DrumEndKeys(ps);
    var order := StableSort(keys);
    var rs := PercussionOffs(ps);
    forall a, b | 0 <= a < b < |rs| ensures SortKey(rs[a]) <= SortKey(rs[b]) {
      StableOrderMonotone(keys, order, a, b);
    }
  }

  /** Within a cluster: percussion ends, then note ends, then percussion
      starts, then note starts, each group by channel and pitch or by drum. */
  lemma EventsGrouped(c: NoteCluster)
    ensures Grouped(ClusterEvents(c)) && NotesOnly(ClusterEvents(c))
  {
    var g0, g1, g2, g3 := PercussionOffs(c.percussionEnds), NoteOffs(c.noteEnds), PercussionOns(c.percussionStarts), NoteOns(c.noteStarts);
    PercussionOffsSorted(c.percussionEnds);
    NoteOffsSorted(c.noteEnds);
    PercussionOnsSorted(c.percussionStarts);
    NoteOnsSorted(c.noteStarts);
    assert Grouped(g0);
    GroupedAppend(g0, g1, 1);
    GroupedAppend(g0 + g1, g2, 2);
    GroupedAppend(g0 + g1 + g2, g3, 3);
  }

  lemma EventsHoldCluster(c: NoteCluster)
    ensures forall s :: s in c.noteStarts ==> StartCall(s) in NoteOns(c.noteStarts)
    ensures forall r :: r in NoteOns(c.noteStarts) ==> exists s :: s in c.noteStarts && r == StartCall(s)
    ensures forall e :: e in c.noteEnds ==> EndCall(e) in NoteOffs(c.noteEnds)
    ensures forall r :: r in NoteOffs(c.noteEnds) ==> exists e :: e in c.noteEnds && r == EndCall(e)
    ensures forall p :: p in c.percussionStarts ==> DrumCall(p) in PercussionOns(c.percussionStarts)
    ensures forall r :: r in PercussionOns(c.percussionStarts) ==> exists p :: p in c.percussionStarts && r == DrumCall(p)
    ensures forall p :: p in c.percussionEnds ==> DrumEndCall(p) in PercussionOffs(c.percussionEnds)
    ensures forall r :: r in PercussionOffs(c.percussionEnds) ==> exists p :: p in c.percussionEnds && r == DrumEndCall(p)
    ensures |ClusterEvents(c)| == |c.noteStarts| + |c.noteEnds| + |c.percussionStarts| + |c.percussionEnds|
  {
    NoteOnsHold(c.noteStarts);
    NoteOffsHold(c.noteEnds);
    PercussionOnsHold(c.percussionStarts);
    PercussionOffsHold(c.percussionEnds);
  }

  lemma NoteOnsHold(ss: seq<NoteStart>)
    ensures forall s :: s in ss ==> StartCall(s) in NoteOns(ss)
    ensures forall r :: r in NoteOns(ss) ==> exists s :: s in ss && r == StartCall(s)
  {
    var order := StableSort(StartKeys(ss));
    var sorted := Arranged(ss, order);
    ArrangedMembers(ss, StartKeys(ss), order);
    var rs := NoteOns(ss);
    forall s | s in ss ensures StartCall(s) in rs {
      var k :| 0 <= k < |sorted| && sorted[k] == s;
      assert rs[k] == StartCall(s);
    }
    forall r | r in rs ensures exists s :: s in ss && r == StartCall(s) {
      var k :| 0 <= k < |rs| && rs[k] == r;
      assert sorted[k] in ss;
    }
  }

  lemma NoteOffsHold(es: seq<NoteEnd>)
    ensures forall e :: e in es ==> EndCall(e) in NoteOffs(es)
    ensures forall r :: r in NoteOffs(es) ==> exists e :: e in es && r == EndCall(e)
  {
    var order := StableSort(EndKeys(es));
    var sorted := Arranged(es, order);
    ArrangedMembers(es, EndKeys(es), order);
    var rs := NoteOffs(es);
    forall e | e in es ensures EndCall(e) in rs {
      var k :| 0 <= k < |sorted| && sorted[k] == e;
      assert rs[k] == EndCall(e);
    }
    forall r | r in rs ensures exists e :: e in es && r == EndCall(e) {
      var k :| 0 <= k < |rs| && rs[k] == r;
      assert sorted[k] in es;
    }
  }

  lemma PercussionOnsHold(ps: seq<PercussionStart>)
    ensures forall p :: p in ps ==> DrumCall(p) in PercussionOns(ps)
    ensures forall r :: r in PercussionOns(ps) ==> exists p :: p in ps && r == DrumCall(p)
  {
    var order := StableSort(DrumKeys(ps));
    var sorted := Arranged(ps, order);
    ArrangedMembers(ps, DrumKeys(ps), order);
    var rs := PercussionOns(ps);
    forall p | p in ps ensures DrumCall(p) in rs {
      var k :| 0 <= k < |sorted| && sorted[k] == p;
      assert rs[k] == DrumCall(p);
    }
    forall r | r in rs ensures exists p :: p in ps && r == DrumCall(p) {
      var k :| 0 <= k < |rs| && rs[k] == r;
      assert sorted[k] in ps;
    }
  }

  lemma PercussionOffsHold(ps: seq<PercussionEnd>)
    ensures forall p :: p in ps ==> DrumEndCall(p) in PercussionOffs(ps)
    ensures forall r :: r in PercussionOffs(ps) ==> exists p :: p in ps && r == DrumEndCall(p)
  {
    var order := StableSort(DrumEndKeys(ps));
    var sorted := Arranged(ps, order);
    ArrangedMembers(ps, DrumEndKeys(ps), order);
    var rs := PercussionOffs(ps);
    forall p | p in ps ensures DrumEndCall(p) in rs {
      var k :| 0 <= k < |sorted| && sorted[k] == p;
      assert rs[k] == DrumEndCall(p);
    }
    forall r | r in rs ensures exists p :: p in ps && r == DrumEndCall(p) {
      var k :| 0 <= k < |rs| && rs[k] == r;
      assert sorted[k] in ps;
    }
  }
}
