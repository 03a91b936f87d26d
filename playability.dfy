/** ChannelPlayabilityChecker.cs: which of the 16 channels hold a note in some track. */
module Playability {
  import opened Tracks

  /** Channel i holds a note in some track. */
  ghost predicate PlayableSomewhere(tracks: seq<Track>, i: nat)
  {
    exists t :: 0 <= t < |tracks| && i < |tracks[t].channels| && IsPlayable(tracks[t].channels[i])
  }

  /** Check: a fresh flag array replaces the old one (nothing is merged), entry i
      is set iff some track's channel i is playable, and nothing else changes. */
  method Check(m: Model) returns (r: Model)
    requires WellFormed(m)
    ensures |r.isChannelPlayable| == NumberOfChannels
    ensures forall i :: 0 <= i < NumberOfChannels ==>
      (r.isChannelPlayable[i] <==> PlayableSomewhere(m.tracks, i))
    ensures r == m.(isChannelPlayable := r.isChannelPlayable)
  {
    var flags := new bool[NumberOfChannels](_ => false);
    var t := 0;
    while t < |m.tracks|
      invariant 0 <= t <= |m.tracks|
      invariant forall i :: 0 <= i < NumberOfChannels ==>
        (flags[i] <==> PlayableSomewhere(m.tracks[..t], i))
    {
      var track := m.tracks[t];
      assert WellFormedTrack(track);
      var i := 0;
      while i < NumberOfChannels
        invariant 0 <= i <= NumberOfChannels
        invariant forall j :: 0 <= j < i ==>
          (flags[j] <==> PlayableSomewhere(m.tracks[..t + 1], j))
        invariant forall j :: i <= j < NumberOfChannels ==>
          (flags[j] <==> PlayableSomewhere(m.tracks[..t], j))
      {
        PlayableExtend(m.tracks, t, i);
        if IsPlayable(track.channels[i]) {
          flags[i] := true;
        }
        i := i + 1;
      }
      t := t + 1;
    }
    assert m.tracks[..|m.tracks|] == m.tracks;
    r := m.(isChannelPlayable := flags[..]);
  }

  /** Taking one more track adds exactly that track's channel i. */
  lemma PlayableExtend(tracks: seq<Track>, t: nat, i: nat)
    requires t < |tracks|
    ensures PlayableSomewhere(tracks[..t + 1], i) <==>
      PlayableSomewhere(tracks[..t], i) || (i < |tracks[t].channels| && IsPlayable(tracks[t].channels[i]))
  {
    var next := tracks[..t + 1];
    if PlayableSomewhere(next, i) {
      var u :| 0 <= u < |next| && i < |next[u].channels| && IsPlayable(next[u].channels[i]);
      if u < t {
        assert tracks[..t][u] == next[u];
      }
    }
    if PlayableSomewhere(tracks[..t], i) {
      var u :| 0 <= u < t && i < |tracks[..t][u].channels| && IsPlayable(tracks[..t][u].channels[i]);
      assert next[u] == tracks[..t][u];
    }
    if i < |tracks[t].channels| && IsPlayable(tracks[t].channels[i]) {
      assert next[t] == tracks[t];
    }
  }
}
