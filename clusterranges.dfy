/** ClusterRanges.cs: the pitch range the .mus format gives each cluster. */
module ClusterRanges {
  import opened Wrappers
  import opened Instruments

  /** The Ranges dictionary; Nonmusical has no entry. */
  function Range(c: InstrumentCluster): Option<(int, int)>
  {
    match c
    case Piano => Some((36, 84))
    case AcusticGuitar => Some((43, 76))
    case Orchestra => Some((43, 84))
    case Bass => Some((24, 50))
    case Brass => Some((43, 84))
    case Warm => Some((55, 81))
    case ElectricGuitar => Some((36, 76))
    case Organ => Some((48, 84))
    case ClappingBox => Some((43, 84))
    case Percussive => Some((PercussionMinNote, PercussionMaxNote))
    case Violin => Some((43, 84))
    case Nonmusical => None
  }

  /** ClusterRanges.Min: the lowest pitch; a lookup of Nonmusical throws. */
  function Min(c: InstrumentCluster): (r: Result<int>)
    ensures r.Fail? <==> c == Nonmusical
    ensures r.Fail? ==> r.failure == KeyNotFound
    ensures r.Ok? ==> 24 <= r.value <= 55
    ensures c == Percussive ==> r == Ok(PercussionMinNote)
  {
    match Range(c)
    case Some(mm) => Ok(mm.0)
    case None => Fail(KeyNotFound)
  }

  /** ClusterRanges.Max: the highest pitch; a lookup of Nonmusical throws. */
  function Max(c: InstrumentCluster): (r: Result<int>)
    ensures r.Fail? <==> c == Nonmusical
    ensures r.Fail? ==> r.failure == KeyNotFound
    ensures r.Ok? ==> 50 <= r.value <= 84
    ensures c == Percussive ==> r == Ok(PercussionMaxNote)
  {
    match Range(c)
    case Some(mm) => Ok(mm.1)
    case None => Fail(KeyNotFound)
  }

  /** ClusterRanges.Size: Max - Min. */
  function Size(c: InstrumentCluster): (r: Result<int>)
    ensures r.Fail? <==> c == Nonmusical
    ensures r.Ok? ==> r.value == Max(c).value - Min(c).value
  {
    match Range(c)
    case Some(mm) => Ok(mm.1 - mm.0)
    case None => Fail(KeyNotFound)
  }

  /** Every listed range is non-empty and spans at least an octave and a half. */
  lemma RangesWellFormed(c: InstrumentCluster)
    requires c != Nonmusical
    ensures Min(c).value <= Max(c).value
    ensures Size(c).value >= 18
  {
  }
}
