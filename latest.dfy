/** The "latest change at or before a time" lookup that the collectors and
    the pitch-bend calculator share: the entries with time at or before t,
    folded with Aggregate((prev, act) => prev.time < act.time ? act : prev),
    which keeps the first of the latest entries. */
module Latest {
  import opened Wrappers

  /** The index the filtered fold selects, or None when no entry is at or
      before t. */
  function AtOrBefore(times: seq<real>, t: real): (r: Option<nat>)
    ensures r.Some? ==> r.value < |times| && times[r.value] <= t
    ensures r.Some? ==> forall j :: 0 <= j < |times| && times[j] <= t ==> times[j] <= times[r.value]
    ensures r.Some? ==> forall j :: 0 <= j < r.value && times[j] <= t ==> times[j] < times[r.value]
    ensures r.None? <==> forall j :: 0 <= j < |times| ==> times[j] > t
  {
    if times == [] then None
    else
      var n := |times| - 1;
      var r := AtOrBefore(times[..n], t);
      if times[n] <= t && (r.None? || times[r.value] < times[n]) then Some(n)
      else r
  }

  /** The lookup with DefaultIfEmpty: the value of the selected entry, or the
      default when there is none. */
  function ValueAtOrBefore<T>(times: seq<real>, values: seq<T>, t: real, default: T): (r: T)
    requires |values| == |times|
    ensures (forall j :: 0 <= j < |times| ==> times[j] > t) ==> r == default
    ensures (exists j :: 0 <= j < |times| && times[j] <= t) ==>
      exists k :: 0 <= k < |times| && times[k] <= t && r == values[k] &&
        (forall j :: 0 <= j < |times| && times[j] <= t ==> times[j] <= times[k]) &&
        (forall j :: 0 <= j < k && times[j] <= t ==> times[j] < times[k])
  {
    match AtOrBefore(times, t)
    case None => default
    case Some(k) => values[k]
  }
}
