/** The cycling distance accumulator: each GPS fix after the first adds the
    distance from the previous fix. */
module Odometer {
  import opened Types

  /** The accumulated distance in km and the previous fix, if any. */
  datatype Odo = Odo(distance: real, lastLocation: Option<Location>)

  /** The state at mount and after every start: no distance, no previous fix. */
  const Reset := Odo(0.0, None)

  /** One location callback. */
  function Fix(dist: DistFn, o: Odo, cur: Location): (next: Odo)
    ensures next.lastLocation == Some(cur)
    ensures o.lastLocation.None? ==> next.distance == o.distance
    ensures o.lastLocation.Some? ==> next.distance == o.distance + dist(o.lastLocation.value, cur)
  {
    match o.lastLocation
    case None => Odo(o.distance, Some(cur))
    case Some(last) => Odo(o.distance + dist(last, cur), Some(cur))
  }

  /** The state after every fix of `fixes`, in order (the last one applied last). */
  function Track(dist: DistFn, o: Odo, fixes: seq<Location>): (final: Odo)
    ensures fixes == [] ==> final == o
    ensures fixes != [] ==> final.lastLocation == Some(fixes[|fixes| - 1])
    ensures o.lastLocation.None? && |fixes| == 1 ==> final.distance == o.distance
    decreases |fixes|
  {
    if fixes == [] then o else Fix(dist, Track(dist, o, fixes[..|fixes| - 1]), fixes[|fixes| - 1])
  }

  /** The length of the polyline through `fixes`: the sum over i >= 1 of
      dist(fixes[i - 1], fixes[i]). */
  function PathLength(dist: DistFn, fixes: seq<Location>): real
    decreases |fixes|
  {
    if |fixes| < 2 then 0.0 else dist(fixes[0], fixes[1]) + PathLength(dist, fixes[1..])
  }

  /** Extending a path by one point adds the last leg. */
  lemma {:induction false} PathLengthExtend(dist: DistFn, fixes: seq<Location>, cur: Location)
    requires fixes != []
    ensures PathLength(dist, fixes + [cur]) == PathLength(dist, fixes) + dist(fixes[|fixes| - 1], cur)
    decreases |fixes|
  {
    if |fixes| >= 2 {
      assert (fixes + [cur])[1..] == fixes[1..] + [cur];
      PathLengthExtend(dist, fixes[1..], cur);
    }
  }

  /** After a reset, the accumulated distance over fixes f0..fn is the sum of
      dist(f(i-1), fi), and the previous fix is the last one received. */
  lemma {:induction false} TrackFromResetIsPathLength(dist: DistFn, fixes: seq<Location>)
    ensures Track(dist, Reset, fixes)
            == Odo(PathLength(dist, fixes), if fixes == [] then None else Some(fixes[|fixes| - 1]))
    decreases |fixes|
  {
    if fixes != [] {
      var prefix := fixes[..|fixes| - 1];
      var cur := fixes[|fixes| - 1];
      TrackFromResetIsPathLength(dist, prefix);
      if prefix != [] {
        assert fixes == prefix + [cur];
        PathLengthExtend(dist, prefix, cur);
      }
    }
  }

  /** The first fix after a reset adds nothing and is only recorded. */
  lemma FirstFixOnlyRecords(dist: DistFn, o: Odo, cur: Location)
    requires o.lastLocation == None
    ensures Fix(dist, o, cur) == Odo(o.distance, Some(cur))
  {
  }

  /** If no leg is negative, the accumulated distance never decreases. */
  lemma {:induction false} TrackNonDecreasing(dist: DistFn, o: Odo, fixes: seq<Location>)
    requires forall p, q :: dist(p, q) >= 0.0
    ensures Track(dist, o, fixes).distance >= o.distance
    decreases |fixes|
  {
    if fixes != [] {
      TrackNonDecreasing(dist, o, fixes[..|fixes| - 1]);
    }
  }
}
