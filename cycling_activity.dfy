/** The cycling child component of the split screen
    (screens/ActivityScreen/CyclingActivity.js). It resets its distance when
    counting starts, accumulates GPS fixes while subscribed, and reports every
    change of the distance to the parent. */
module CyclingActivity {
  import opened Types
  import Odometer
  import Progress

  /** What the distance effect reports: the distance, and the goal callback
      whenever the distance is at or above the goal. */
  function DistanceNotice(distance: real, goal: real): (n: Progress.Notice<real>)
    ensures n.value == distance
    ensures n.goalReached <==> Progress.Reached(distance, goal)
  {
    Progress.Notice(distance, distance >= goal)
  }

  /** The report that follows a transition from `before` to `after`: the
      effect runs only when the value changed. */
  function NoticeOnChange(before: real, after: real, goal: real): (n: Option<Progress.Notice<real>>)
    ensures n.Some? <==> before != after
    ensures n.Some? ==> n.value == DistanceNotice(after, goal)
  {
    if before != after then Some(DistanceNotice(after, goal)) else None
  }

  /** The component's state. `watching` stands for a held location
      subscription. */
  class Cycling {
    const goal: real
    const dist: DistFn
    var isCounting: bool
    var distance: real
    var lastLocation: Option<Location>
    var watching: bool

    ghost predicate Valid()
      reads this
    {
      watching ==> isCounting
    }

    function Odo(): Odometer.Odo
      reads this
    {
      Odometer.Odo(distance, lastLocation)
    }

    /** Mounting with `isCounting` off: no distance, no fix, no subscription. */
    constructor (goal: real, dist: DistFn)
      ensures Valid()
      ensures this.goal == goal && this.dist == dist
      ensures !isCounting && !watching && Odo() == Odometer.Reset
    {
      this.goal := goal;
      this.dist := dist;
      isCounting, watching := false, false;
      distance, lastLocation := 0.0, None;
    }

    /** The distance effect: it runs after mount and after every change of
        the distance. */
    method Report() returns (n: Progress.Notice<real>)
      ensures n.value == distance
      ensures n.goalReached <==> Progress.Reached(distance, goal)
    {
      n := DistanceNotice(distance, goal);
    }

    /** A new `isCounting` prop, with the effect that runs when it changes:
        starting resets the distance and the previous fix (the subscription
        follows in StartLocationUpdates); pausing drops the subscription and
        keeps the distance. */
    method SetCounting(counting: bool) returns (n: Option<Progress.Notice<real>>)
      requires Valid()
      modifies this
      ensures Valid()
      ensures isCounting == counting
      ensures counting && !old(isCounting) ==> Odo() == Odometer.Reset && !watching
      ensures !counting ==> Odo() == old(Odo()) && !watching
      ensures counting && old(isCounting) ==> Odo() == old(Odo()) && watching == old(watching)
      ensures n == NoticeOnChange(old(distance), distance, goal)
    {
      var before := distance;
      if counting != isCounting {
        if counting {
          distance, lastLocation := 0.0, None;
        } else {
          watching := false;
        }
      }
      isCounting := counting;
      n := NoticeOnChange(before, distance, goal);
    }

    /** The rest of `startLocationUpdates`, once the permission request has
        answered: without permission nothing is subscribed, so no fix is ever
        delivered and no distance accumulates. */
    method StartLocationUpdates(granted: bool)
      requires Valid()
      modifies this`watching
      ensures Valid()
      ensures watching == (old(watching) || (isCounting && granted))
    {
      if isCounting && granted {
        watching := true;
      }
    }

    /** The location callback, delivered only while subscribed. */
    method OnLocation(fix: Location) returns (n: Option<Progress.Notice<real>>)
      requires Valid()
      modifies this`distance, this`lastLocation
      ensures Valid()
      ensures Odo() == if watching then Odometer.Fix(dist, old(Odo()), fix) else old(Odo())
      ensures watching && old(lastLocation).None? ==> distance == old(distance)
      ensures watching && old(lastLocation).Some? ==> distance == old(distance) + dist(old(lastLocation).value, fix)
      ensures watching ==> lastLocation == Some(fix)
      ensures n == NoticeOnChange(old(distance), distance, goal)
    {
      var before := distance;
      if watching {
        match lastLocation {
          case Some(last) => distance := distance + dist(last, fix);
          case None =>
        }
        lastLocation := Some(fix);
      }
      n := NoticeOnChange(before, distance, goal);
    }
  }

  /** Starting with the location permission denied: no subscription is made,
      so fixes that arrive afterwards add nothing. */
  method DeniedPermissionAccumulatesNothing(goal: real, dist: DistFn, f1: Location, f2: Location)
    returns (total: real, notified: bool)
    ensures total == 0.0 && !notified
  {
    var c := new Cycling(goal, dist);
    var onStart := c.SetCounting(true);
    c.StartLocationUpdates(false);
    var n1 := c.OnLocation(f1);
    var n2 := c.OnLocation(f2);
    total, notified := c.distance, n1.Some? || n2.Some?;
  }

  /** Starting with the permission granted: the first fix is only recorded,
      the second adds the distance between the two. */
  method GrantedPermissionAddsLeg(goal: real, dist: DistFn, f1: Location, f2: Location)
    returns (total: real)
    ensures total == dist(f1, f2)
  {
    var c := new Cycling(goal, dist);
    var onStart := c.SetCounting(true);
    c.StartLocationUpdates(true);
    var n1 := c.OnLocation(f1);
    var n2 := c.OnLocation(f2);
    total := c.distance;
  }
}
