/** The split activity screen (screens/ActivityScreen/index.js): it owns the
    display state and exactly one logical child, WalkRunActivity or
    CyclingActivity, which does the counting and reports back. */
module ActivityScreenIndex {
  import opened Types
  import StepDetector
  import Odometer
  import Progress
  import WalkRunActivity
  import CyclingActivity
  import ActivityScreen

  /** The tuning passed to WalkRunActivity: the two ternaries on the mode name. */
  function IndexPolicy(name: string): (p: StepDetector.Policy)
    ensures name == "Correr" ==> p == StepDetector.Policy(1.3, 250, false)
    ensures name != "Correr" ==> p == StepDetector.Policy(1.0, 400, false)
  {
    StepDetector.Policy(if name == "Correr" then 1.3 else 1.0, if name == "Correr" then 250 else 400, false)
  }

  /** For the two known modes the split screen and the single-file screen use
      the same tuning. */
  lemma KnownModesAgree(name: string)
    requires name == "Andar" || name == "Correr"
    ensures IndexPolicy(name) == ActivityScreen.StepPolicy(name)
  {
  }

  /** For any other name the two revisions disagree: the split screen falls
      back to 400 ms, the single-file screen to 300 ms. */
  lemma UnknownModesDiffer(name: string)
    requires name != "Andar" && name != "Correr"
    ensures IndexPolicy(name) == StepDetector.Policy(1.0, 400, false)
    ensures ActivityScreen.StepPolicy(name) == StepDetector.Policy(1.0, 300, false)
    ensures IndexPolicy(name) != ActivityScreen.StepPolicy(name)
  {
  }

  /** `progressValue`: the same ratio as in the single-file screen. */
  function ProgressValue(isCycling: bool, steps: nat, distance: real, goal: real): (r: Progress.Ratio)
    ensures r == ActivityScreen.ProgressValue(isCycling, steps, distance, goal)
    ensures goal > 0.0 ==> (r.value >= 1.0 <==> Progress.Reached(ActivityScreen.Metric(isCycling, steps, distance), goal))
  {
    Progress.Quotient(ActivityScreen.Metric(isCycling, steps, distance), goal)
  }

  /** `progressText`: the congratulations text exactly when the goal is
      reached, otherwise the metric together with the goal. */
  function ProgressText(isCycling: bool, steps: nat, distance: real, goal: real): (l: Progress.Label)
    ensures l == Progress.Congratulations <==> Progress.Reached(ActivityScreen.Metric(isCycling, steps, distance), goal)
    ensures l != Progress.Congratulations ==>
              l == if isCycling then Progress.DistanceOfGoal(distance, goal) else Progress.StepsOfGoal(steps, goal)
  {
    var text := if isCycling then Progress.DistanceOfGoal(distance, goal) else Progress.StepsOfGoal(steps, goal);
    if ActivityScreen.Metric(isCycling, steps, distance) >= goal then Progress.Congratulations else text
  }

  /** The parent's state: `steps` and `distance` are what it displays; the
      counting itself lives in the one child that is mounted. */
  class Screen {
    const mode: Mode
    const isCycling: bool
    const walkRun: WalkRunActivity.WalkRun?
    const cycling: CyclingActivity.Cycling?
    ghost const Repr: set<object>
    var isCounting: bool
    var showModal: bool
    var steps: nat
    var distance: real

    ghost predicate Valid()
      reads this, Repr
    {
      && isCycling == (mode.name == "Ciclismo")
      && (walkRun != null <==> !isCycling)
      && (cycling != null <==> isCycling)
      && Repr == (if isCycling then {cycling} else {walkRun})
      && (walkRun != null ==>
            walkRun.goal == mode.goal && walkRun.policy == IndexPolicy(mode.name) && walkRun.isCounting == isCounting)
      && (cycling != null ==>
            cycling.goal == mode.goal && cycling.Valid() && cycling.isCounting == isCounting)
    }

    /** Mounting: the parent starts at zero and not counting, the one child is
        mounted, and the child's metric effect reports once. */
    constructor (mode: Mode, dist: DistFn)
      ensures Valid() && fresh(Repr)
      ensures this.mode == mode && !isCounting && steps == 0 && distance == 0.0
      ensures walkRun != null ==> walkRun.StepState() == StepDetector.Initial
      ensures cycling != null ==> cycling.Odo() == Odometer.Reset && !cycling.watching && cycling.dist == dist
      ensures showModal == Progress.Reached(0.0, mode.goal)
    {
      this.mode := mode;
      isCycling := mode.name == "Ciclismo";
      if mode.name == "Ciclismo" {
        var c := new CyclingActivity.Cycling(mode.goal, dist);
        cycling, walkRun, Repr := c, null, {c};
      } else {
        var w := new WalkRunActivity.WalkRun(mode.goal, IndexPolicy(mode.name).threshold,
                                             IndexPolicy(mode.name).minInterval, false);
        cycling, walkRun, Repr := null, w, {w};
      }
      isCounting, showModal, steps, distance := false, false, 0, 0.0;
      new;
      if isCycling {
        var n := cycling.Report();
        OnDistanceChange(n.value);
        if n.goalReached {
          HandleGoalReached();
        }
      } else {
        var n := walkRun.Report();
        OnStepsChange(n.value);
        if n.goalReached {
          HandleGoalReached();
        }
      }
    }

    /** `handleGoalReached`: it only shows the modal, so calling it again
        changes nothing. */
    method HandleGoalReached()
      modifies this`showModal
      ensures showModal
    {
      showModal := true;
    }

    /** The `onStepsChange` callback given to WalkRunActivity. */
    method OnStepsChange(value: nat)
      modifies this`steps
      ensures steps == value
    {
      steps := value;
    }

    /** The `onDistanceChange` callback given to CyclingActivity. */
    method OnDistanceChange(value: real)
      modifies this`distance
      ensures distance == value
    {
      distance := value;
    }

    /** `handleToggleCounting`: flips `isCounting` and, only when counting was
        off, clears the displayed metric. The new prop then reaches the child:
        WalkRunActivity keeps its own count, CyclingActivity resets its
        distance on a start and drops its subscription on a pause. */
    method Toggle()
      requires Valid()
      modifies this, Repr
      ensures Valid()
      ensures isCounting == !old(isCounting)
      ensures old(isCounting) ==> steps == old(steps) && distance == old(distance)
      ensures !old(isCounting) && !isCycling ==> steps == 0 && distance == old(distance)
      ensures !old(isCounting) && isCycling ==> distance == 0.0 && steps == old(steps)
      ensures !isCycling ==> walkRun.StepState() == old(walkRun.StepState())
      ensures isCycling && !old(isCounting) ==> cycling.Odo() == Odometer.Reset && !cycling.watching
      ensures isCycling && old(isCounting) ==> cycling.Odo() == old(cycling.Odo()) && !cycling.watching
      ensures showModal == (old(showModal) || (isCycling && !old(isCounting)
                              && old(cycling.distance) != 0.0 && Progress.Reached(0.0, mode.goal)))
    {
      var wasCounting := isCounting;
      isCounting := !isCounting;
      if !isCycling {
        if !wasCounting {
          steps := 0;
        }
        walkRun.SetCounting(isCounting);
      } else {
        if !wasCounting {
          distance := 0.0;
        }
        var n := cycling.SetCounting(isCounting);
        if n.Some? {
          OnDistanceChange(n.value.value);
          if n.value.goalReached {
            HandleGoalReached();
          }
        }
      }
    }

    /** An accelerometer sample reaches the walk/run child; an accepted step
        is reported back, so the displayed count becomes the child's count,
        which continues from before any restart. */
    method OnAccelerometer(s: Sample, now: int) returns (stepped: bool)
      requires Valid()
      modifies this, Repr
      ensures Valid()
      ensures stepped <==> !isCycling && isCounting
                           && StepDetector.Accepts(IndexPolicy(mode.name), old(walkRun.lastStepTime), Timed(s, now))
      ensures !isCycling ==>
                walkRun.StepState() ==
                  if stepped then StepDetector.StepState(old(walkRun.steps) + 1, now) else old(walkRun.StepState())
      ensures steps == if stepped then old(walkRun.steps) + 1 else old(steps)
      ensures showModal == (old(showModal) || (stepped && Progress.Reached(steps as real, mode.goal)))
      ensures isCounting == old(isCounting) && distance == old(distance)
      ensures isCycling ==> cycling.Odo() == old(cycling.Odo()) && cycling.watching == old(cycling.watching)
    {
      stepped := false;
      if !isCycling {
        var n := walkRun.OnSample(s, now);
        if n.Some? {
          stepped := true;
          OnStepsChange(n.value.value);
          if n.value.goalReached {
            HandleGoalReached();
          }
        }
      }
    }

    /** The permission answer reaches the cycling child. */
    method StartLocationUpdates(granted: bool)
      requires Valid()
      modifies Repr
      ensures Valid()
      ensures isCycling ==> cycling.watching == (old(cycling.watching) || (isCounting && granted))
      ensures isCycling ==> cycling.Odo() == old(cycling.Odo())
      ensures !isCycling ==> walkRun.StepState() == old(walkRun.StepState())
    {
      if isCycling {
        cycling.StartLocationUpdates(granted);
      }
    }

    /** A GPS fix reaches the cycling child; a change of its distance is
        reported back. */
    method OnLocation(fix: Location)
      requires Valid()
      modifies this, Repr
      ensures Valid()
      ensures isCycling ==>
                cycling.Odo() ==
                  if cycling.watching then Odometer.Fix(cycling.dist, old(cycling.Odo()), fix) else old(cycling.Odo())
      ensures isCycling ==> cycling.watching == old(cycling.watching)
      ensures isCycling && cycling.distance != old(cycling.distance) ==> distance == cycling.distance
      ensures (!isCycling || cycling.distance == old(cycling.distance)) ==> distance == old(distance)
      ensures showModal == (old(showModal) || (isCycling && cycling.distance != old(cycling.distance)
                                               && Progress.Reached(distance, mode.goal)))
      ensures isCounting == old(isCounting) && steps == old(steps)
      ensures !isCycling ==> walkRun.StepState() == old(walkRun.StepState())
    {
      if isCycling {
        var n := cycling.OnLocation(fix);
        if n.Some? {
          OnDistanceChange(n.value.value);
          if n.value.goalReached {
            HandleGoalReached();
          }
        }
      }
    }

    /** Closing the congratulations modal. */
    method CloseModal()
      modifies this`showModal
      ensures !showModal
    {
      showModal := false;
    }
  }

  /** Walking: start, one step, pause, start again, one more step. Right after
      the restart the screen shows 0, but the next reported count is 2, not 1,
      because the child never cleared its own counter. */
  method RestartContinuesChildCount(dist: DistFn, goal: real, s: Sample, t1: int, t2: int)
    returns (shownAfterRestart: nat, shownAfterNextStep: nat)
    requires Abs(s.z) > 1.0 && t1 > 400 && t2 - t1 > 400
    ensures shownAfterRestart == 0 && shownAfterNextStep == 2
  {
    var screen := new Screen(Mode("Andar", goal), dist);
    screen.Toggle();
    var first := screen.OnAccelerometer(s, t1);
    screen.Toggle();
    screen.Toggle();
    shownAfterRestart := screen.steps;
    var second := screen.OnAccelerometer(s, t2);
    shownAfterNextStep := screen.steps;
  }

  /** Cycling: start, permission granted, then fixes f1 and f2. The first fix
      is only recorded by the child, the second adds the leg, and the parent
      displays the child's distance. */
  method SplitScreenGrantedAddsLeg(goal: real, dist: DistFn, f1: Location, f2: Location)
    returns (shown: real)
    ensures shown == dist(f1, f2)
  {
    var screen := new Screen(Mode("Ciclismo", goal), dist);
    screen.Toggle();
    screen.StartLocationUpdates(true);
    screen.OnLocation(f1);
    screen.OnLocation(f2);
    shown := screen.distance;
  }
}
