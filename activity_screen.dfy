/** The single-file activity screen (screens/ActivityScreen.js): step counting
    for walking and running, GPS distance for cycling, start/pause, the goal
    modal and the progress bar. */
module ActivityScreen {
  import opened Types
  import StepDetector
  import Odometer
  import Progress

  /** Per-mode tuning of the step rule. */
  datatype WalkRunConfig = WalkRunConfig(threshold: real, minInterval: int)

  /** The `walkRunConfig` table. */
  const WalkRunTable: map<string, WalkRunConfig> :=
    map["Andar" := WalkRunConfig(1.0, 400), "Correr" := WalkRunConfig(1.3, 250)]

  /** The value used when the mode name is not in the table. */
  const Fallback := WalkRunConfig(1.0, 300)

  /** The tuning for a mode name, with the fallback for unknown names. */
  function ConfigFor(name: string): (c: WalkRunConfig)
    ensures name == "Andar" ==> c == WalkRunConfig(1.0, 400)
    ensures name == "Correr" ==> c == WalkRunConfig(1.3, 250)
    ensures name != "Andar" && name != "Correr" ==> c == WalkRunConfig(1.0, 300)
  {
    if name in WalkRunTable then WalkRunTable[name] else Fallback
  }

  /** This revision's step rule has no cross-axis gate. */
  function StepPolicy(name: string): (p: StepDetector.Policy)
    ensures !p.crossAxisGate
    ensures name == "Andar" ==> p.threshold == 1.0 && p.minInterval == 400
    ensures name == "Correr" ==> p.threshold == 1.3 && p.minInterval == 250
    ensures name != "Andar" && name != "Correr" ==> p.threshold == 1.0 && p.minInterval == 300
  {
    StepDetector.Policy(ConfigFor(name).threshold, ConfigFor(name).minInterval, false)
  }

  /** The metric the screen is tracking. */
  function Metric(isCycling: bool, steps: nat, distance: real): (m: real)
    ensures isCycling ==> m == distance
    ensures !isCycling ==> m == steps as real && m >= 0.0
  {
    if isCycling then distance else steps as real
  }

  /** `progressValue`: the active metric divided by the goal. */
  function ProgressValue(isCycling: bool, steps: nat, distance: real, goal: real): (r: Progress.Ratio)
    ensures r.Finite? <==> goal != 0.0
    ensures r.Finite? ==> r.value * goal == Metric(isCycling, steps, distance)
    ensures goal > 0.0 ==> (r.value >= 1.0 <==> Progress.Reached(Metric(isCycling, steps, distance), goal))
  {
    var m := Metric(isCycling, steps, distance);
    assert goal > 0.0 ==> (Progress.Quotient(m, goal).value >= 1.0 <==> Progress.Reached(m, goal)) by {
      if goal > 0.0 {
        Progress.FullIffReached(m, goal);
      }
    }
    Progress.Quotient(m, goal)
  }

  /** `progressLabel`: the congratulations text exactly when the goal is
      reached, otherwise the current steps or distance. */
  function ProgressLabel(isCycling: bool, steps: nat, distance: real, goal: real): (l: Progress.Label)
    ensures l == Progress.Congratulations <==> Progress.Reached(Metric(isCycling, steps, distance), goal)
    ensures l != Progress.Congratulations ==>
              l == if isCycling then Progress.Distance(distance) else Progress.Steps(steps)
  {
    if isCycling then
      (if distance >= goal then Progress.Congratulations else Progress.Distance(distance))
    else
      (if steps as real >= goal then Progress.Congratulations else Progress.Steps(steps))
  }

  /** The state of one mounted screen. `watching` stands for a held location
      subscription (`locationWatcher` not null). */
  class Screen {
    const mode: Mode
    const isCycling: bool
    const policy: StepDetector.Policy
    const dist: DistFn
    var isCounting: bool
    var showModal: bool
    var steps: nat
    var lastStepTime: int
    var distance: real
    var lastLocation: Option<Location>
    var watching: bool

    ghost predicate Valid()
      reads this
    {
      && isCycling == (mode.name == "Ciclismo")
      && policy == StepPolicy(mode.name)
      && (watching ==> isCycling && isCounting)
    }

    function StepState(): StepDetector.StepState
      reads this
    {
      StepDetector.StepState(steps, lastStepTime)
    }

    function Odo(): Odometer.Odo
      reads this
    {
      Odometer.Odo(distance, lastLocation)
    }

    /** Mounting: every counter at zero, not counting, and both goal effects
        run once on the initial metrics. */
    constructor (mode: Mode, dist: DistFn)
      ensures Valid()
      ensures this.mode == mode && this.dist == dist
      ensures !isCounting && !watching
      ensures StepState() == StepDetector.Initial && Odo() == Odometer.Reset
      ensures showModal == Progress.Reached(0.0, mode.goal)
    {
      this.mode := mode;
      this.dist := dist;
      isCycling := mode.name == "Ciclismo";
      policy := StepPolicy(mode.name);
      isCounting, showModal, watching := false, false, false;
      steps, lastStepTime := 0, 0;
      distance, lastLocation := 0.0, None;
      new;
      StepsEffect();
      DistanceEffect();
    }

    /** The effect that runs after `steps` changes. */
    method StepsEffect()
      modifies this`showModal
      ensures showModal == (old(showModal) || (!isCycling && Progress.Reached(steps as real, mode.goal)))
    {
      if !isCycling && steps as real >= mode.goal {
        showModal := true;
      }
    }

    /** The effect that runs after `distance` changes. */
    method DistanceEffect()
      modifies this`showModal
      ensures showModal == (old(showModal) || (isCycling && Progress.Reached(distance, mode.goal)))
    {
      if isCycling && distance >= mode.goal {
        showModal := true;
      }
    }

    /** The accelerometer listener, subscribed only while walking or running
        and counting. `stepped` says the step was accepted (and the step sound
        played). */
    method OnAccelerometer(s: Sample, now: int) returns (stepped: bool)
      requires Valid()
      modifies this
      ensures Valid()
      ensures stepped <==> !isCycling && isCounting && StepDetector.Accepts(policy, old(lastStepTime), Timed(s, now))
      ensures StepState() == if stepped then StepDetector.StepState(old(steps) + 1, now) else old(StepState())
      ensures StepState() == if !isCycling && isCounting then StepDetector.Detect(policy, old(StepState()), Timed(s, now))
                             else old(StepState())
      ensures showModal == (old(showModal) || (stepped && Progress.Reached(steps as real, mode.goal)))
      ensures isCounting == old(isCounting) && watching == old(watching) && Odo() == old(Odo())
    {
      stepped := !isCycling && isCounting && StepDetector.Accepts(policy, lastStepTime, Timed(s, now));
      if stepped {
        steps, lastStepTime := steps + 1, now;
        StepsEffect();
      }
    }

    /** The rest of the location effect, once the permission request has
        answered: without permission nothing is subscribed. */
    method StartLocationUpdates(granted: bool)
      requires Valid()
      modifies this`watching
      ensures Valid()
      ensures watching == (old(watching) || (isCycling && isCounting && granted))
    {
      if isCycling && isCounting && granted {
        watching := true;
      }
    }

    /** The location callback, delivered only while subscribed: the first fix
        after a reset is only recorded, each later one adds the distance from
        the previous fix. */
    method OnLocation(fix: Location)
      requires Valid()
      modifies this
      ensures Valid()
      ensures Odo() == if watching then Odometer.Fix(dist, old(Odo()), fix) else old(Odo())
      ensures watching && old(lastLocation).None? ==> distance == old(distance)
      ensures watching && old(lastLocation).Some? ==> distance == old(distance) + dist(old(lastLocation).value, fix)
      ensures watching ==> lastLocation == Some(fix)
      ensures showModal == (old(showModal) || (distance != old(distance) && Progress.Reached(distance, mode.goal)))
      ensures StepState() == old(StepState()) && isCounting == old(isCounting) && watching == old(watching)
    {
      if watching {
        var before := distance;
        match lastLocation {
          case Some(last) => distance := distance + dist(last, fix);
          case None =>
        }
        lastLocation := Some(fix);
        if distance != before {
          DistanceEffect();
        }
      }
    }

    /** `handleToggleCounting`: pausing drops the location subscription and
        keeps every metric; starting resets the active mode's metric and
        leaves the other mode's state alone. */
    method Toggle()
      requires Valid()
      modifies this
      ensures Valid()
      ensures isCounting == !old(isCounting) && !watching
      ensures old(isCounting) ==> StepState() == old(StepState()) && Odo() == old(Odo())
      ensures !old(isCounting) && isCycling ==> Odo() == Odometer.Reset && StepState() == old(StepState())
      ensures !old(isCounting) && !isCycling ==> StepState() == StepDetector.Initial && Odo() == old(Odo())
      ensures showModal == (old(showModal) || (!old(isCounting)
                              && (if isCycling then old(distance) != 0.0 else old(steps) != 0)
                              && Progress.Reached(0.0, mode.goal)))
    {
      if isCounting {
        watching := false;
      } else if isCycling {
        var changed := distance != 0.0;
        distance, lastLocation := 0.0, None;
        if changed {
          DistanceEffect();
        }
      } else {
        var changed := steps != 0;
        steps, lastStepTime := 0, 0;
        if changed {
          StepsEffect();
        }
      }
      isCounting := !isCounting;
    }

    /** Closing the congratulations modal. */
    method CloseModal()
      modifies this`showModal
      ensures !showModal
    {
      showModal := false;
    }
  }

  /** Walking with goal 5: z alternating 0.2 and 1.5 at 500 ms spacing from
      time 0. Every sample of 1.5 is more than 400 ms after the previous step,
      so ten samples give five steps and the goal is reached by the tenth
      sample, not before. */
  lemma WalkScenario()
    ensures var trace := seq(10, i requires 0 <= i => Timed(Sample(0.0, 0.0, if i % 2 == 0 then 0.2 else 1.5), 500 * i));
      && StepDetector.Run(StepPolicy("Andar"), StepDetector.Initial, trace) == StepDetector.StepState(5, 4500)
      && Progress.Reached(StepDetector.Run(StepPolicy("Andar"), StepDetector.Initial, trace).steps as real, 5.0)
      && !Progress.Reached(StepDetector.Run(StepPolicy("Andar"), StepDetector.Initial, trace[..9]).steps as real, 5.0)
  {
    var p := StepPolicy("Andar");
    var trace := seq(10, i requires 0 <= i => Timed(Sample(0.0, 0.0, if i % 2 == 0 then 0.2 else 1.5), 500 * i));
    // Replay the trace one sample at a time: after k samples there have been
    // k / 2 steps, the latest at the last odd index below k.
    var st, k := StepDetector.Initial, 0;
    while k < 10
      invariant 0 <= k <= 10
      invariant st == StepDetector.StepState(k / 2, if k < 2 then 0 else 500 * (k - 1 - k % 2))
      invariant StepDetector.Run(p, StepDetector.Initial, trace) == StepDetector.Run(p, st, trace[k..])
      invariant k <= 9 ==> StepDetector.Run(p, StepDetector.Initial, trace[..9]) == StepDetector.Run(p, st, trace[..9][k..])
      invariant k > 9 ==> StepDetector.Run(p, StepDetector.Initial, trace[..9]) == StepDetector.StepState(4, 3500)
    {
      assert k < 9 ==> trace[..9][k..][0] == trace[k] && trace[..9][k..][1..] == trace[..9][k + 1..];
      st, k := StepDetector.Detect(p, st, trace[k]), k + 1;
    }
  }

  /** The goal modal is not a one-shot notification: after it is closed, the
      next accepted step at or above the goal shows it again. */
  method ModalReopensAfterClose(dist: DistFn, s: Sample, t1: int, t2: int) returns (shownAgain: bool)
    requires Abs(s.z) > 1.0 && t1 > 400 && t2 - t1 > 400
    ensures shownAgain
  {
    var screen := new Screen(Mode("Andar", 1.0), dist);
    screen.Toggle();
    var first := screen.OnAccelerometer(s, t1);
    screen.CloseModal();
    var second := screen.OnAccelerometer(s, t2);
    shownAgain := screen.showModal;
  }
}
