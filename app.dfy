/** The earliest revision: the `ActivityScreen` component inside App.js. Its
    accelerometer listener is always subscribed and checks `isCounting`
    itself, its step rule has the cross-axis gate, and its toggle never
    resets anything. */
module App {
  import opened Types
  import StepDetector
  import Progress

  const StepThreshold: real := 1.2
  const MinStepInterval: int := 300

  /** The step rule of this revision: |z| > 1.2, |x| < 1.0, |y| < 1.0 and more
      than 300 ms since the last step. */
  const AppPolicy := StepDetector.Policy(StepThreshold, MinStepInterval, true)

  /** The progress bar value `steps / mode.goal`. */
  function ProgressOf(steps: nat, goal: real): (r: Progress.Ratio)
    ensures r.Finite? <==> goal != 0.0
    ensures r.Finite? ==> r.value * goal == steps as real
    ensures goal > 0.0 ==> 0.0 <= r.value && (r.value >= 1.0 <==> Progress.Reached(steps as real, goal))
  {
    assert goal > 0.0 ==> Progress.Quotient(steps as real, goal).value >= 0.0
                          && (Progress.Quotient(steps as real, goal).value >= 1.0 <==> Progress.Reached(steps as real, goal)) by {
      if goal > 0.0 {
        Progress.FullIffReached(steps as real, goal);
      }
    }
    Progress.Quotient(steps as real, goal)
  }

  /** The text under the bar: the congratulations text exactly when the goal
      is reached, otherwise "Continue caminhando!". */
  function LabelOf(steps: nat, goal: real): (l: Progress.Label)
    ensures l == Progress.Congratulations <==> Progress.Reached(steps as real, goal)
    ensures l != Progress.Congratulations ==> l == Progress.KeepWalking
  {
    if steps as real >= goal then Progress.Congratulations else Progress.KeepWalking
  }

  /** The accelerometer rule of this revision accepts only a subset of what
      the later, ungated rule with the same constants accepts. */
  lemma GatedRuleIsStricter(lastStepTime: int, r: Timed)
    ensures StepDetector.Accepts(AppPolicy, lastStepTime, r)
            ==> StepDetector.Accepts(StepDetector.Policy(StepThreshold, MinStepInterval, false), lastStepTime, r)
  {
    StepDetector.GateIsStricter(AppPolicy, lastStepTime, r);
  }

  /** The screen's state; `data` is the last sample seen. */
  class ActivityScreen {
    const mode: Mode
    var data: Sample
    var steps: nat
    var lastStepTime: int
    var isCounting: bool
    var showModal: bool

    function StepState(): StepDetector.StepState
      reads this
    {
      StepDetector.StepState(steps, lastStepTime)
    }

    /** Mounting: zero steps, not counting; the goal effect runs once. */
    constructor (mode: Mode)
      ensures this.mode == mode && data == Sample(0.0, 0.0, 0.0)
      ensures StepState() == StepDetector.Initial && !isCounting
      ensures showModal == Progress.Reached(0.0, mode.goal)
    {
      this.mode := mode;
      data := Sample(0.0, 0.0, 0.0);
      steps, lastStepTime := 0, 0;
      isCounting, showModal := false, false;
      new;
      GoalEffect();
    }

    /** The effect that runs after `steps` changes. */
    method GoalEffect()
      modifies this`showModal
      ensures showModal == (old(showModal) || Progress.Reached(steps as real, mode.goal))
    {
      if steps as real >= mode.goal {
        showModal := true;
      }
    }

    /** The accelerometer listener. Every sample is recorded in `data`; a step
        is accepted only while counting and when the gated rule holds. The
        count never decreases. */
    method OnAccelerometer(s: Sample, now: int) returns (stepped: bool)
      modifies this
      ensures data == s && isCounting == old(isCounting)
      ensures stepped <==> isCounting && StepDetector.Accepts(AppPolicy, old(lastStepTime), Timed(s, now))
      ensures StepState() == if stepped then StepDetector.StepState(old(steps) + 1, now) else old(StepState())
      ensures StepState() == if isCounting then StepDetector.Detect(AppPolicy, old(StepState()), Timed(s, now))
                             else old(StepState())
      ensures steps >= old(steps)
      ensures showModal == (old(showModal) || (stepped && Progress.Reached(steps as real, mode.goal)))
    {
      data := s;
      stepped := isCounting && StepDetector.Accepts(AppPolicy, lastStepTime, Timed(s, now));
      if stepped {
        steps, lastStepTime := steps + 1, now;
        GoalEffect();
      }
    }

    /** The start/pause button: it only flips `isCounting`; the count and the
        last step time carry over. */
    method Toggle()
      modifies this`isCounting
      ensures isCounting == !old(isCounting)
    {
      isCounting := !isCounting;
    }

    /** Closing the congratulations modal. */
    method CloseModal()
      modifies this`showModal
      ensures !showModal
    {
      showModal := false;
    }
  }
}
