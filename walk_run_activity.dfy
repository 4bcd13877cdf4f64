/** The walk/run child component of the split screen
    (screens/ActivityScreen/WalkRunActivity.js). It counts steps while its
    `isCounting` prop is on and reports every change of its count to the
    parent. It never resets its own counter. */
module WalkRunActivity {
  import opened Types
  import StepDetector
  import Progress

  /** What the steps effect reports for a count: the count itself, and the
      goal callback whenever the count is at or above the goal. */
  function StepsNotice(steps: nat, goal: real): (n: Progress.Notice<nat>)
    ensures n.value == steps
    ensures n.goalReached <==> Progress.Reached(steps as real, goal)
  {
    Progress.Notice(steps, steps as real >= goal)
  }

  /** The reports the component sends while it sees the samples of `trace`,
      counting throughout: one per accepted sample. */
  function Notices(p: StepDetector.Policy, goal: real, st: StepDetector.StepState, trace: seq<Timed>)
    : (ns: seq<Progress.Notice<nat>>)
    ensures |ns| <= |trace|
    ensures forall n :: n in ns ==> n.value > st.steps
    decreases |trace|
  {
    if trace == [] then []
    else
      var next := StepDetector.Detect(p, st, trace[0]);
      (if next.steps != st.steps then [StepsNotice(next.steps, goal)] else [])
      + Notices(p, goal, next, trace[1..])
  }

  /** Along a trace the parent receives the counts st+1, st+2, ... with no
      gap, one per accepted sample, and the goal callback accompanies EVERY
      report at or above the goal, not only the first. */
  lemma {:induction false} NoticesCountUp(p: StepDetector.Policy, goal: real, st: StepDetector.StepState, trace: seq<Timed>)
    ensures var ns := Notices(p, goal, st, trace);
      && |ns| == StepDetector.Run(p, st, trace).steps - st.steps
      && forall i :: 0 <= i < |ns| ==> ns[i] == StepsNotice(st.steps + i + 1, goal)
    decreases |trace|
  {
    if trace != [] {
      var next := StepDetector.Detect(p, st, trace[0]);
      NoticesCountUp(p, goal, next, trace[1..]);
      StepDetector.RunCountsAcceptedSamples(p, next, trace[1..]);
    }
  }

  /** Once the count is at the goal, every further accepted step calls the
      goal callback again. */
  lemma GoalCallbackRepeats(p: StepDetector.Policy, goal: real, st: StepDetector.StepState, trace: seq<Timed>)
    requires Progress.Reached(st.steps as real, goal)
    ensures forall n :: n in Notices(p, goal, st, trace) ==> n.goalReached
  {
    NoticesCountUp(p, goal, st, trace);
  }

  /** The component's state. Its props are the goal, the tuning and
      `isCounting`; its own state is the step count and the last step time. */
  class WalkRun {
    const goal: real
    const policy: StepDetector.Policy
    var isCounting: bool
    var steps: nat
    var lastStepTime: int

    function StepState(): StepDetector.StepState
      reads this
    {
      StepDetector.StepState(steps, lastStepTime)
    }

    /** Mounting: both counters start at zero. */
    constructor (goal: real, threshold: real, minInterval: int, isCounting: bool)
      ensures this.goal == goal && policy == StepDetector.Policy(threshold, minInterval, false)
      ensures this.isCounting == isCounting
      ensures StepState() == StepDetector.Initial
    {
      this.goal := goal;
      policy := StepDetector.Policy(threshold, minInterval, false);
      this.isCounting := isCounting;
      steps, lastStepTime := 0, 0;
    }

    /** The steps effect: it runs after mount and after every change of the
        count. */
    method Report() returns (n: Progress.Notice<nat>)
      ensures n.value == steps
      ensures n.goalReached <==> Progress.Reached(steps as real, goal)
    {
      n := StepsNotice(steps, goal);
    }

    /** A new `isCounting` prop from the parent. No counter is touched: a new
        start continues the old count. */
    method SetCounting(counting: bool)
      modifies this`isCounting
      ensures isCounting == counting
    {
      isCounting := counting;
    }

    /** The accelerometer listener, subscribed only while counting. When a
        step is accepted the count grows by exactly one, the step time is
        recorded, and the steps effect reports to the parent. */
    method OnSample(s: Sample, now: int) returns (n: Option<Progress.Notice<nat>>)
      modifies this`steps, this`lastStepTime
      ensures n.Some? <==> isCounting && StepDetector.Accepts(policy, old(lastStepTime), Timed(s, now))
      ensures StepState() == if n.Some? then StepDetector.StepState(old(steps) + 1, now) else old(StepState())
      ensures StepState() == if isCounting then StepDetector.Detect(policy, old(StepState()), Timed(s, now))
                             else old(StepState())
      ensures n.Some? ==> n.value == StepsNotice(steps, goal)
    {
      n := None;
      if isCounting && StepDetector.Accepts(policy, lastStepTime, Timed(s, now)) {
        steps, lastStepTime := steps + 1, now;
        var report := Report();
        n := Some(report);
      }
    }
  }
}
