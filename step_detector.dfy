/** The threshold-and-debounce step rule shared by every revision of the
    walk/run screen, and what it does over a stream of samples. */
module StepDetector {
  import opened Types

  /** Tuning of the rule: the |z| threshold, the debounce interval in ms, and
      whether the cross-axis gate |x| < 1.0 and |y| < 1.0 also applies (only
      the revision in App.js has it). */
  datatype Policy = Policy(threshold: real, minInterval: int, crossAxisGate: bool)

  /** The detector's state: the step count and the time of the last step. */
  datatype StepState = StepState(steps: nat, lastStepTime: int)

  /** Both counters start at zero when a screen mounts. */
  const Initial := StepState(0, 0)

  /** The step rule for one sample: both comparisons are strict, so a sample
      exactly at the threshold, or exactly `minInterval` after the last step,
      is rejected. */
  predicate Accepts(p: Policy, lastStepTime: int, r: Timed)
    ensures Accepts(p, lastStepTime, r) ==> Abs(r.sample.z) > p.threshold && r.time - lastStepTime > p.minInterval
    ensures Abs(r.sample.z) == p.threshold ==> !Accepts(p, lastStepTime, r)
    ensures r.time - lastStepTime == p.minInterval ==> !Accepts(p, lastStepTime, r)
    ensures !p.crossAxisGate ==>
              (Accepts(p, lastStepTime, r) <==> Abs(r.sample.z) > p.threshold && r.time - lastStepTime > p.minInterval)
  {
    && Abs(r.sample.z) > p.threshold
    && (p.crossAxisGate ==> Abs(r.sample.x) < 1.0 && Abs(r.sample.y) < 1.0)
    && r.time - lastStepTime > p.minInterval
  }

  /** One listener call on a counting screen. */
  function Detect(p: Policy, st: StepState, r: Timed): (next: StepState)
    ensures next.steps == st.steps + 1 <==> Accepts(p, st.lastStepTime, r)
    ensures next.steps == st.steps + 1 ==> next.lastStepTime == r.time
    ensures next.steps != st.steps + 1 ==> next == st
  {
    if Accepts(p, st.lastStepTime, r) then StepState(st.steps + 1, r.time) else st
  }

  /** The state after the listener has seen every sample of `trace`, in order. */
  function Run(p: Policy, st: StepState, trace: seq<Timed>): (final: StepState)
    ensures st.steps <= final.steps <= st.steps + |trace|
    ensures final.steps == st.steps ==> final == st
    decreases |trace|
  {
    if trace == [] then st else Run(p, Detect(p, st, trace[0]), trace[1..])
  }

  /** The times of the samples the rule accepts along `trace`, when the last
      step before the trace was at `last`. */
  function AcceptedTimes(p: Policy, last: int, trace: seq<Timed>): seq<int>
    decreases |trace|
  {
    if trace == [] then []
    else if Accepts(p, last, trace[0]) then [trace[0].time] + AcceptedTimes(p, trace[0].time, trace[1..])
    else AcceptedTimes(p, last, trace[1..])
  }

  /** At most one step per sample. */
  lemma {:induction false} AcceptedTimesAtMostSamples(p: Policy, last: int, trace: seq<Timed>)
    ensures |AcceptedTimes(p, last, trace)| <= |trace|
    decreases |trace|
  {
    if trace != [] {
      if Accepts(p, last, trace[0]) {
        AcceptedTimesAtMostSamples(p, trace[0].time, trace[1..]);
      } else {
        AcceptedTimesAtMostSamples(p, last, trace[1..]);
      }
    }
  }

  /** The count after a trace is the count before plus the number of accepted
      samples, and `lastStepTime` is the time of the last accepted sample (or
      unchanged when none was accepted). In particular the count never
      decreases. */
  lemma {:induction false} RunCountsAcceptedSamples(p: Policy, st: StepState, trace: seq<Timed>)
    ensures var ts := AcceptedTimes(p, st.lastStepTime, trace);
      Run(p, st, trace) == StepState(st.steps + |ts|, if ts == [] then st.lastStepTime else ts[|ts| - 1])
    decreases |trace|
  {
    if trace != [] {
      RunCountsAcceptedSamples(p, Detect(p, st, trace[0]), trace[1..]);
    }
  }

  /** Debounce: the first accepted sample is more than `minInterval` after the
      previous step, and any two consecutive accepted samples are more than
      `minInterval` apart. */
  lemma {:induction false} AcceptedTimesSpaced(p: Policy, last: int, trace: seq<Timed>)
    ensures var ts := AcceptedTimes(p, last, trace);
      && (|ts| > 0 ==> ts[0] - last > p.minInterval)
      && (forall i :: 0 < i < |ts| ==> ts[i] - ts[i - 1] > p.minInterval)
    decreases |trace|
  {
    if trace != [] {
      if Accepts(p, last, trace[0]) {
        AcceptedTimesSpaced(p, trace[0].time, trace[1..]);
      } else {
        AcceptedTimesSpaced(p, last, trace[1..]);
      }
    }
  }

  /** Every accepted time is the time of a sample of the trace whose |z| is
      above the threshold. */
  lemma {:induction false} AcceptedSamplesExceedThreshold(p: Policy, last: int, trace: seq<Timed>, k: nat)
    requires k < |AcceptedTimes(p, last, trace)|
    ensures exists j :: 0 <= j < |trace| && trace[j].time == AcceptedTimes(p, last, trace)[k]
                        && Abs(trace[j].sample.z) > p.threshold
    decreases |trace|
  {
    var rest := trace[1..];
    if Accepts(p, last, trace[0]) {
      if k == 0 {
        assert trace[0].time == AcceptedTimes(p, last, trace)[0];
      } else {
        AcceptedSamplesExceedThreshold(p, trace[0].time, rest, k - 1);
        var j :| 0 <= j < |rest| && rest[j].time == AcceptedTimes(p, trace[0].time, rest)[k - 1]
                 && Abs(rest[j].sample.z) > p.threshold;
        assert trace[j + 1] == rest[j];
      }
    } else {
      AcceptedSamplesExceedThreshold(p, last, rest, k);
      var j :| 0 <= j < |rest| && rest[j].time == AcceptedTimes(p, last, rest)[k]
               && Abs(rest[j].sample.z) > p.threshold;
      assert trace[j + 1] == rest[j];
    }
  }

  /** Without the gate the x and y components play no part in the rule. */
  lemma UngatedIgnoresCrossAxes(p: Policy, last: int, s: Sample, x: real, y: real, time: int)
    requires !p.crossAxisGate
    ensures Accepts(p, last, Timed(s, time)) == Accepts(p, last, Timed(Sample(x, y, s.z), time))
  {
  }

  /** The gate only ever rejects more samples. */
  lemma GateIsStricter(p: Policy, last: int, r: Timed)
    ensures Accepts(p.(crossAxisGate := true), last, r) ==> Accepts(p.(crossAxisGate := false), last, r)
  {
  }
}
