/** Goal check, progress ratio, progress label and the values derived from a
    step count, shared by the screen revisions. */
module Progress {

  /** The goal test every revision uses: `metric >= goal`, so a metric exactly
      at the goal counts as reached. */
  predicate Reached(metric: real, goal: real)
    ensures metric == goal ==> Reached(metric, goal)
    ensures metric < goal ==> !Reached(metric, goal)
  {
    metric >= goal
  }

  /** The value of a JavaScript division: a finite number, or what dividing by
      zero gives (Infinity, -Infinity, NaN). */
  datatype Ratio = Finite(value: real) | PosInfinity | NegInfinity | NaN

  /** `n / d` on JavaScript numbers (exact reals; rounding is not modelled). */
  function Quotient(n: real, d: real): (r: Ratio)
    ensures r.Finite? <==> d != 0.0
    ensures r.Finite? ==> r.value * d == n
    ensures d == 0.0 ==> (r == PosInfinity <==> n > 0.0) && (r == NegInfinity <==> n < 0.0) && (r == NaN <==> n == 0.0)
  {
    if d != 0.0 then Finite(n / d)
    else if n > 0.0 then PosInfinity
    else if n < 0.0 then NegInfinity
    else NaN
  }

  /** With a positive goal the progress bar is full exactly when the goal is
      reached, and it is never negative for a non-negative metric. */
  lemma FullIffReached(metric: real, goal: real)
    requires goal > 0.0
    ensures Quotient(metric, goal).Finite?
    ensures Quotient(metric, goal).value >= 1.0 <==> Reached(metric, goal)
    ensures metric >= 0.0 ==> Quotient(metric, goal).value >= 0.0
  {
  }

  /** The progress texts the revisions show. `Congratulations` is
      "Parabéns! Meta alcançada! 🎉", `KeepWalking` is "Continue caminhando!";
      the others embed the numbers (their string formatting is not modelled). */
  datatype Label =
    | Congratulations
    | Steps(steps: nat)                       // "Passos: s"
    | Distance(km: real)                      // "Distância: d km"
    | StepsOfGoal(steps: nat, goal: real)     // "Passos: s / g"
    | DistanceOfGoal(km: real, goal: real)    // "Distância: d / g km"
    | KeepWalking

  /** What a child component's metric effect passes to its parent: the value
      handed to `onStepsChange`/`onDistanceChange`, and whether
      `onGoalReached` is called as well. */
  datatype Notice<T> = Notice(value: T, goalReached: bool)

  /** The walk/run distance estimate in km: 0.8 m per step, so 1250 steps per km. */
  function WalkingDistanceKm(steps: nat): (km: real)
    ensures km * 1250.0 == steps as real
    ensures km >= 0.0
  {
    steps as real * 0.8 / 1000.0
  }

  /** The calorie estimate: 0.04 kcal per step, so 25 steps per kcal. */
  function Calories(steps: nat): (kcal: real)
    ensures kcal * 25.0 == steps as real
    ensures kcal >= 0.0
  {
    steps as real * 0.04
  }
}
