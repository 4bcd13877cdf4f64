# Activity tracking core of the monitoring app

This project models the logic inside the activity screens of a React Native fitness app. In walking and running modes the screen counts steps from accelerometer samples. It uses a threshold-and-debounce rule. In cycling mode it adds up GPS distance between consecutive fixes. A start/pause button controls counting. When the count reaches the mode's goal, a congratulations modal opens. A progress bar shows `metric / goal` with a label.

The repository holds three revisions of this logic, and each is modelled separately:

- `screens/ActivityScreen.js`: one screen that holds both pipelines. It is module `ActivityScreen`, class `ActivityScreen.Screen`.
- `screens/ActivityScreen/index.js`: a parent screen (`ActivityScreenIndex.Screen`) with two logical children. They are `WalkRunActivity.WalkRun` (`WalkRunActivity.js`) and `CyclingActivity.Cycling` (`CyclingActivity.js`).
- `App.js`: the earliest version. Its step rule has a cross-axis gate. It is module `App`, class `App.ActivityScreen`.

Shared value modules:

- `Types`: samples, fixes, modes, and the distance function type.
- `StepDetector`: the step rule (`Accepts`, `Detect`), its run over a trace of samples (`Run`), and the accepted sample times (`AcceptedTimes`).
- `Odometer`: one fix (`Fix`), a run over fixes (`Track`), and the reference sum `PathLength`.
- `Progress`: the goal test, the JavaScript division result `Ratio`, labels, child-to-parent notices, and the steps-to-km and steps-to-kcal estimates.

Modelling choices:

- Each sensor callback, button press and React effect is one atomic method on the screen's state.
- The clock reading (`Date.now()`) is a parameter `now` in milliseconds.
- The location permission answer is a boolean parameter, `granted`.
- The haversine distance is a parameter `dist: (Location, Location) -> real`. Nothing is assumed about it.
- Accelerations, thresholds, distances and goals are exact reals.
- React runs an effect on `[steps]` or `[distance]` after mount and after every change of that value. The model calls the matching effect method at exactly those points: in the constructor, and when a transition changed the value.
- In the split screen, a child's effect returns a `Progress.Notice`. It holds the value given to `onStepsChange`/`onDistanceChange`, and says whether `onGoalReached` is called. The parent applies it.

What the code does, as modelled. A natural reading of the feature would call for a goal notification that fires once, when the goal is first reached, and a step counter that resets on every start. The code does neither in every revision, and the model follows the code:

- No goal notification is edge-triggered. Each revision shows the modal, or calls `onGoalReached`, on every change of the metric while `metric >= goal`. After the modal is closed, the next step opens it again (`ActivityScreen.ModalReopensAfterClose`, `WalkRunActivity.GoalCallbackRepeats`).
- In the split screen, a start clears only the parent's displayed `steps`. `WalkRunActivity` never resets its own counter, so the next reported count continues the old one (`ActivityScreenIndex.RestartContinuesChildCount`: shows 0 after the restart, then 2).
- In `App.js`, the toggle never resets. Steps never decrease over the whole session.
- An unknown mode name gets (1.0, 300 ms) in `ActivityScreen.js` but (1.0, 400 ms) in `index.js` (`ActivityScreenIndex.UnknownModesDiffer`).

## Model

| member | source | states |
|---|---|---|
| `ActivityScreen.StepPolicy` | screens/ActivityScreen.js:42-50 | the rule this revision applies: no cross-axis gate; (1.0, 400) for 'Andar', (1.3, 250) for 'Correr', (1.0, 300) for any other name |
| `ActivityScreen.Metric` | screens/ActivityScreen.js:226-236 | the metric compared with the goal: the distance when cycling, otherwise the step count (never negative) |
| `ActivityScreen.ConfigFor` | screens/ActivityScreen.js:42-50 | 'Andar' gives (1.0, 400), 'Correr' gives (1.3, 250), any other name the fallback (1.0, 300) |
| `ActivityScreen.ProgressValue` | screens/ActivityScreen.js:223-232 | finite iff goal != 0; value times goal is the active metric (distance when cycling, else steps); with a positive goal the bar is full iff the goal is reached |
| `ActivityScreen.ProgressLabel` | screens/ActivityScreen.js:226-236 | the congratulations label iff the active metric is at or above the goal, otherwise the distance (cycling) or the step count |
| `ActivityScreen.Screen.constructor` | screens/ActivityScreen.js:26-57 | mount state: not counting, no subscription, steps, lastStepTime, distance zero, no last location; the goal effects run once, so the modal shows iff 0 >= goal |
| `ActivityScreen.Screen.StepsEffect` | screens/ActivityScreen.js:177-181 | modal becomes visible when not cycling and steps >= goal, otherwise unchanged |
| `ActivityScreen.Screen.DistanceEffect` | screens/ActivityScreen.js:183-187 | modal becomes visible when cycling and distance >= goal, otherwise unchanged |
| `ActivityScreen.Screen.OnAccelerometer` | screens/ActivityScreen.js:87-115 | a sample is considered only when not cycling and counting; accepted iff the strict rule holds, with x and y ignored; an accepted step adds exactly 1 and records the time; a rejected one changes nothing; equals StepDetector.Detect; the modal opens when the new count reaches the goal; distance state untouched |
| `ActivityScreen.Screen.StartLocationUpdates` | screens/ActivityScreen.js:124-162 | a subscription is held afterwards iff one was held, or the screen is cycling, counting and permission was granted |
| `ActivityScreen.Screen.OnLocation` | screens/ActivityScreen.js:139-154 | only while subscribed; with no previous fix the distance is unchanged, otherwise it grows by dist(last, cur); lastLocation becomes cur; equals Odometer.Fix; the modal opens when a changed distance is at or above the goal; step state untouched |
| `ActivityScreen.Screen.Toggle` | screens/ActivityScreen.js:192-212 | flips isCounting and drops the subscription; pausing keeps steps, lastStepTime, distance and lastLocation; starting resets distance and lastLocation (cycling) or steps and lastStepTime (walk/run) and leaves the other mode's state alone |
| `ActivityScreen.Screen.CloseModal` | screens/ActivityScreen.js:328-331 | the modal is hidden |
| `ActivityScreen.WalkScenario` | screens/ActivityScreen.js:95-100 | 'Andar' tuning, z alternating 0.2/1.5 at 500 ms spacing: ten samples give 5 steps (last at 4500 ms), which reaches goal 5, while the first nine samples give a count below 5 |
| `ActivityScreen.ModalReopensAfterClose` | screens/ActivityScreen.js:177-181 | goal 1: after the modal is closed, the next accepted step shows it again (not one-shot) |
| `StepDetector.Accepts` | screens/ActivityScreen.js:95-98 | an accepted sample has abs(z) strictly above the threshold and comes strictly more than minInterval after the last step; a sample exactly at either bound is rejected; without the gate these two conditions are also sufficient |
| `StepDetector.Detect` | screens/ActivityScreen.js:95-100 | the count grows by exactly 1 iff the sample is accepted, and the last step time becomes the sample's time; otherwise the state is unchanged |
| `StepDetector.Run` | screens/ActivityScreen.js:87-115 | over a trace of samples the count never decreases and grows by at most one per sample; if it did not grow, the state is unchanged |
| `StepDetector.RunCountsAcceptedSamples` | screens/ActivityScreen.js:95-100 | over any trace, the final count is the initial count plus the number of accepted samples, and lastStepTime is the last accepted time, or unchanged when none was accepted |
| `StepDetector.AcceptedTimesSpaced` | screens/ActivityScreen.js:97 | the first accepted sample is more than minInterval after the previous step, and any two consecutive accepted samples are more than minInterval apart |
| `StepDetector.AcceptedTimesAtMostSamples` | screens/ActivityScreen.js:95-99 | at most one step per sample |
| `StepDetector.AcceptedSamplesExceedThreshold` | screens/ActivityScreen.js:96 | every accepted time is the time of a sample whose abs(z) is strictly above the threshold |
| `StepDetector.UngatedIgnoresCrossAxes` | screens/ActivityScreen.js:93-98 | without the gate, changing x and y never changes the decision |
| `StepDetector.GateIsStricter` | App.js:101-107 | the gated rule accepts only samples the ungated rule with the same constants accepts |
| `Odometer.Fix` | screens/ActivityScreen.js:139-154 | the fix becomes the last location; with no previous fix the distance is unchanged, otherwise it grows by dist(last, cur) |
| `Odometer.Track` | screens/ActivityScreen/CyclingActivity.js:58-70 | after a sequence of fixes the last location is the last fix (unchanged state for no fixes), and a single fix after a reset adds nothing |
| `Odometer.PathLengthExtend` | screens/ActivityScreen/CyclingActivity.js:58-61 | extending the path by one fix adds the leg from the previous last fix |
| `Odometer.TrackFromResetIsPathLength` | screens/ActivityScreen/CyclingActivity.js:58-70 | after a reset, the accumulated distance over fixes f0..fn is the sum of dist(f(i-1), fi), and lastLocation is the last fix |
| `Odometer.FirstFixOnlyRecords` | screens/ActivityScreen/CyclingActivity.js:60-69 | with no previous fix, a fix adds nothing and is recorded |
| `Odometer.TrackNonDecreasing` | screens/ActivityScreen/CyclingActivity.js:67 | if no leg is negative, the distance never decreases over any fixes |
| `Progress.Reached` | screens/ActivityScreen.js:178 | the goal test is non-strict: a metric exactly at the goal counts as reached, one below it does not |
| `Progress.Quotient` | screens/ActivityScreen/index.js:53-59 | JavaScript division: finite iff the divisor is non-zero, and then value times divisor is the dividend; by zero: Infinity, -Infinity or NaN by the dividend's sign |
| `Progress.FullIffReached` | screens/ActivityScreen/index.js:53-63 | with a positive goal the ratio is finite, and it is at least 1 iff metric >= goal |
| `Progress.WalkingDistanceKm` | App.js:125 | steps * 0.8 / 1000 as an exact real: 1250 steps per km, never negative |
| `Progress.Calories` | App.js:126 | steps * 0.04 as an exact real: 25 steps per kcal, never negative |
| `WalkRunActivity.StepsNotice` | screens/ActivityScreen/WalkRunActivity.js:81-86 | the effect reports the current count, and calls the goal callback iff count >= goal |
| `WalkRunActivity.Notices` | screens/ActivityScreen/WalkRunActivity.js:61-86 | the child sends at most one report per sample, and every report carries a count above the count it started from |
| `WalkRunActivity.NoticesCountUp` | screens/ActivityScreen/WalkRunActivity.js:61-86 | along any counting trace, the parent receives one report per accepted sample, with counts st+1, st+2, … and no gap, each with the goal flag for its own count |
| `WalkRunActivity.GoalCallbackRepeats` | screens/ActivityScreen/WalkRunActivity.js:83-85 | once the count is at the goal, every later report calls the goal callback again |
| `WalkRunActivity.WalkRun.constructor` | screens/ActivityScreen/WalkRunActivity.js:19-29 | initial state steps = 0 and lastStepTime = 0; the tuning comes from the props, with no gate |
| `WalkRunActivity.WalkRun.Report` | screens/ActivityScreen/WalkRunActivity.js:81-86 | reports the current count, with the goal callback iff count >= goal |
| `WalkRunActivity.WalkRun.SetCounting` | screens/ActivityScreen/WalkRunActivity.js:88-89 | only the isCounting prop changes; by the frame, steps and lastStepTime are never reset, even on a new start |
| `WalkRunActivity.WalkRun.OnSample` | screens/ActivityScreen/WalkRunActivity.js:54-68 | samples count only while isCounting; accepted iff abs(z) > threshold and now - lastStepTime > minInterval; an accepted step sets steps+1 and the time and returns the report; otherwise nothing changes and nothing is reported |
| `CyclingActivity.DistanceNotice` | screens/ActivityScreen/CyclingActivity.js:97-102 | the effect reports the distance, and calls the goal callback iff distance >= goal |
| `CyclingActivity.NoticeOnChange` | screens/ActivityScreen/CyclingActivity.js:97-102 | a report follows a transition iff the distance value changed, and it carries the new distance |
| `CyclingActivity.Cycling.constructor` | screens/ActivityScreen/CyclingActivity.js:37-39 | mount state: zero distance, no last location, no subscription, not counting |
| `CyclingActivity.Cycling.Report` | screens/ActivityScreen/CyclingActivity.js:97-102 | reports the distance, with the goal callback iff distance >= goal |
| `CyclingActivity.Cycling.SetCounting` | screens/ActivityScreen/CyclingActivity.js:75-86 | when counting turns on, distance resets to 0 and lastLocation to none; when it turns off, the subscription is dropped and the distance kept; a report follows iff the distance changed |
| `CyclingActivity.Cycling.StartLocationUpdates` | screens/ActivityScreen/CyclingActivity.js:45-50 | a subscription is made iff counting and permission granted; otherwise nothing changes |
| `CyclingActivity.Cycling.OnLocation` | screens/ActivityScreen/CyclingActivity.js:58-70 | only while subscribed; the first fix only records its position, each later fix adds dist(last, cur) and records cur; equals Odometer.Fix; a report follows iff the distance changed |
| `CyclingActivity.DeniedPermissionAccumulatesNothing` | screens/ActivityScreen/CyclingActivity.js:46-50 | start with permission denied, then two fixes: the distance stays 0 and nothing is reported |
| `CyclingActivity.GrantedPermissionAddsLeg` | screens/ActivityScreen/CyclingActivity.js:52-70 | start with permission granted, then fixes f1 and f2: the distance is dist(f1, f2) |
| `ActivityScreenIndex.IndexPolicy` | screens/ActivityScreen/index.js:172-173 | threshold 1.3 and interval 250 for 'Correr'; 1.0 and 400 for every other name; no gate |
| `ActivityScreenIndex.KnownModesAgree` | screens/ActivityScreen/index.js:172-173 | for 'Andar' and 'Correr' the split screen's tuning equals the single-file screen's |
| `ActivityScreenIndex.UnknownModesDiffer` | screens/ActivityScreen/index.js:172-173 | for any other name the split screen gives (1.0, 400) and the single-file screen (1.0, 300), which differ |
| `ActivityScreenIndex.ProgressValue` | screens/ActivityScreen/index.js:50-59 | the same ratio as the single-file screen; with a positive goal, full iff the goal is reached |
| `ActivityScreenIndex.ProgressText` | screens/ActivityScreen/index.js:51-64 | the congratulations text iff metric >= goal, otherwise "Distância: d / g km" (cycling) or "Passos: s / g" |
| `ActivityScreenIndex.Screen.constructor` | screens/ActivityScreen/index.js:10-22 | cycling iff the name is 'Ciclismo', and exactly the matching child is mounted; both display metrics 0, not counting; the child's mount report opens the modal iff 0 >= goal |
| `ActivityScreenIndex.Screen.HandleGoalReached` | screens/ActivityScreen/index.js:25-27 | only sets showModal to true, so it is idempotent |
| `ActivityScreenIndex.Screen.OnStepsChange` | screens/ActivityScreen/index.js:175 | the displayed steps become the reported value |
| `ActivityScreenIndex.Screen.OnDistanceChange` | screens/ActivityScreen/index.js:183 | the displayed distance becomes the reported value |
| `ActivityScreenIndex.Screen.Toggle` | screens/ActivityScreen/index.js:30-43 | flips isCounting; the active displayed metric resets to 0 only when counting was off; pausing keeps both; the walk/run child's counter is untouched; the cycling child resets on a start and drops its subscription on a pause |
| `ActivityScreenIndex.Screen.OnAccelerometer` | screens/ActivityScreen/index.js:168-178 | an accepted step in the child (counting, split-screen tuning) makes the displayed steps the child's old count plus one; the modal opens when that count is at or above the goal |
| `ActivityScreenIndex.Screen.StartLocationUpdates` | screens/ActivityScreen/index.js:179-185 | the permission answer reaches only the cycling child, which subscribes iff counting and granted; its distance and last location stay the same |
| `ActivityScreenIndex.Screen.OnLocation` | screens/ActivityScreen/index.js:179-185 | a fix reaches the cycling child and equals Odometer.Fix there while subscribed; the subscription is kept; a changed child distance becomes the displayed distance and opens the modal when at or above the goal |
| `ActivityScreenIndex.Screen.CloseModal` | screens/ActivityScreen/index.js:151-154 | the modal is hidden |
| `ActivityScreenIndex.RestartContinuesChildCount` | screens/ActivityScreen/index.js:30-36 | walking: start, a step, pause, start: the screen shows 0, and after the next step it shows 2, not 1 |
| `ActivityScreenIndex.SplitScreenGrantedAddsLeg` | screens/ActivityScreen/index.js:179-185 | cycling through the parent: start, permission granted, fixes f1 and f2: the displayed distance is dist(f1, f2) |
| `App.ProgressOf` | App.js:152 | steps / goal: finite iff goal != 0; value times goal is steps; with a positive goal it is non-negative and at least 1 iff the goal is reached |
| `App.LabelOf` | App.js:159 | the congratulations text iff steps >= goal, otherwise "Continue caminhando!" |
| `App.GatedRuleIsStricter` | App.js:101-107 | this revision's rule accepts only samples the ungated (1.2, 300) rule accepts |
| `App.ActivityScreen.constructor` | App.js:63-69 | mount state: zero steps and last step time, not counting; the goal effect runs once |
| `App.ActivityScreen.GoalEffect` | App.js:119-123 | the modal becomes visible whenever steps >= goal |
| `App.ActivityScreen.OnAccelerometer` | App.js:94-117 | every sample is stored; a step counts only if counting and abs(z) > 1.2, abs(x) < 1.0, abs(y) < 1.0, now - lastStepTime > 300; an accepted step adds 1 and records the time, otherwise nothing changes; steps never decrease; the modal opens when the new count is at or above the goal |
| `App.ActivityScreen.Toggle` | App.js:163-167 | only isCounting flips; steps and lastStepTime are never reset |
| `App.ActivityScreen.CloseModal` | App.js:182 | the modal is hidden |

## Left out

- The haversine formula (screens/ActivityScreen.js:11-21, screens/ActivityScreen/CyclingActivity.js:17-29) is floating-point trigonometry. The model keeps it as the parameter `dist`. Symmetry, zero self-distance and non-negativity are not claimed. `Odometer.TrackNonDecreasing` takes non-negativity as a hypothesis.
- Floating point: all arithmetic is on exact reals. Rounding in `steps * 0.8 / 1000`, in the accumulated sum and in `metric / goal` is not modelled, and neither is a NaN coming from `dist`.
- `toFixed(2)` and the other string formatting. The labels that embed numbers are datatype values that carry those numbers.
- Audio: loading and playing the step sound. `stepped` marks where the sound is played.
- The subscription and permission platform calls (`Accelerometer.addListener`, `setUpdateInterval(100)`, `watchPositionAsync` with its 1000 ms/0 m options, `requestForegroundPermissionsAsync`, `alert`). They appear only as the boolean `watching` and the parameter `granted`.
- React scheduling. Effects are not re-subscribed when their dependencies change. State updates are not batched asynchronously. Each callback is one atomic transition on the current state.
- Stale closures. In CyclingActivity.js, the location callback captures `lastLocation` from the render that subscribed it, because the effect depends only on `isCounting`. In the running app every fix is measured against that captured value. In ActivityScreen.js, the location effect subscribes again after every `lastLocation` change. Neither is modelled.
- The JavaScript lookup `walkRunConfig[mode.name]` also finds inherited object properties (a mode named "constructor", say). The model only knows the two table keys.
- Rendering, styles, navigation, screens/HomeScreen.js, screens/ModeSelectionScreen.js, navigation/AppNavigator.js and the navigator in App.js. Only the modal's visibility (`showModal`, `CloseModal`) is kept.
- Malformed sensor fields. The code never checks them, so the model has none.
