# Light-barrier contamination monitor: the state engine and its banding

This project models the simulation and state engine of a contamination-monitoring
dashboard. The engine is the `useSimulatedData` hook. It holds one state value:

- whether the light barrier is armed,
- the contamination level,
- an alert list, appended at the end and never truncated,
- an event log, newest first and capped at 100 entries.

Four transitions act on that state:

- a simulation tick, which does nothing while the barrier is off;
- toggling the barrier;
- dismissing one alert;
- clearing all alerts.

The project also models the threshold banding of the contamination panel. The panel
classifies the level against three ascending thresholds. The model states how those
bands relate to the severities the hook assigns.

Modules:

- `UseSimulatedData` (`use_simulated_data.dfy`) holds the following:
  - the data model;
  - the threshold constants (25, 50 and 75 percent);
  - the transitions, as functions on the state value;
  - their properties, as lemmas;
  - the class `SimulatedDataHook`. It holds the mutable cell, and its methods replace
    `data` with the transition's result. The tick method is written step by step, as
    the source's updater is.
- `ContaminationPanel` (`contamination_panel.dfy`) holds the four classifiers, the pulse
  condition and the gauge width. All of them are over real percentages.
- `Dashboard` (`dashboard.dfy`) takes the hook's level to the panel's percent, using
  the hook's thresholds as the dashboard does. It relates the two bandings.

Representation choices:

- The contamination level is exact. It is an `int` counting tenths of a percent, so
  125 stands for 12.5%. Every level is therefore a multiple of 0.1 by construction.
- The tick clamps `old/10 + delta` to [0, 100] in real arithmetic. It then rounds
  `x * 10` as `Math.round` does, written `Floor(x + 0.5)`.
- The random delta is a `real` parameter. `ValidDelta` states the source's range
  [-2, 6), and the class's tick method requires it.
- Each `Date.now()` id is a parameter. The tick calls the clock twice, so it takes
  `eventId` for the contamination event and `alertId` for the alert.
- The timestamps from `new Date()` are one `time` parameter per transition.
- Message strings are the small datatype `Message`.

Facts about the source that the model reflects:

- The delta range is half-open, [-2, 6), because `Math.random()` lies in [0, 1)
  (useSimulatedData.ts:98).
- No operation truncates the alert list. Only dismissal and clearing remove alerts.
- The contamination message's "decreased" branch is dead code for a delta in that
  range, because |delta| > 3 forces delta > 3 > 0. `TickContaminationEvent` proves
  this.

## Model

| member | source | states |
|---|---|---|
| UseSimulatedData.Initial | project/src/hooks/useSimulatedData.ts:34-47 | the initial state is armed, has level 12.5%, no alerts and one `system` event with id 1 |
| UseSimulatedData.InitialInvariant | project/src/hooks/useSimulatedData.ts:34-47 | the initial state satisfies the reachable-state invariant |
| UseSimulatedData.Cap | project/src/hooks/useSimulatedData.ts:66 | `slice(0, 100)` keeps the first min(n, 100) entries, in order |
| UseSimulatedData.Prepend | project/src/hooks/useSimulatedData.ts:119 | prepend-then-slice puts the new event at index 0, keeps the older log as the rest, and yields between 1 and 100 entries |
| UseSimulatedData.CapAbsorbs | project/src/hooks/useSimulatedData.ts:147 | capping an already-capped log after prepending equals one cap of the whole sequence |
| UseSimulatedData.CapChain | project/src/hooks/useSimulatedData.ts:167 | two rounds of prepend-and-cap equal one round with both batches, newest first |
| UseSimulatedData.RoundHalfUp | project/src/hooks/useSimulatedData.ts:102 | the result is the nearest integer, with halves rounded up |
| UseSimulatedData.NextLevel | project/src/hooks/useSimulatedData.ts:98-102 | the new level lies in [0, 100]; when old + delta is within [0, 100] the new level is within 0.05% of it; below 0 it is 0 and above 100 it is 100 |
| UseSimulatedData.Crossing | project/src/hooks/useSimulatedData.ts:122-168 | an alert is raised only on a rise and never at `info` severity; a critical alert implies the new level is at or above 75%; a warning alert implies it is in [50, 75) |
| UseSimulatedData.EdgeTriggeredExample | project/src/hooks/useSimulatedData.ts:129-149 | levels 10→60→80→40→90 give a warning, a critical alert, nothing, then a critical alert |
| UseSimulatedData.SeverityAt | project/src/hooks/useSimulatedData.ts:115-117 | a contamination event is `critical` exactly at or above 75%, and `info` exactly below 50%, so it is `warning` in [50, 75); `Dashboard.BandsMatchSeverity` relates it to the panel |
| UseSimulatedData.ContaminationLogEvent | project/src/hooks/useSimulatedData.ts:110-118 | no contract of its own; `TickContaminationEvent` states its type, message, id, time and severity as the tick logs it |
| UseSimulatedData.RaisedAlert | project/src/hooks/useSimulatedData.ts:131-138 | no contract of its own; `TickAlerts` states the critical and warning alerts it builds (id, message with the threshold, level, time) |
| UseSimulatedData.AlertLogEvent | project/src/hooks/useSimulatedData.ts:140-146 | no contract of its own; `TickAlertEvent` states that the event copies the alert's message, severity and time, with id = alert id + 1 |
| UseSimulatedData.Tick | project/src/hooks/useSimulatedData.ts:89-177 | the flag is kept; an armed tick leaves the level in [0, 100]; the old alerts stay a prefix and at most one is added; a log of at most 100 stays at most 100 and a non-empty log stays non-empty; the tick lemmas below state the rest |
| UseSimulatedData.Toggle | project/src/hooks/useSimulatedData.ts:50-68 | the flag flips; level and alerts are kept; the log has 1 to 100 entries and starts with a `status_change` event; `ToggleEffect` states the event in full |
| UseSimulatedData.Dismiss | project/src/hooks/useSimulatedData.ts:72-77 | flag, level and events are kept and no remaining alert carries the id; `DismissEffect` and `RemoveIdConcat` state which alerts remain and in what order |
| UseSimulatedData.ClearAll | project/src/hooks/useSimulatedData.ts:80-85 | no contract of its own; `ClearAllEffect` states that the alerts become empty and nothing else changes |
| UseSimulatedData.RemoveId | project/src/hooks/useSimulatedData.ts:75 | the filter keeps exactly the alerts whose id differs and never grows the list; an absent id leaves it unchanged |
| UseSimulatedData.TickGated | project/src/hooks/useSimulatedData.ts:91-94 | a tick with the barrier off returns the state unchanged |
| UseSimulatedData.TickLevel | project/src/hooks/useSimulatedData.ts:96-102 | an armed tick keeps the flag and leaves the level clamped to [0, 100] and rounded |
| UseSimulatedData.TickAlerts | project/src/hooks/useSimulatedData.ts:122-168 | critical exactly on an upward crossing of 75%; otherwise warning exactly on an upward crossing of 50%; at most one alert, appended; old alerts kept as a prefix; a falling level raises none |
| UseSimulatedData.TickEvents | project/src/hooks/useSimulatedData.ts:105-167 | an armed tick prepends at most two events, to a log of at most 100, and caps the result |
| UseSimulatedData.TickAlertEvent | project/src/hooks/useSimulatedData.ts:129-167 | a raised alert comes with exactly one `alert` event at the head of the log: same message, severity and time (one `time` per transition, see Left out), id = alert id + 1; any other new event is a `contamination` event |
| UseSimulatedData.TickContaminationEvent | project/src/hooks/useSimulatedData.ts:108-120 | a `contamination` event is logged exactly when abs(delta) > 3; its severity is critical at ≥75%, warning at ≥50%, info below; for a delta in [-2, 6) it says "increased" |
| UseSimulatedData.ToggleEffect | project/src/hooks/useSimulatedData.ts:50-68 | toggling flips the flag and prepends one `info` `status_change` event naming the new state; level and alerts are unchanged |
| UseSimulatedData.ToggleTwice | project/src/hooks/useSimulatedData.ts:50-68 | two toggles restore the flag, the level and the alerts |
| UseSimulatedData.RemoveIdConcat | project/src/hooks/useSimulatedData.ts:75 | the filter distributes over concatenation, so the kept alerts stay in their order |
| UseSimulatedData.RemoveIdIdempotent | project/src/hooks/useSimulatedData.ts:75 | filtering twice by the same id is filtering once |
| UseSimulatedData.DismissEffect | project/src/hooks/useSimulatedData.ts:72-77 | dismissal removes exactly the alerts with that id, leaves them unchanged for an absent id, is idempotent, and touches nothing else |
| UseSimulatedData.ClearAllEffect | project/src/hooks/useSimulatedData.ts:80-85 | clearing empties the alerts and leaves flag, level and events unchanged |
| UseSimulatedData.StepEvents | project/src/hooks/useSimulatedData.ts:50-176 | every operation prepends at most two events to a log of at most 100 and then caps it |
| UseSimulatedData.StepInvariant | project/src/hooks/useSimulatedData.ts:50-176 | every operation keeps the level in [0, 100] and the log between 1 and 100 entries |
| UseSimulatedData.RunInvariant | project/src/hooks/useSimulatedData.ts:50-176 | any sequence of operations keeps the invariant |
| UseSimulatedData.ReachableInvariant | project/src/hooks/useSimulatedData.ts:34-176 | every state reachable from the initial one has level in [0, 100] and 1 to 100 events |
| UseSimulatedData.RunKeepsNewest | project/src/hooks/useSimulatedData.ts:66 | after any run, the log is exactly the newest ≤100 of all events ever logged, newest first |
| UseSimulatedData.GatedTicks | project/src/hooks/useSimulatedData.ts:91-94 | any number of ticks with the barrier off leaves the state unchanged |
| UseSimulatedData.SimulatedDataHook.constructor | project/src/hooks/useSimulatedData.ts:34-47 | the hook starts in the initial state, satisfying the invariant |
| UseSimulatedData.SimulatedDataHook.ToggleLightBarrier | project/src/hooks/useSimulatedData.ts:50-69 | the new state is the toggle of the old one, and the invariant is kept |
| UseSimulatedData.SimulatedDataHook.DismissAlert | project/src/hooks/useSimulatedData.ts:72-77 | the new state is the dismissal of the old one, and the invariant is kept |
| UseSimulatedData.SimulatedDataHook.ClearAllAlerts | project/src/hooks/useSimulatedData.ts:80-85 | the new state is the old one with no alerts, and the invariant is kept |
| UseSimulatedData.SimulatedDataHook.SimulateDataChanges | project/src/hooks/useSimulatedData.ts:89-177 | the step-by-step updater computes exactly the tick transition and keeps the invariant |
| ContaminationPanel.GetStatusColor | project/src/components/ContaminationPanel.tsx:17-22 | with ascending thresholds, the colour's rank is the number of thresholds the level has reached |
| ContaminationPanel.GetStatusText | project/src/components/ContaminationPanel.tsx:24-29 | with ascending thresholds, the text's rank is the number of thresholds the level has reached |
| ContaminationPanel.GetGaugeColor | project/src/components/ContaminationPanel.tsx:31-41 | with ascending thresholds, the gradient's rank is the number of thresholds the level has reached |
| ContaminationPanel.GetStatusIcon | project/src/components/ContaminationPanel.tsx:43-48 | with ascending thresholds, the icon's rank is the number of thresholds the level has reached |
| ContaminationPanel.ClassifiersAgree | project/src/components/ContaminationPanel.tsx:17-48 | for every level and every set of thresholds, the four classifiers select the same band |
| ContaminationPanel.BandMonotone | project/src/components/ContaminationPanel.tsx:24-29 | with ascending thresholds, the band never falls as the level rises |
| ContaminationPanel.StatusTextBands | project/src/components/ContaminationPanel.tsx:24-29 | with ascending thresholds, Safe, Elevated, Warning and Danger hold exactly on [-∞, safe), [safe, warning), [warning, danger) and [danger, ∞); the danger bound is inclusive |
| ContaminationPanel.IsPulsing | project/src/components/ContaminationPanel.tsx:60-64 | no contract of its own; `PulseMatchesBand` and `Dashboard.ReachableDisplay` state when the badge pulses |
| ContaminationPanel.PulseMatchesBand | project/src/components/ContaminationPanel.tsx:60-64 | when safe ≤ warning, the badge pulses exactly in the Warning and Danger bands |
| ContaminationPanel.GaugeWidth | project/src/components/ContaminationPanel.tsx:73 | the width never exceeds 100 or the level, and it equals one of them |
| ContaminationPanel.GaugeWidthInRange | project/src/components/ContaminationPanel.tsx:73 | for a level in [0, 100] the width is the level |
| Dashboard.BandsMatchSeverity | project/src/hooks/useSimulatedData.ts:115-117 | with the hook's thresholds, the panel's Danger band is exactly severity `critical`, Warning is exactly `warning`, and Safe or Elevated is exactly `info` |
| Dashboard.AlertsMatchBandEntry | project/src/hooks/useSimulatedData.ts:123-149 | a critical alert is raised exactly when the panel enters Danger; a warning alert exactly when it moves from Safe or Elevated into Warning |
| Dashboard.ReachableDisplay | project/src/components/Dashboard.tsx:32-37 | in every reachable state the gauge width equals the level, and the badge pulses exactly when the severity is not `info` |

## Left out

- React machinery (`useState`, `setData`, `useEffect`) is left out. The state is a
  field of `SimulatedDataHook` that each method replaces.
- The `setInterval`/`clearInterval` scheduler (lines 180-183) is timer and lifecycle
  plumbing. A tick is one call of `SimulateDataChanges`, or one `TickOp` in a run.
- `Math.random()` is left out. The delta is a parameter, and `ValidDelta` states its
  range.
- `Date.now()` and `new Date()` are left out. Ids and timestamps are opaque
  parameters. Id uniqueness depends on the clock, so the model does not prove it.
  Only the structural relation "alert event id = alert id + 1" is modelled.
- All `new Date()` readings within one transition are one `time` value. In the source
  they are separate readings, microseconds apart.
- IEEE-754 effects of `Math.round(x * 10) / 10` and of `toFixed(1)` are left out. The
  model computes the level exactly, in tenths.
- Message formatting is left out. Messages are constructors of `Message`, which carry
  the level or the threshold they mention.
- `SafeThreshold` is declared, but the hook never alerts on it. It only feeds the
  panel's display bands.
- The rendering components are pure rendering: EventLog.tsx, AlertNotification.tsx,
  LightBarrierStatus.tsx and Header.tsx. Their colour maps are constant tables.
  Dashboard.tsx is modelled only as the wiring from the hook to the panel.
- `SimulatedDataHook.SimulateDataChanges` requires a delta in [-2, 6), because the
  caller at line 98 guarantees it. The `Tick` function itself is total.
