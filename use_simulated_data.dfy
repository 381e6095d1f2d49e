/**
 * The simulation and state engine of the light-barrier dashboard: one state
 * value (barrier flag, contamination level, alert list, event log) and the
 * four transitions that act on it (a simulation tick, toggling the barrier,
 * dismissing one alert, clearing all alerts).
 *
 * The contamination level is kept exactly, in tenths of a percent
 * (125 stands for 12.5%). The random delta, the clock-derived ids and the
 * timestamps are parameters of the transitions.
 */
module UseSimulatedData {

  datatype Option<T> = None | Some(value: T)

  /** Milliseconds since the epoch, as `Date.now()` reads them. */
  type Instant = int

  datatype Severity = Info | Warning | Critical

  datatype EventType = StatusChange | Contamination | AlertRaised | System

  /** The texts the engine writes, without their formatting. */
  datatype Message =
    | SystemInitialized
      // "Light barrier activated" / "Light barrier deactivated"
    | LightBarrier(activated: bool)
      // "Contamination level increased to 57.3%"; level in tenths
    | LevelChanged(increased: bool, level: int)
      // "CRITICAL: Contamination level exceeded 75%" and its warning twin
    | ThresholdExceeded(severity: Severity, threshold: int)

  datatype Alert = Alert(id: int, message: Message, level: Severity, timestamp: Instant)

  datatype LogEvent = LogEvent(id: int, kind: EventType, message: Message, timestamp: Instant, severity: Severity)

  /** The whole state; `contaminationLevel` is in tenths of a percent. */
  datatype SimulatedData = SimulatedData(
    isLightBarrierActive: bool,
    contaminationLevel: int,
    alerts: seq<Alert>,
    events: seq<LogEvent>)

  // Threshold policy, in percent.
  const SafeThreshold: int := 25
  const WarningThreshold: int := 50
  const DangerThreshold: int := 75

  /** The level 100%, in tenths. */
  const MaxLevel: int := 1000

  /** How many events the log keeps. */
  const MaxEvents: nat := 100

  /** Whether a level in tenths is at or above a threshold in percent. */
  predicate AtOrAbove(level: int, threshold: int)
  {
    level >= 10 * threshold
  }

  /** The range of `Math.random() * 8 - 2`. */
  predicate ValidDelta(delta: real)
  {
    -2.0 <= delta < 6.0
  }

  function Abs(x: real): real
  {
    if x < 0.0 then -x else x
  }

  function Min(x: real, y: real): real
  {
    if x <= y then x else y
  }

  function Max(x: real, y: real): real
  {
    if x <= y then y else x
  }

  // ---------------------------------------------------------------------
  // The initial state
  // ---------------------------------------------------------------------

  function Initial(time: Instant): (s: SimulatedData)
    ensures s.isLightBarrierActive && s.alerts == []
    ensures s.contaminationLevel == 125
    ensures |s.events| == 1 && s.events[0].id == 1 && s.events[0].kind == System
  {
    SimulatedData(true, 125, [], [LogEvent(1, System, SystemInitialized, time, Info)])
  }

  // ---------------------------------------------------------------------
  // The bounded, newest-first event log
  // ---------------------------------------------------------------------

  /** `slice(0, 100)`: the first (newest) `MaxEvents` entries. */
  function Cap(log: seq<LogEvent>): (r: seq<LogEvent>)
    ensures |r| == if |log| <= MaxEvents then |log| else MaxEvents
    ensures r == log[..|r|]
  {
    if |log| <= MaxEvents then log else log[..MaxEvents]
  }

  /** `[e, ...log].slice(0, 100)`: the new event goes first, the oldest fall off. */
  function Prepend(e: LogEvent, log: seq<LogEvent>): (r: seq<LogEvent>)
    ensures 1 <= |r| <= MaxEvents
    ensures r[0] == e
    ensures |r| == if |log| < MaxEvents then |log| + 1 else MaxEvents
    ensures r[1..] == log[..|r| - 1]
  {
    Cap([e] + log)
  }

  /** Capping twice is capping once: what a later cap keeps is among the newest. */
  lemma CapAbsorbs(newer: seq<LogEvent>, older: seq<LogEvent>)
    ensures Cap(newer + Cap(older)) == Cap(newer + older)
  {
    if |older| > MaxEvents {
      var a, b := newer + older[..MaxEvents], newer + older;
      assert |a| >= MaxEvents;
      assert forall i | 0 <= i < MaxEvents :: a[i] == b[i];
      assert a[..MaxEvents] == b[..MaxEvents];
    }
  }

  /** Two rounds of prepend-and-cap are one round with both batches. */
  lemma CapChain(newest: seq<LogEvent>, newer: seq<LogEvent>, older: seq<LogEvent>)
    ensures Cap(newest + Cap(newer + older)) == Cap((newest + newer) + older)
  {
    CapAbsorbs(newest, newer + older);
    assert newest + (newer + older) == (newest + newer) + older;
  }

  // ---------------------------------------------------------------------
  // Level arithmetic
  // ---------------------------------------------------------------------

  /** `Math.round(x)` for a non-negative `x`: the nearest integer, halves upwards. */
  function RoundHalfUp(x: real): (r: int)
    ensures r as real - 0.5 <= x < r as real + 0.5
  {
    (x + 0.5).Floor
  }

  /**
   * The level after adding `delta` (in percent) to `level` (in tenths),
   * clamped to [0, 100] and rounded to one decimal.
   */
  function NextLevel(level: int, delta: real): (r: int)
    ensures 0 <= r <= MaxLevel
    ensures var exact := level as real + 10.0 * delta;
            0.0 <= exact <= MaxLevel as real ==> r as real - 0.5 <= exact < r as real + 0.5
    ensures var exact := level as real + 10.0 * delta;
            (exact <= 0.0 ==> r == 0) && (exact >= MaxLevel as real ==> r == MaxLevel)
  {
    var clamped := Max(0.0, Min(100.0, level as real / 10.0 + delta));
    RoundHalfUp(clamped * 10.0)
  }

  /** Severity of a contamination event: where the new level falls. */
  function SeverityAt(level: int): (r: Severity)
    ensures r == Info <==> !AtOrAbove(level, WarningThreshold)
    ensures r == Critical <==> AtOrAbove(level, DangerThreshold)
  {
    if AtOrAbove(level, DangerThreshold) then Critical
    else if AtOrAbove(level, WarningThreshold) then Warning
    else Info
  }

  /**
   * The alert a move from `prev` to `next` raises: danger is checked
   * first, then warning, and each fires only when the level goes from below
   * the threshold to at or above it.
   */
  function Crossing(prev: int, next: int): (r: Option<Severity>)
    ensures r.Some? ==> prev < next && r.value != Info
    ensures r == Some(Critical) ==> AtOrAbove(next, DangerThreshold)
    ensures r == Some(Warning) ==> AtOrAbove(next, WarningThreshold) && !AtOrAbove(next, DangerThreshold)
  {
    if !AtOrAbove(prev, DangerThreshold) && AtOrAbove(next, DangerThreshold) then Some(Critical)
    else if !AtOrAbove(prev, WarningThreshold) && AtOrAbove(next, WarningThreshold) then Some(Warning)
    else None
  }

  /**
   * The levels 10, 60, 80, 40, 90 (percent) raise a warning, a critical
   * alert (danger preempts warning), nothing (a drop), and a critical alert.
   */
  lemma EdgeTriggeredExample()
    ensures Crossing(100, 600) == Some(Warning)
    ensures Crossing(600, 800) == Some(Critical)
    ensures Crossing(800, 400) == None
    ensures Crossing(400, 900) == Some(Critical)
  {
  }

  function ThresholdOf(severity: Severity): int
    requires severity != Info
  {
    if severity == Critical then DangerThreshold else WarningThreshold
  }

  /** The alert raised for a crossing of the given severity. */
  function RaisedAlert(id: int, severity: Severity, time: Instant): Alert
    requires severity != Info
  {
    Alert(id, ThresholdExceeded(severity, ThresholdOf(severity)), severity, time)
  }

  /** The `alert` event logged beside an alert. */
  function AlertLogEvent(a: Alert): LogEvent
  {
    LogEvent(a.id + 1, AlertRaised, a.message, a.timestamp, a.level)
  }

  /** The `contamination` event logged for a large change. */
  function ContaminationLogEvent(id: int, delta: real, level: int, time: Instant): LogEvent
  {
    LogEvent(id, Contamination, LevelChanged(delta > 0.0, level), time, SeverityAt(level))
  }

  // ---------------------------------------------------------------------
  // The four transitions
  // ---------------------------------------------------------------------

  /** One simulation tick, with the random delta and the clock as parameters. */
  function Tick(s: SimulatedData, delta: real, eventId: int, alertId: int, time: Instant): (r: SimulatedData)
    ensures r.isLightBarrierActive == s.isLightBarrierActive
    ensures s.isLightBarrierActive ==> 0 <= r.contaminationLevel <= MaxLevel
    ensures |s.alerts| <= |r.alerts| <= |s.alerts| + 1 && r.alerts[..|s.alerts|] == s.alerts
    ensures |s.events| <= MaxEvents ==> |r.events| <= MaxEvents
    ensures s.events != [] ==> r.events != []
  {
    if !s.isLightBarrierActive then s
    else
      var level := NextLevel(s.contaminationLevel, delta);
      var logged :=
        if Abs(delta) > 3.0 then Prepend(ContaminationLogEvent(eventId, delta, level, time), s.events)
        else s.events;
      match Crossing(s.contaminationLevel, level)
      case None =>
        s.(contaminationLevel := level, events := logged)
      case Some(severity) =>
        var a := RaisedAlert(alertId, severity, time);
        s.(contaminationLevel := level, alerts := s.alerts + [a], events := Prepend(AlertLogEvent(a), logged))
  }

  function Toggle(s: SimulatedData, id: int, time: Instant): (r: SimulatedData)
    ensures r.isLightBarrierActive != s.isLightBarrierActive
    ensures r.contaminationLevel == s.contaminationLevel && r.alerts == s.alerts
    ensures 1 <= |r.events| <= MaxEvents && r.events[0].kind == StatusChange
  {
    var active := !s.isLightBarrierActive;
    var e := LogEvent(id, StatusChange, LightBarrier(active), time, Info);
    s.(isLightBarrierActive := active, events := Prepend(e, s.events))
  }

  /** `alerts.filter(alert => alert.id !== id)` */
  function RemoveId(alerts: seq<Alert>, id: int): (r: seq<Alert>)
    ensures |r| <= |alerts|
    ensures forall a :: a in r <==> a in alerts && a.id != id
    ensures (forall i | 0 <= i < |alerts| :: alerts[i].id != id) ==> r == alerts
  {
    if alerts == [] then []
    else if alerts[0].id == id then RemoveId(alerts[1..], id)
    else [alerts[0]] + RemoveId(alerts[1..], id)
  }

  function Dismiss(s: SimulatedData, id: int): (r: SimulatedData)
    ensures r.isLightBarrierActive == s.isLightBarrierActive
    ensures r.contaminationLevel == s.contaminationLevel && r.events == s.events
    ensures forall i | 0 <= i < |r.alerts| :: r.alerts[i].id != id
  {
    s.(alerts := RemoveId(s.alerts, id))
  }

  function ClearAll(s: SimulatedData): SimulatedData
  {
    s.(alerts := [])
  }

  // ---------------------------------------------------------------------
  // Properties of one tick
  // ---------------------------------------------------------------------

  /** While the barrier is off a tick is the identity. */
  lemma TickGated(s: SimulatedData, delta: real, eventId: int, alertId: int, time: Instant)
    requires !s.isLightBarrierActive
    ensures Tick(s, delta, eventId, alertId, time) == s
  {
  }

  /** An armed tick clamps and rounds the level and leaves the flag alone. */
  lemma TickLevel(s: SimulatedData, delta: real, eventId: int, alertId: int, time: Instant)
    requires s.isLightBarrierActive
    ensures var t := Tick(s, delta, eventId, alertId, time);
            t.isLightBarrierActive && 0 <= t.contaminationLevel <= MaxLevel &&
            t.contaminationLevel == NextLevel(s.contaminationLevel, delta)
  {
  }

  /**
   * Edge-triggered alerting: a critical alert exactly on an upward crossing
   * of the danger threshold; otherwise a warning alert exactly on an upward
   * crossing of the warning threshold; at most one alert, appended at the
   * end, with the old alerts kept as a prefix; a falling level raises none.
   */
  lemma TickAlerts(s: SimulatedData, delta: real, eventId: int, alertId: int, time: Instant)
    requires s.isLightBarrierActive
    ensures var t := Tick(s, delta, eventId, alertId, time);
            var prev, next := s.contaminationLevel, t.contaminationLevel;
            var critical := !AtOrAbove(prev, DangerThreshold) && AtOrAbove(next, DangerThreshold);
            var warning := !critical && !AtOrAbove(prev, WarningThreshold) && AtOrAbove(next, WarningThreshold);
            |s.alerts| <= |t.alerts| <= |s.alerts| + 1 &&
            t.alerts[..|s.alerts|] == s.alerts &&
            (|t.alerts| == |s.alerts| + 1 <==> critical || warning) &&
            (critical ==> Last(t.alerts) == Alert(alertId, ThresholdExceeded(Critical, DangerThreshold), Critical, time)) &&
            (warning ==> Last(t.alerts) == Alert(alertId, ThresholdExceeded(Warning, WarningThreshold), Warning, time)) &&
            (next <= prev ==> t.alerts == s.alerts)
  {
  }

  function Last<T>(xs: seq<T>): T
    requires xs != []
  {
    xs[|xs| - 1]
  }

  /**
   * The events an armed tick adds, newest first: the alert event (if an
   * alert is raised) before the contamination event (if |delta| > 3).
   */
  function TickEmitted(s: SimulatedData, delta: real, eventId: int, alertId: int, time: Instant): seq<LogEvent>
  {
    var level := NextLevel(s.contaminationLevel, delta);
    var alertPart :=
      match Crossing(s.contaminationLevel, level)
      case None => []
      case Some(severity) => [AlertLogEvent(RaisedAlert(alertId, severity, time))];
    var changePart :=
      if Abs(delta) > 3.0 then [ContaminationLogEvent(eventId, delta, level, time)] else [];
    alertPart + changePart
  }

  /** An armed tick prepends its emitted events to the log and then caps it. */
  lemma TickEvents(s: SimulatedData, delta: real, eventId: int, alertId: int, time: Instant)
    requires s.isLightBarrierActive && |s.events| <= MaxEvents
    ensures var t := Tick(s, delta, eventId, alertId, time);
            var emitted := TickEmitted(s, delta, eventId, alertId, time);
            |emitted| <= 2 &&
            t.events == Cap(emitted + s.events)
  {
    var level := NextLevel(s.contaminationLevel, delta);
    var emitted := TickEmitted(s, delta, eventId, alertId, time);
    var changePart :=
      if Abs(delta) > 3.0 then [ContaminationLogEvent(eventId, delta, level, time)] else [];
    var logged := Cap(changePart + s.events);
    assert logged == if Abs(delta) > 3.0 then Prepend(ContaminationLogEvent(eventId, delta, level, time), s.events)
                     else s.events;
    match Crossing(s.contaminationLevel, level)
    case None =>
      assert emitted == changePart;
    case Some(severity) =>
      var e := AlertLogEvent(RaisedAlert(alertId, severity, time));
      assert emitted == [e] + changePart;
      CapAbsorbs([e], changePart + s.events);
      assert [e] + (changePart + s.events) == emitted + s.events;
  }

  /**
   * Every alert a tick raises is logged by exactly one `alert` event with
   * the alert's message and severity and the id after the alert's; the
   * other event a tick may add is a `contamination` event.
   */
  lemma TickAlertEvent(s: SimulatedData, delta: real, eventId: int, alertId: int, time: Instant)
    requires s.isLightBarrierActive && |s.events| <= MaxEvents
    ensures var t := Tick(s, delta, eventId, alertId, time);
            var emitted := TickEmitted(s, delta, eventId, alertId, time);
            (forall i | 1 <= i < |emitted| :: emitted[i].kind == Contamination) &&
            (|t.alerts| > |s.alerts| <==> emitted != [] && emitted[0].kind == AlertRaised) &&
            (|t.alerts| > |s.alerts| ==>
               var a := Last(t.alerts);
               t.events[0] == emitted[0] &&
               emitted[0].id == a.id + 1 && emitted[0].message == a.message &&
               emitted[0].severity == a.level && emitted[0].timestamp == a.timestamp)
  {
    TickEvents(s, delta, eventId, alertId, time);
  }

  /**
   * A tick logs a `contamination` event exactly when |delta| > 3, with
   * the severity of the new level; for a delta from the source's range
   * the message always says "increased".
   */
  lemma TickContaminationEvent(s: SimulatedData, delta: real, eventId: int, alertId: int, time: Instant)
    requires s.isLightBarrierActive
    ensures var t := Tick(s, delta, eventId, alertId, time);
            var emitted := TickEmitted(s, delta, eventId, alertId, time);
            var level := t.contaminationLevel;
            ((exists i | 0 <= i < |emitted| :: emitted[i].kind == Contamination) <==> Abs(delta) > 3.0) &&
            (Abs(delta) > 3.0 ==>
               Last(emitted) == LogEvent(eventId, Contamination, LevelChanged(delta > 0.0, level), time, SeverityAt(level)) &&
               (ValidDelta(delta) ==> Last(emitted).message.increased)) &&
            (SeverityAt(level) == Critical <==> AtOrAbove(level, DangerThreshold)) &&
            (SeverityAt(level) == Warning <==> AtOrAbove(level, WarningThreshold) && !AtOrAbove(level, DangerThreshold))
  {
    var emitted := TickEmitted(s, delta, eventId, alertId, time);
    if Abs(delta) > 3.0 {
      assert emitted[|emitted| - 1].kind == Contamination;
    }
  }

  // ---------------------------------------------------------------------
  // Properties of the control operations
  // ---------------------------------------------------------------------

  /** Toggling flips the flag and logs one `info` `status_change` event naming the new state. */
  lemma ToggleEffect(s: SimulatedData, id: int, time: Instant)
    ensures var t := Toggle(s, id, time);
            t.isLightBarrierActive == !s.isLightBarrierActive &&
            t.contaminationLevel == s.contaminationLevel && t.alerts == s.alerts &&
            t.events == Cap([LogEvent(id, StatusChange, LightBarrier(t.isLightBarrierActive), time, Info)] + s.events) &&
            t.events[0].kind == StatusChange && t.events[0].severity == Info &&
            t.events[0].message == LightBarrier(t.isLightBarrierActive)
  {
  }

  /** Toggling twice restores the flag, level and alerts. */
  lemma ToggleTwice(s: SimulatedData, id1: int, time1: Instant, id2: int, time2: Instant)
    ensures var t := Toggle(Toggle(s, id1, time1), id2, time2);
            t.isLightBarrierActive == s.isLightBarrierActive &&
            t.contaminationLevel == s.contaminationLevel && t.alerts == s.alerts
  {
  }

  /** Filtering keeps the order: it distributes over concatenation. */
  lemma {:induction false} RemoveIdConcat(xs: seq<Alert>, ys: seq<Alert>, id: int)
    ensures RemoveId(xs + ys, id) == RemoveId(xs, id) + RemoveId(ys, id)
  {
    if xs == [] {
      assert xs + ys == ys;
    } else {
      assert (xs + ys)[0] == xs[0];
      assert (xs + ys)[1..] == xs[1..] + ys;
      RemoveIdConcat(xs[1..], ys, id);
      if xs[0].id != id {
        assert [xs[0]] + (RemoveId(xs[1..], id) + RemoveId(ys, id))
          == ([xs[0]] + RemoveId(xs[1..], id)) + RemoveId(ys, id);
      }
    }
  }

  /**
   * Filtering twice is filtering once: no alert left after the first pass
   * carries the id, so the second pass keeps everything.
   */
  lemma RemoveIdIdempotent(xs: seq<Alert>, id: int)
    ensures RemoveId(RemoveId(xs, id), id) == RemoveId(xs, id)
  {
  }

  /**
   * Dismissal removes exactly the alerts with that id, keeps the others in
   * order, is a no-op for an absent id and is idempotent; only the alerts
   * change.
   */
  lemma DismissEffect(s: SimulatedData, id: int)
    ensures var t := Dismiss(s, id);
            t.isLightBarrierActive == s.isLightBarrierActive &&
            t.contaminationLevel == s.contaminationLevel && t.events == s.events &&
            (forall a :: a in t.alerts <==> a in s.alerts && a.id != id) &&
            ((forall i | 0 <= i < |s.alerts| :: s.alerts[i].id != id) ==> t.alerts == s.alerts) &&
            Dismiss(t, id) == t
  {
    RemoveIdIdempotent(s.alerts, id);
  }

  /** Clearing empties the alerts and touches nothing else. */
  lemma ClearAllEffect(s: SimulatedData)
    ensures var t := ClearAll(s);
            t.alerts == [] &&
            t.isLightBarrierActive == s.isLightBarrierActive &&
            t.contaminationLevel == s.contaminationLevel && t.events == s.events
  {
  }

  // ---------------------------------------------------------------------
  // Runs of operations
  // ---------------------------------------------------------------------

  datatype Op =
    | TickOp(delta: real, eventId: int, alertId: int, time: Instant)
    | ToggleOp(id: int, time: Instant)
    | DismissOp(id: int)
    | ClearOp

  function Step(s: SimulatedData, op: Op): SimulatedData
  {
    match op
    case TickOp(delta, eventId, alertId, time) => Tick(s, delta, eventId, alertId, time)
    case ToggleOp(id, time) => Toggle(s, id, time)
    case DismissOp(id) => Dismiss(s, id)
    case ClearOp => ClearAll(s)
  }

  /** The events one operation adds, newest first. */
  function Emitted(s: SimulatedData, op: Op): seq<LogEvent>
  {
    match op
    case TickOp(delta, eventId, alertId, time) =>
      if s.isLightBarrierActive then TickEmitted(s, delta, eventId, alertId, time) else []
    case ToggleOp(id, time) => [LogEvent(id, StatusChange, LightBarrier(!s.isLightBarrierActive), time, Info)]
    case DismissOp(_) => []
    case ClearOp => []
  }

  /** Every operation prepends at most two events and then caps the log. */
  lemma StepEvents(s: SimulatedData, op: Op)
    requires |s.events| <= MaxEvents
    ensures |Emitted(s, op)| <= 2
    ensures Step(s, op).events == Cap(Emitted(s, op) + s.events)
  {
    match op
    case TickOp(delta, eventId, alertId, time) =>
      if s.isLightBarrierActive {
        TickEvents(s, delta, eventId, alertId, time);
      } else {
        assert Emitted(s, op) + s.events == s.events;
      }
    case ToggleOp(_, _) =>
    case DismissOp(_) =>
      assert Emitted(s, op) + s.events == s.events;
    case ClearOp =>
      assert Emitted(s, op) + s.events == s.events;
  }

  /** What holds of every reachable state. */
  predicate Invariant(s: SimulatedData)
  {
    0 <= s.contaminationLevel <= MaxLevel && 1 <= |s.events| <= MaxEvents
  }

  lemma InitialInvariant(time: Instant)
    ensures Invariant(Initial(time))
  {
  }

  /** Every operation keeps the level in [0, 100] and the log non-empty and bounded. */
  lemma StepInvariant(s: SimulatedData, op: Op)
    requires Invariant(s)
    ensures Invariant(Step(s, op))
  {
    StepEvents(s, op);
  }

  function Run(s: SimulatedData, ops: seq<Op>): SimulatedData
    decreases |ops|
  {
    if ops == [] then s else Run(Step(s, ops[0]), ops[1..])
  }

  /** Every event the operations add, newest first. */
  function History(s: SimulatedData, ops: seq<Op>): seq<LogEvent>
    decreases |ops|
  {
    if ops == [] then [] else History(Step(s, ops[0]), ops[1..]) + Emitted(s, ops[0])
  }

  lemma {:induction false} RunInvariant(s: SimulatedData, ops: seq<Op>)
    requires Invariant(s)
    ensures Invariant(Run(s, ops))
    decreases |ops|
  {
    if ops != [] {
      StepInvariant(s, ops[0]);
      RunInvariant(Step(s, ops[0]), ops[1..]);
    }
  }

  /** Every state reached from the initial one satisfies the invariant. */
  lemma ReachableInvariant(time: Instant, ops: seq<Op>)
    ensures Invariant(Run(Initial(time), ops))
  {
    InitialInvariant(time);
    RunInvariant(Initial(time), ops);
  }

  /**
   * After any run the log holds exactly the newest (at most 100) of all
   * events ever logged, newest first.
   */
  lemma {:induction false} RunKeepsNewest(s: SimulatedData, ops: seq<Op>)
    requires |s.events| <= MaxEvents
    ensures Run(s, ops).events == Cap(History(s, ops) + s.events)
    decreases |ops|
  {
    if ops == [] {
      assert History(s, ops) + s.events == s.events;
    } else {
      var s1 := Step(s, ops[0]);
      StepEvents(s, ops[0]);
      RunKeepsNewest(s1, ops[1..]);
      CapChain(History(s1, ops[1..]), Emitted(s, ops[0]), s.events);
    }
  }

  /** While the barrier is off, ticks change nothing at all. */
  lemma {:induction false} GatedTicks(s: SimulatedData, ops: seq<Op>)
    requires !s.isLightBarrierActive
    requires forall i | 0 <= i < |ops| :: ops[i].TickOp?
    ensures Run(s, ops) == s
    decreases |ops|
  {
    if ops != [] {
      GatedTicks(s, ops[1..]);
    }
  }

  // ---------------------------------------------------------------------
  // The hook: one mutable cell and its updaters
  // ---------------------------------------------------------------------

  class SimulatedDataHook {
    var data: SimulatedData

    ghost predicate Valid()
      reads this
    {
      Invariant(data)
    }

    /** The initial state, time-stamped with the current instant. */
    constructor (time: Instant)
      ensures Valid() && data == Initial(time)
    {
      data := Initial(time);
    }

    method ToggleLightBarrier(id: int, time: Instant)
      requires Valid()
      modifies this
      ensures Valid() && data == Toggle(old(data), id, time)
    {
      data := Toggle(data, id, time);
    }

    method DismissAlert(id: int)
      requires Valid()
      modifies this
      ensures Valid() && data == Dismiss(old(data), id)
    {
      data := Dismiss(data, id);
    }

    method ClearAllAlerts()
      requires Valid()
      modifies this
      ensures Valid() && data == ClearAll(old(data))
    {
      data := ClearAll(data);
    }

    /**
     * One tick, step by step: clamp, round, log a large change, then raise
     * at most one alert with danger checked before warning.
     */
    method SimulateDataChanges(delta: real, eventId: int, alertId: int, time: Instant)
      requires Valid() && ValidDelta(delta)
      modifies this
      ensures Valid() && data == Tick(old(data), delta, eventId, alertId, time)
    {
      var prevData := data;
      if !prevData.isLightBarrierActive {
        return;
      }
      StepInvariant(prevData, TickOp(delta, eventId, alertId, time));

      var newContaminationLevel := Max(0.0, Min(100.0, prevData.contaminationLevel as real / 10.0 + delta));
      var newLevel := RoundHalfUp(newContaminationLevel * 10.0);

      var newAlerts := prevData.alerts;
      var newEvents := prevData.events;

      if Abs(delta) > 3.0 {
        var contaminationEvent := LogEvent(eventId, Contamination, LevelChanged(delta > 0.0, newLevel), time, SeverityAt(newLevel));
        newEvents := Cap([contaminationEvent] + newEvents);
      }

      var prevAboveDanger := AtOrAbove(prevData.contaminationLevel, DangerThreshold);
      var nowAboveDanger := AtOrAbove(newLevel, DangerThreshold);
      var prevAboveWarning := AtOrAbove(prevData.contaminationLevel, WarningThreshold);
      var nowAboveWarning := AtOrAbove(newLevel, WarningThreshold);

      if !prevAboveDanger && nowAboveDanger {
        var alertMessage := ThresholdExceeded(Critical, DangerThreshold);
        newAlerts := newAlerts + [Alert(alertId, alertMessage, Critical, time)];
        var alertEvent := LogEvent(alertId + 1, AlertRaised, alertMessage, time, Critical);
        newEvents := Cap([alertEvent] + newEvents);
      } else if !prevAboveWarning && nowAboveWarning {
        var alertMessage := ThresholdExceeded(Warning, WarningThreshold);
        newAlerts := newAlerts + [Alert(alertId, alertMessage, Warning, time)];
        var alertEvent := LogEvent(alertId + 1, AlertRaised, alertMessage, time, Warning);
        newEvents := Cap([alertEvent] + newEvents);
      }

      data := prevData.(contaminationLevel := newLevel, alerts := newAlerts, events := newEvents);
    }
  }
}
