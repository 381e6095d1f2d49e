/**
 * The dashboard hands the hook's level and thresholds to the contamination
 * panel. These lemmas relate the panel's display bands to the hook's
 * severity banding and alerting.
 */
module Dashboard {
  import opened UseSimulatedData
  import P = ContaminationPanel

  /** The hook's level, in tenths, as the percentage the panel receives. */
  function Percent(level: int): real
  {
    level as real / 10.0
  }

  function PanelText(level: int): P.StatusText
  {
    P.GetStatusText(Percent(level), SafeThreshold as real, WarningThreshold as real, DangerThreshold as real)
  }

  /**
   * With the hook's thresholds the panel's "Danger" band is where a
   * contamination event is `critical`, its "Warning" band where it is
   * `warning`, and the two lower bands where it is `info`.
   */
  lemma BandsMatchSeverity(level: int)
    ensures PanelText(level) == P.Danger <==> SeverityAt(level) == Critical
    ensures PanelText(level) == P.Warning <==> SeverityAt(level) == Warning
    ensures PanelText(level) in {P.Safe, P.Elevated} <==> SeverityAt(level) == Info
  {
  }

  /**
   * A tick raises a critical alert exactly when the panel enters "Danger",
   * and a warning alert exactly when it enters "Warning" from a lower band.
   */
  lemma AlertsMatchBandEntry(prev: int, next: int)
    ensures Crossing(prev, next) == Some(Critical) <==> PanelText(prev) != P.Danger && PanelText(next) == P.Danger
    ensures Crossing(prev, next) == Some(Warning) <==>
              PanelText(prev) in {P.Safe, P.Elevated} && PanelText(next) == P.Warning
  {
  }

  /**
   * In every reachable state the gauge shows the level itself and the
   * badge pulses exactly when a contamination event would not be `info`.
   */
  lemma ReachableDisplay(time: Instant, ops: seq<Op>)
    ensures var level := Run(Initial(time), ops).contaminationLevel;
            P.GaugeWidth(Percent(level)) == Percent(level) &&
            (P.IsPulsing(Percent(level), WarningThreshold as real) <==> SeverityAt(level) != Info)
  {
    ReachableInvariant(time, ops);
  }
}
