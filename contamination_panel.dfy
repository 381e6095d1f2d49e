/**
 * The threshold banding of the contamination panel: four classifiers, each
 * an if-chain over the level against three thresholds, plus the pulse
 * condition of the status badge and the width of the gauge. Levels and
 * thresholds are percentages.
 */
module ContaminationPanel {

  datatype StatusText = Safe | Elevated | Warning | Danger

  /** `bg-green-500`, `bg-yellow-500`, `bg-orange-500`, `bg-red-500` */
  datatype StatusColor = Green | Yellow | Orange | Red

  /** The gauge gradients, from green-emerald to red-rose. */
  datatype GaugeColor = GreenEmerald | YellowAmber | OrangeAmber | RedRose

  datatype StatusIcon = TrendingDown | Activity | TrendingUp | AlertTriangle

  /** The thresholds ascend (ties allowed). */
  predicate Ordered(safe: real, warning: real, danger: real)
  {
    safe <= warning <= danger
  }

  /**
   * Reference definition of the band: how many of the thresholds the level
   * has reached.
   */
  function Reached(level: real, safe: real, warning: real, danger: real): (n: nat)
    ensures n <= 3
  {
    (if safe <= level then 1 else 0) + (if warning <= level then 1 else 0) + (if danger <= level then 1 else 0)
  }

  function TextRank(t: StatusText): nat
  {
    match t
    case Safe => 0
    case Elevated => 1
    case Warning => 2
    case Danger => 3
  }

  function ColorRank(c: StatusColor): nat
  {
    match c
    case Green => 0
    case Yellow => 1
    case Orange => 2
    case Red => 3
  }

  function GaugeRank(g: GaugeColor): nat
  {
    match g
    case GreenEmerald => 0
    case YellowAmber => 1
    case OrangeAmber => 2
    case RedRose => 3
  }

  function IconRank(i: StatusIcon): nat
  {
    match i
    case TrendingDown => 0
    case Activity => 1
    case TrendingUp => 2
    case AlertTriangle => 3
  }

  function GetStatusColor(level: real, safe: real, warning: real, danger: real): (r: StatusColor)
    ensures Ordered(safe, warning, danger) ==> ColorRank(r) == Reached(level, safe, warning, danger)
  {
    if level < safe then Green
    else if level < warning then Yellow
    else if level < danger then Orange
    else Red
  }

  function GetStatusText(level: real, safe: real, warning: real, danger: real): (r: StatusText)
    ensures Ordered(safe, warning, danger) ==> TextRank(r) == Reached(level, safe, warning, danger)
  {
    if level < safe then Safe
    else if level < warning then Elevated
    else if level < danger then Warning
    else Danger
  }

  function GetGaugeColor(level: real, safe: real, warning: real, danger: real): (r: GaugeColor)
    ensures Ordered(safe, warning, danger) ==> GaugeRank(r) == Reached(level, safe, warning, danger)
  {
    if level < safe then GreenEmerald
    else if level < warning then YellowAmber
    else if level < danger then OrangeAmber
    else RedRose
  }

  function GetStatusIcon(level: real, safe: real, warning: real, danger: real): (r: StatusIcon)
    ensures Ordered(safe, warning, danger) ==> IconRank(r) == Reached(level, safe, warning, danger)
  {
    if level < safe then TrendingDown
    else if level < warning then Activity
    else if level < danger then TrendingUp
    else AlertTriangle
  }

  /** The badge pulses (and turns red) at and above the warning threshold. */
  function IsPulsing(level: real, warning: real): bool
  {
    level >= warning
  }

  /** `Math.min(level, 100)`: the gauge's width in percent. */
  function GaugeWidth(level: real): (w: real)
    ensures w <= 100.0 && w <= level
    ensures w == level || w == 100.0
  {
    if level <= 100.0 then level else 100.0
  }

  /** All four classifiers pick the same band, whatever the thresholds. */
  lemma ClassifiersAgree(level: real, safe: real, warning: real, danger: real)
    ensures ColorRank(GetStatusColor(level, safe, warning, danger)) == TextRank(GetStatusText(level, safe, warning, danger))
    ensures GaugeRank(GetGaugeColor(level, safe, warning, danger)) == TextRank(GetStatusText(level, safe, warning, danger))
    ensures IconRank(GetStatusIcon(level, safe, warning, danger)) == TextRank(GetStatusText(level, safe, warning, danger))
  {
  }

  /** With ascending thresholds the band never falls as the level rises. */
  lemma BandMonotone(low: real, high: real, safe: real, warning: real, danger: real)
    requires Ordered(safe, warning, danger) && low <= high
    ensures TextRank(GetStatusText(low, safe, warning, danger)) <= TextRank(GetStatusText(high, safe, warning, danger))
  {
  }

  /**
   * With ascending thresholds each text holds on exactly one half-open
   * interval; the danger boundary belongs to "Danger".
   */
  lemma StatusTextBands(level: real, safe: real, warning: real, danger: real)
    requires Ordered(safe, warning, danger)
    ensures GetStatusText(level, safe, warning, danger) == Safe <==> level < safe
    ensures GetStatusText(level, safe, warning, danger) == Elevated <==> safe <= level < warning
    ensures GetStatusText(level, safe, warning, danger) == Warning <==> warning <= level < danger
    ensures GetStatusText(level, safe, warning, danger) == Danger <==> danger <= level
  {
  }

  /** With ascending thresholds the badge pulses exactly in the two upper bands. */
  lemma PulseMatchesBand(level: real, safe: real, warning: real, danger: real)
    requires safe <= warning
    ensures IsPulsing(level, warning) <==> TextRank(GetStatusText(level, safe, warning, danger)) >= 2
  {
  }

  /** On a level within [0, 100] the gauge shows the level itself. */
  lemma GaugeWidthInRange(level: real)
    requires 0.0 <= level <= 100.0
    ensures GaugeWidth(level) == level
  {
  }
}
