/**
 * The block's saved markup (src/save.js): its own copy of the goal value
 * mapper and a bar, the only shape the saved markup has.
 */
module Save {
  import opened Numbers
  import opened Block

  /** The fill percentage, clamped to [0, 100]: 0 at minValue, 100 at maxValue. */
  function Percentage(a: Attributes): (r: real)
    requires NonDegenerate(a)
    ensures 0.0 <= r <= 100.0
    ensures a.minValue < a.maxValue && a.currentValue <= a.minValue ==> r == 0.0
    ensures a.minValue < a.maxValue && a.currentValue >= a.maxValue ==> r == 100.0
    ensures a.minValue <= a.currentValue <= a.maxValue ==>
              r * (a.maxValue - a.minValue) == (a.currentValue - a.minValue) * 100.0
  {
    var ratio := ((a.currentValue - a.minValue) / (a.maxValue - a.minValue)) * 100.0;
    ScaledRatio(a.currentValue, a.minValue, a.maxValue);
    Min(100.0, Max(0.0, ratio))
  }

  /** The percentage as displayed: 100 - percentage when reverseDirection is set. */
  function DisplayPercentage(a: Attributes): (r: real)
    requires NonDegenerate(a)
    ensures 0.0 <= r <= 100.0
    ensures a.reverseDirection ==> r + Percentage(a) == 100.0
    ensures !a.reverseDirection ==> r == Percentage(a)
  {
    if a.reverseDirection then 100.0 - Percentage(a) else Percentage(a)
  }

  /** The rounded display percentage, or the reversed or forward pair. */
  function DisplayValue(a: Attributes): (r: DisplayValue)
    requires a.showAsPercentage ==> NonDegenerate(a)
    ensures a.showAsPercentage ==>
              r.Percent? && r.rounded <= 100
              && r.rounded as real - 0.5 <= DisplayPercentage(a) < r.rounded as real + 0.5
    ensures !a.showAsPercentage && a.reverseDirection ==>
              r == Pair(a.maxValue, a.labelConnector, a.minValue)
    ensures !a.showAsPercentage && !a.reverseDirection ==>
              r == Pair(a.currentValue, a.labelConnector, a.maxValue)
  {
    if a.showAsPercentage then Percent(JsRound(DisplayPercentage(a)))
    else if a.reverseDirection then Pair(a.maxValue, a.labelConnector, a.minValue)
    else Pair(a.currentValue, a.labelConnector, a.maxValue)
  }

  /** The bar's fill width in percent. */
  function FillWidth(a: Attributes): (r: real)
    requires NonDegenerate(a)
    ensures r == DisplayPercentage(a)
  {
    if a.reverseDirection then 100.0 - Percentage(a) else Percentage(a)
  }

  /** The saved markup: always a bar, whatever the block's style. */
  function View(a: Attributes): (g: Gauge)
    requires NonDegenerate(a)
    ensures g.Bar?
    ensures g.goalLabel == a.goalLabel && g.value == DisplayValue(a)
    ensures g.gradientStart == a.gradientStart && g.gradientEnd == a.gradientEnd
    ensures 0.0 <= g.fillWidth <= 100.0 && g.fillWidth == DisplayPercentage(a)
  {
    Bar(a.goalLabel, DisplayValue(a), FillWidth(a), a.gradientStart, a.gradientEnd)
  }
}
