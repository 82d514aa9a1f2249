/**
 * The block's editor preview (src/edit.js): the goal value mapper, the style
 * variant read off the wrapper's class name, the geometry of the three
 * variants, and the gradient presets offered in the color panel.
 */
module Edit {
  import opened Numbers
  import opened Strings
  import opened Block

  const OutlineClass: string := "is-style-circle-outline"
  const SolidClass: string := "is-style-circle-solid"

  /** The class name is present and contains sub somewhere. */
  ghost predicate Mentions(className: Option<string>, sub: string)
  {
    className.Some? && exists i :: OccursAt(className.value, sub, i)
  }

  /** `className && className.includes(sub)`: an absent or empty class name is falsy. */
  function HasStyle(className: Option<string>, sub: string): (r: bool)
    requires sub != ""
    ensures r <==> Mentions(className, sub)
  {
    className.Some? && className.value != "" && Includes(className.value, sub)
  }

  /** The variant the preview draws: solid wins over outline, bar is the default. */
  function StyleVariant(className: Option<string>): (v: Variant)
    ensures v == BarStyle <==> !Mentions(className, OutlineClass) && !Mentions(className, SolidClass)
    ensures v == CircleSolid <==> Mentions(className, SolidClass)
    ensures v == CircleOutline <==> Mentions(className, OutlineClass) && !Mentions(className, SolidClass)
  {
    var isCircleOutline := HasStyle(className, OutlineClass);
    var isCircleSolid := HasStyle(className, SolidClass);
    var isCircle := isCircleOutline || isCircleSolid;
    if !isCircle then BarStyle else if isCircleSolid then CircleSolid else CircleOutline
  }

  /**
   * The fill percentage: where currentValue lies between minValue and
   * maxValue, in percent, clamped to [0, 100].
   */
  function Percentage(a: Attributes): (r: real)
    requires NonDegenerate(a)
    ensures 0.0 <= r <= 100.0
    ensures a.minValue < a.maxValue && a.currentValue <= a.minValue ==> r == 0.0
    ensures a.minValue < a.maxValue && a.currentValue >= a.maxValue ==> r == 100.0
    ensures a.minValue <= a.currentValue <= a.maxValue ==>
              r * (a.maxValue - a.minValue) == (a.currentValue - a.minValue) * 100.0
  {
    var ratio := ((a.currentValue - a.minValue) / (a.maxValue - a.minValue)) * 100.0;
    ScaledRatio(a.currentValue, a.minValue, a.maxValue);
    Min(100.0, Max(0.0, ratio))
  }

  /** The percentage as displayed: counted down from 100 when reverseDirection is set. */
  function DisplayPercentage(a: Attributes): (r: real)
    requires NonDegenerate(a)
    ensures 0.0 <= r <= 100.0
    ensures a.reverseDirection ==> r + Percentage(a) == 100.0
    ensures !a.reverseDirection ==> r == Percentage(a)
  {
    if a.reverseDirection then 100.0 - Percentage(a) else Percentage(a)
  }

  /**
   * The display value: the rounded display percentage, or else the pair
   * `max connector min` when reversed and `current connector max` otherwise.
   */
  function DisplayValue(a: Attributes): (r: DisplayValue)
    requires a.showAsPercentage ==> NonDegenerate(a)
    ensures a.showAsPercentage ==>
              r.Percent? && r.rounded <= 100
              && r.rounded as real - 0.5 <= DisplayPercentage(a) < r.rounded as real + 0.5
    ensures !a.showAsPercentage && a.reverseDirection ==>
              r == Pair(a.maxValue, a.labelConnector, a.minValue)
    ensures !a.showAsPercentage && !a.reverseDirection ==>
              r == Pair(a.currentValue, a.labelConnector, a.maxValue)
  {
    if a.showAsPercentage then Percent(JsRound(DisplayPercentage(a)))
    else if a.reverseDirection then Pair(a.maxValue, a.labelConnector, a.minValue)
    else Pair(a.currentValue, a.labelConnector, a.maxValue)
  }

  /** The radius of both circles of the circle variants. */
  const Radius: real := 60.0

  /** 2·π·radius, for a positive value `pi` of π. */
  function Circumference(pi: real): (c: real)
    requires pi > 0.0
    ensures c > 0.0
  {
    2.0 * pi * Radius
  }

  /**
   * The outline circle's dash offset: the part of the circumference left
   * undrawn, so the drawn arc is the fill percentage of the circle.
   */
  function StrokeDashoffset(a: Attributes, pi: real): (r: real)
    requires NonDegenerate(a) && pi > 0.0
    ensures 0.0 <= r <= Circumference(pi)
    ensures r + Circumference(pi) * Percentage(a) / 100.0 == Circumference(pi)
    ensures Percentage(a) == 100.0 ==> r == 0.0
    ensures Percentage(a) == 0.0 ==> r == Circumference(pi)
  {
    var circumference := Circumference(pi);
    circumference - (Percentage(a) / 100.0) * circumference
  }

  /** The bar's fill width in percent: the display percentage. */
  function FillWidth(a: Attributes): (r: real)
    requires NonDegenerate(a)
    ensures r == DisplayPercentage(a)
  {
    if a.reverseDirection then 100.0 - Percentage(a) else Percentage(a)
  }

  /** The solid circle's clip from the top, in percent: the unfilled part. */
  function ClipInset(a: Attributes): (r: real)
    requires NonDegenerate(a)
    ensures 0.0 <= r <= 100.0
    ensures r + Percentage(a) == 100.0
  {
    100.0 - Percentage(a)
  }

  /** The preview the editor draws for the given wrapper class name. */
  function View(a: Attributes, className: Option<string>, pi: real): (g: Gauge)
    requires NonDegenerate(a) && pi > 0.0
    ensures g.Bar? <==> StyleVariant(className) == BarStyle
    ensures g.SolidCircle? <==> StyleVariant(className) == CircleSolid
    ensures g.OutlineCircle? <==> StyleVariant(className) == CircleOutline
    ensures g.goalLabel == a.goalLabel && g.value == DisplayValue(a)
    ensures g.gradientStart == a.gradientStart && g.gradientEnd == a.gradientEnd
    ensures g.Bar? ==> g.fillWidth == DisplayPercentage(a)
    ensures g.SolidCircle? ==> g.clipInsetTop == 100.0 - Percentage(a)
    ensures g.OutlineCircle? ==> g.dashArray == Circumference(pi) && 0.0 <= g.dashOffset <= g.dashArray
    ensures g.OutlineCircle? ==> g.dashOffset == StrokeDashoffset(a, pi)
  {
    var value := DisplayValue(a);
    match StyleVariant(className)
    case BarStyle => Bar(a.goalLabel, value, FillWidth(a), a.gradientStart, a.gradientEnd)
    case CircleSolid => SolidCircle(a.goalLabel, value, ClipInset(a), a.gradientStart, a.gradientEnd)
    case CircleOutline =>
      OutlineCircle(a.goalLabel, value, Circumference(pi), StrokeDashoffset(a, pi),
                    a.gradientStart, a.gradientEnd)
  }

  /** With max > min, the fill percentage never decreases as currentValue grows. */
  lemma PercentageMonotone(a: Attributes, c1: real, c2: real)
    requires a.minValue < a.maxValue && c1 <= c2
    ensures Percentage(a.(currentValue := c1)) <= Percentage(a.(currentValue := c2))
  {
    ScaledRatioMonotone(c1, c2, a.minValue, a.maxValue);
  }

  /** With max > min, the outline arc never shrinks as currentValue grows. */
  lemma StrokeDashoffsetAntitone(a: Attributes, pi: real, c1: real, c2: real)
    requires a.minValue < a.maxValue && pi > 0.0 && c1 <= c2
    ensures StrokeDashoffset(a.(currentValue := c2), pi) <= StrokeDashoffset(a.(currentValue := c1), pi)
  {
    var a1, a2 := a.(currentValue := c1), a.(currentValue := c2);
    PercentageMonotone(a, c1, c2);
    RemainderAntitone(Circumference(pi), Percentage(a1), Percentage(a2),
                      StrokeDashoffset(a1, pi), StrokeDashoffset(a2, pi));
  }

  /** Reverse direction flips the display percentage around 50. */
  lemma DisplayPercentageFlip(a: Attributes)
    requires NonDegenerate(a)
    ensures DisplayPercentage(a.(reverseDirection := true))
            == 100.0 - DisplayPercentage(a.(reverseDirection := false))
  {
  }

  /** A reversed pair reads `max connector min` whatever the current value. */
  lemma ReversedPairIgnoresCurrent(a: Attributes, c: real)
    requires !a.showAsPercentage && a.reverseDirection
    ensures DisplayValue(a.(currentValue := c)) == DisplayValue(a)
  {
  }

  /**
   * Reverse direction flips the bar's fill, but not the circles': their
   * geometry is drawn from the unflipped percentage.
   */
  lemma ReverseFlipsOnlyTheBar(a: Attributes, pi: real)
    requires NonDegenerate(a) && pi > 0.0
    ensures FillWidth(a.(reverseDirection := !a.reverseDirection)) == 100.0 - FillWidth(a)
    ensures ClipInset(a.(reverseDirection := !a.reverseDirection)) == ClipInset(a)
    ensures StrokeDashoffset(a.(reverseDirection := !a.reverseDirection), pi) == StrokeDashoffset(a, pi)
  {
  }

  /** A named gradient preset of the color panel. */
  datatype Preset = Preset(name: string, start: string, end: string)

  /** The presets offered in the color panel, in menu order. */
  const GradientPresets: seq<Preset> := [
    Preset("Ocean Blue", "#4facfe", "#00f2fe"),
    Preset("Sunset", "#fa709a", "#fee140"),
    Preset("Purple Dream", "#a18cd1", "#fbc2eb"),
    Preset("Fresh Green", "#56ab2f", "#a8e063"),
    Preset("Fire", "#f83600", "#f9d423"),
    Preset("Cool Blues", "#2193b0", "#6dd5ed")
  ]

  /** The six presets have six different names, so each name picks out one preset. */
  lemma GradientPresetNamesDistinct()
    ensures |GradientPresets| == 6
    ensures forall i, j :: 0 <= i < j < |GradientPresets| ==> GradientPresets[i].name != GradientPresets[j].name
  {
  }

  /** `presets.find((p) => p.name === name)`: the first preset with that name. */
  function FindPreset(presets: seq<Preset>, name: string): (r: Option<Preset>)
    ensures r.None? <==> forall i :: 0 <= i < |presets| ==> presets[i].name != name
    ensures r.Some? ==> exists i :: 0 <= i < |presets| && presets[i] == r.value
                                   && r.value.name == name
                                   && forall j :: 0 <= j < i ==> presets[j].name != name
  {
    if presets == [] then None
    else if presets[0].name == name then Some(presets[0])
    else FindPreset(presets[1..], name)
  }

  /**
   * Choosing a preset in the select control: a known name sets both gradient
   * colors to that preset's pair; any other value leaves the attributes alone.
   */
  function ApplyPreset(a: Attributes, value: string): (r: Attributes)
    ensures r.(gradientStart := a.gradientStart, gradientEnd := a.gradientEnd) == a
    ensures r != a ==> exists i :: 0 <= i < |GradientPresets| && GradientPresets[i].name == value
                                 && r.gradientStart == GradientPresets[i].start
                                 && r.gradientEnd == GradientPresets[i].end
  {
    match FindPreset(GradientPresets, value)
    case Some(preset) => a.(gradientStart := preset.start, gradientEnd := preset.end)
    case None => a
  }

  /** Each preset's name selects exactly that preset's colors. */
  lemma PresetSelection(a: Attributes, i: nat)
    requires i < |GradientPresets|
    ensures ApplyPreset(a, GradientPresets[i].name)
            == a.(gradientStart := GradientPresets[i].start, gradientEnd := GradientPresets[i].end)
  {
  }

  /** An empty or unknown name changes nothing. */
  lemma UnknownPresetChangesNothing(a: Attributes, value: string)
    requires forall i :: 0 <= i < |GradientPresets| ==> GradientPresets[i].name != value
    ensures ApplyPreset(a, value) == a
  {
  }

  lemma EmptyPresetChangesNothing(a: Attributes)
    ensures ApplyPreset(a, "") == a
  {
  }
}
