/**
 * The block's server render template (src/render.php): the guard on the
 * attribute array, attribute defaulting, its own copy of the goal value
 * mapper, and a bar, the only shape the server output has.
 */
module Render {
  import opened Numbers
  import opened Block

  /** A scalar PHP value, as stored in the block's attribute array. */
  datatype PhpValue = Null | Bool(b: bool) | Num(x: real) | Str(s: string)

  /** What `$attributes` holds when the template runs. */
  datatype Input = Unset | NotArray(v: PhpValue) | AttributeArray(entries: map<string, PhpValue>)

  /**
   * PHP's conversions between numbers and text, which the model does not
   * define: float to string, and the numeric prefix of a string.
   */
  datatype Runtime = Runtime(floatToString: real -> string, stringToFloat: string -> real)

  /** `isset($attributes[key])`: present and not null. */
  predicate IsSet(m: map<string, PhpValue>, key: string)
    ensures IsSet(m, key) ==> key in m
    ensures key in m && m[key] == Null ==> !IsSet(m, key)
    ensures key in m && m[key] != Null ==> IsSet(m, key)
  {
    key in m && m[key] != Null
  }

  /** PHP truthiness: false, 0, "", "0" and null are falsy. */
  predicate Truthy(v: PhpValue)
    ensures v in {Null, Bool(false), Num(0.0), Str(""), Str("0")} ==> !Truthy(v)
    ensures v == Bool(true) ==> Truthy(v)
    ensures v.Num? && v.x != 0.0 ==> Truthy(v)
    ensures v.Str? && v.s != "" && v.s != "0" ==> Truthy(v)
  {
    match v
    case Null => false
    case Bool(b) => b
    case Num(x) => x != 0.0
    case Str(s) => s != "" && s != "0"
  }

  /** `! empty($attributes[key])`. */
  predicate NotEmpty(m: map<string, PhpValue>, key: string)
    ensures key !in m ==> !NotEmpty(m, key)
    ensures key in m ==> (NotEmpty(m, key) <==> Truthy(m[key]))
  {
    key in m && Truthy(m[key])
  }

  /** `floatval`. */
  function FloatVal(v: PhpValue, rt: Runtime): (r: real)
    ensures v.Num? ==> r == v.x
    ensures v == Null || v == Bool(false) ==> r == 0.0
    ensures v == Bool(true) ==> r == 1.0
  {
    match v
    case Null => 0.0
    case Bool(b) => if b then 1.0 else 0.0
    case Num(x) => x
    case Str(s) => rt.stringToFloat(s)
  }

  /** Conversion to string, as when the value is echoed. */
  function StrVal(v: PhpValue, rt: Runtime): (r: string)
    ensures v.Str? ==> r == v.s
    ensures v == Null || v == Bool(false) ==> r == ""
    ensures v == Bool(true) ==> r == "1"
  {
    match v
    case Null => ""
    case Bool(b) => if b then "1" else ""
    case Num(x) => rt.floatToString(x)
    case Str(s) => s
  }

  /** A text attribute, '' when it is not set. */
  function TextOr(m: map<string, PhpValue>, key: string, rt: Runtime): (r: string)
    ensures !IsSet(m, key) ==> r == ""
    ensures IsSet(m, key) ==> r == StrVal(m[key], rt)
  {
    if IsSet(m, key) then StrVal(m[key], rt) else ""
  }

  /** A numeric attribute through `floatval`, `default` when it is not set. */
  function NumberOr(m: map<string, PhpValue>, key: string, default: real, rt: Runtime): (r: real)
    ensures !IsSet(m, key) ==> r == default
    ensures IsSet(m, key) ==> r == FloatVal(m[key], rt)
  {
    if IsSet(m, key) then FloatVal(m[key], rt) else default
  }

  /** The template's locals, read from the attribute array with their defaults. */
  function Locals(m: map<string, PhpValue>, rt: Runtime): (a: Attributes)
    ensures !IsSet(m, "goalLabel") ==> a.goalLabel == ""
    ensures !IsSet(m, "currentValue") ==> a.currentValue == 0.0
    ensures !IsSet(m, "minValue") ==> a.minValue == 0.0
    ensures !IsSet(m, "maxValue") ==> a.maxValue == 100.0
    ensures !("showAsPercentage" in m) ==> !a.showAsPercentage
    ensures !IsSet(m, "labelConnector") ==> a.labelConnector == ""
    ensures !IsSet(m, "gradientStart") ==> a.gradientStart == ""
    ensures !IsSet(m, "gradientEnd") ==> a.gradientEnd == ""
    ensures !("reverseDirection" in m) ==> !a.reverseDirection
  {
    Attributes(
      goalLabel := TextOr(m, "goalLabel", rt),
      currentValue := NumberOr(m, "currentValue", 0.0, rt),
      minValue := NumberOr(m, "minValue", 0.0, rt),
      maxValue := NumberOr(m, "maxValue", 100.0, rt),
      showAsPercentage := NotEmpty(m, "showAsPercentage"),
      labelConnector := TextOr(m, "labelConnector", rt),
      gradientStart := TextOr(m, "gradientStart", rt),
      gradientEnd := TextOr(m, "gradientEnd", rt),
      reverseDirection := NotEmpty(m, "reverseDirection"))
  }

  /** `$percentage`: clamped to [0, 100], 0 at minValue and 100 at maxValue. */
  function Percentage(a: Attributes): (r: real)
    requires NonDegenerate(a)
    ensures 0.0 <= r <= 100.0
    ensures a.minValue < a.maxValue && a.currentValue <= a.minValue ==> r == 0.0
    ensures a.minValue < a.maxValue && a.currentValue >= a.maxValue ==> r == 100.0
    ensures a.minValue <= a.currentValue <= a.maxValue ==>
              r * (a.maxValue - a.minValue) == (a.currentValue - a.minValue) * 100.0
  {
    var ratio := ((a.currentValue - a.minValue) / (a.maxValue - a.minValue)) * 100.0;
    ScaledRatio(a.currentValue, a.minValue, a.maxValue);
    Min(100.0, Max(0.0, ratio))
  }

  /** `$displayPercentage`: 100 - percentage when reverseDirection is set. */
  function DisplayPercentage(a: Attributes): (r: real)
    requires NonDegenerate(a)
    ensures 0.0 <= r <= 100.0
    ensures a.reverseDirection ==> r + Percentage(a) == 100.0
    ensures !a.reverseDirection ==> r == Percentage(a)
  {
    if a.reverseDirection then 100.0 - Percentage(a) else Percentage(a)
  }

  /** `$displayValue`, rounded with PHP's `round`. */
  function DisplayValue(a: Attributes): (r: DisplayValue)
    requires a.showAsPercentage ==> NonDegenerate(a)
    ensures a.showAsPercentage ==>
              r.Percent? && r.rounded <= 100
              && r.rounded as real - 0.5 <= DisplayPercentage(a) < r.rounded as real + 0.5
    ensures !a.showAsPercentage && a.reverseDirection ==>
              r == Pair(a.maxValue, a.labelConnector, a.minValue)
    ensures !a.showAsPercentage && !a.reverseDirection ==>
              r == Pair(a.currentValue, a.labelConnector, a.maxValue)
  {
    if a.showAsPercentage then Percent(PhpRound(DisplayPercentage(a)))
    else if a.reverseDirection then Pair(a.maxValue, a.labelConnector, a.minValue)
    else Pair(a.currentValue, a.labelConnector, a.maxValue)
  }

  /** The bar's fill width in percent. */
  function FillWidth(a: Attributes): (r: real)
    requires NonDegenerate(a)
    ensures r == DisplayPercentage(a)
  {
    if a.reverseDirection then 100.0 - Percentage(a) else Percentage(a)
  }

  /** The template divides by maxValue - minValue once it has an array. */
  predicate Renderable(input: Input, rt: Runtime)
  {
    input.AttributeArray? ==> NonDegenerate(Locals(input.entries, rt))
  }

  /**
   * The template's output: nothing when `$attributes` is unset or not an
   * array, and otherwise a bar.
   */
  function Output(input: Input, rt: Runtime): (r: Option<Gauge>)
    requires Renderable(input, rt)
    ensures r.None? <==> !input.AttributeArray?
    ensures r.Some? ==> r.value.Bar? && 0.0 <= r.value.fillWidth <= 100.0
    ensures r.Some? ==> r.value.fillWidth == DisplayPercentage(Locals(input.entries, rt))
    ensures r.Some? ==> r.value.value == DisplayValue(Locals(input.entries, rt))
  {
    match input
    case AttributeArray(m) =>
      var a := Locals(m, rt);
      Some(Bar(a.goalLabel, DisplayValue(a), FillWidth(a), a.gradientStart, a.gradientEnd))
    case _ => None
  }

  /** With no attributes at all the bar is empty and the value is the pair 0, "", 100. */
  lemma AllDefaults(rt: Runtime)
    ensures Locals(map[], rt) == Attributes("", 0.0, 0.0, 100.0, false, "", "", "", false)
    ensures Percentage(Locals(map[], rt)) == 0.0
    ensures Output(AttributeArray(map[]), rt)
            == Some(Bar("", Pair(0.0, "", 100.0), 0.0, "", ""))
  {
  }
}
