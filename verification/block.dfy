/**
 * The values shared by the three renderings of a Goal Progress block: the
 * block's attributes, the display value, the style variants and the gauge a
 * rendering produces (the data a markup fragment carries, not its text).
 */
module Block {
  import opened Strings

  datatype Option<T> = None | Some(value: T)

  /**
   * The block attributes as the editor scripts receive them. Numbers are
   * exact reals; the host fills in absent attributes before the scripts run.
   */
  datatype Attributes = Attributes(
    goalLabel: string,
    currentValue: real,
    minValue: real,
    maxValue: real,
    showAsPercentage: bool,
    labelConnector: string,
    gradientStart: string,
    gradientEnd: string,
    reverseDirection: bool)

  /** The percentage formula divides by maxValue - minValue. */
  predicate NonDegenerate(a: Attributes)
  {
    a.maxValue != a.minValue
  }

  /**
   * The text shown beside the label, before it is turned into characters:
   * a rounded percentage, or two numbers joined by the label connector.
   */
  datatype DisplayValue =
    | Percent(rounded: nat)
    | Pair(first: real, connector: string, second: real)

  /**
   * The characters of a display value. `numberText` is the host language's
   * number-to-text conversion, used for the two numbers of a pair.
   */
  function DisplayText(d: DisplayValue, numberText: real -> string): (s: string)
    ensures d.Percent? ==> |s| >= 2 && s[|s| - 1] == '%' && IsDigits(s[..|s| - 1])
    ensures d.Pair? ==> s == numberText(d.first) + " " + d.connector + " " + numberText(d.second)
  {
    match d
    case Percent(n) =>
      var digits := DecimalText(n);
      assert (digits + "%")[..|digits|] == digits;
      digits + "%"
    case Pair(x, c, y) => numberText(x) + " " + c + " " + numberText(y)
  }

  /** Reads the text of a percentage display value back. */
  function ParsePercent(s: string): (r: Option<nat>)
  {
    if |s| >= 2 && s[|s| - 1] == '%' && IsDigits(s[..|s| - 1])
    then Some(ParseDecimal(s[..|s| - 1]))
    else None
  }

  /** The text of a percentage display value determines the percentage. */
  lemma PercentTextRoundTrip(n: nat, numberText: real -> string)
    ensures ParsePercent(DisplayText(Percent(n), numberText)) == Some(n)
  {
    var digits := DecimalText(n);
    assert (digits + "%")[..|digits|] == digits;
    DecimalRoundTrip(n);
  }

  /** The three style variants a block can take. */
  datatype Variant = BarStyle | CircleOutline | CircleSolid

  /**
   * What a rendering shows: the label, the display value, the gradient colors
   * and the variant's geometry (all in percent, except the stroke lengths).
   */
  datatype Gauge =
    | Bar(goalLabel: string, value: DisplayValue, fillWidth: real,
          gradientStart: string, gradientEnd: string)
    | SolidCircle(goalLabel: string, value: DisplayValue, clipInsetTop: real,
                  gradientStart: string, gradientEnd: string)
    | OutlineCircle(goalLabel: string, value: DisplayValue, dashArray: real, dashOffset: real,
                    gradientStart: string, gradientEnd: string)
}
