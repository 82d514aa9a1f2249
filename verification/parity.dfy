/**
 * Agreement between the three copies of the goal value mapper: the editor
 * preview (Edit), the saved markup (Save) and the server template (Render),
 * and a few concrete inputs worked through the editor's copy.
 */
module Parity {
  import opened Numbers
  import opened Block
  import Edit
  import Save
  import Render

  /** The editor and the saved markup compute the same numbers and display value. */
  lemma EditSaveAgree(a: Attributes)
    requires NonDegenerate(a)
    ensures Edit.Percentage(a) == Save.Percentage(a)
    ensures Edit.DisplayPercentage(a) == Save.DisplayPercentage(a)
    ensures Edit.DisplayValue(a) == Save.DisplayValue(a)
    ensures Edit.FillWidth(a) == Save.FillWidth(a)
  {
  }

  /** For the bar style the preview and the saved markup show the same gauge. */
  lemma EditMatchesSaveForBar(a: Attributes, className: Option<string>, pi: real)
    requires NonDegenerate(a) && pi > 0.0
    requires !Edit.Mentions(className, Edit.OutlineClass) && !Edit.Mentions(className, Edit.SolidClass)
    ensures Edit.View(a, className, pi) == Save.View(a)
  {
  }

  /** For either circle style the preview is a circle but the saved markup stays a bar. */
  lemma CircleStylesDivergeFromSave(a: Attributes, className: Option<string>, pi: real)
    requires NonDegenerate(a) && pi > 0.0
    requires Edit.Mentions(className, Edit.OutlineClass) || Edit.Mentions(className, Edit.SolidClass)
    ensures !Edit.View(a, className, pi).Bar? && Save.View(a).Bar?
  {
  }

  /**
   * The saved markup and the server template agree, although one rounds
   * with `Math.round` and the other with PHP's `round`: the display
   * percentage is never negative.
   */
  lemma SaveRenderAgree(a: Attributes)
    requires NonDegenerate(a)
    ensures Save.Percentage(a) == Render.Percentage(a)
    ensures Save.DisplayPercentage(a) == Render.DisplayPercentage(a)
    ensures Save.DisplayValue(a) == Render.DisplayValue(a)
    ensures Save.FillWidth(a) == Render.FillWidth(a)
  {
    if a.showAsPercentage {
      RoundsAgreeOnNonNegative(Save.DisplayPercentage(a));
    }
  }

  /** The attribute array the server receives for the attributes a. */
  function PhpAttributes(a: Attributes): map<string, Render.PhpValue>
  {
    map[
      "goalLabel" := Render.Str(a.goalLabel),
      "currentValue" := Render.Num(a.currentValue),
      "minValue" := Render.Num(a.minValue),
      "maxValue" := Render.Num(a.maxValue),
      "showAsPercentage" := Render.Bool(a.showAsPercentage),
      "labelConnector" := Render.Str(a.labelConnector),
      "gradientStart" := Render.Str(a.gradientStart),
      "gradientEnd" := Render.Str(a.gradientEnd),
      "reverseDirection" := Render.Bool(a.reverseDirection)
    ]
  }

  /** Reading the attribute array back gives the same attributes. */
  lemma LocalsOfPhpAttributes(a: Attributes, rt: Render.Runtime)
    ensures Render.Locals(PhpAttributes(a), rt) == a
  {
  }

  /** The server output for the same attributes is the saved markup's gauge. */
  lemma ServerMatchesSave(a: Attributes, rt: Render.Runtime)
    requires NonDegenerate(a)
    ensures Render.Output(Render.AttributeArray(PhpAttributes(a)), rt) == Some(Save.View(a))
  {
    LocalsOfPhpAttributes(a, rt);
    SaveRenderAgree(a);
  }

  /**
   * A reversed percentage display and the forward one sum to 100, or to 101
   * when the fill percentage sits exactly on a half.
   */
  lemma ReversedPercentComplement(a: Attributes)
    requires NonDegenerate(a) && a.showAsPercentage
    ensures var forward := Edit.DisplayValue(a.(reverseDirection := false)).rounded;
            var reversed := Edit.DisplayValue(a.(reverseDirection := true)).rounded;
            forward + reversed == 100 || forward + reversed == 101
  {
    RoundComplement(Edit.Percentage(a));
  }

  /** At 12.5% the forward display reads 13% and the reversed one 88%. */
  lemma ReversedPercentAtHalf()
    ensures var a := Attributes("", 12.5, 0.0, 100.0, true, "", "", "", false);
            Edit.DisplayValue(a) == Percent(13)
            && Edit.DisplayValue(a.(reverseDirection := true)) == Percent(88)
  {
    var a := Attributes("", 12.5, 0.0, 100.0, true, "", "", "", false);
    assert Edit.Percentage(a) == 12.5;
  }

  /** 25 of 0..100 as a percentage: "25%" and a quarter-filled bar. */
  lemma ExampleQuarterPercent(numberText: real -> string)
    ensures var a := Attributes("", 25.0, 0.0, 100.0, true, "", "", "", false);
            DisplayText(Edit.DisplayValue(a), numberText) == "25%" && Edit.FillWidth(a) == 25.0
  {
    var a := Attributes("", 25.0, 0.0, 100.0, true, "", "", "", false);
    assert Edit.Percentage(a) == 25.0;
  }

  /** 25 of 0..100 as a pair with connector "of": "25 of 100". */
  lemma ExampleQuarterPair(numberText: real -> string)
    ensures var a := Attributes("", 25.0, 0.0, 100.0, false, "of", "", "", false);
            DisplayText(Edit.DisplayValue(a), numberText) == numberText(25.0) + " of " + numberText(100.0)
  {
  }

  /** 25 of 0..100 reversed: "75%" and a three-quarter bar. */
  lemma ExampleQuarterReversed(numberText: real -> string)
    ensures var a := Attributes("", 25.0, 0.0, 100.0, true, "", "", "", true);
            DisplayText(Edit.DisplayValue(a), numberText) == "75%" && Edit.FillWidth(a) == 75.0
  {
    var a := Attributes("", 25.0, 0.0, 100.0, true, "", "", "", true);
    assert Edit.Percentage(a) == 25.0;
  }

  /** Half way round the outline circle the dash offset is half the circumference. */
  lemma ExampleHalfCircle(a: Attributes, pi: real)
    requires NonDegenerate(a) && pi > 0.0 && Edit.Percentage(a) == 50.0
    ensures Edit.StrokeDashoffset(a, pi) == Edit.Circumference(pi) * 0.5
  {
  }
}
