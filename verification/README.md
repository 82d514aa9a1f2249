# Goal Progress block — a Dafny model of its value mapper

The Goal Progress block draws progress towards a numeric goal as a horizontal
"thermometer" bar or as a circle, either outline-stroked or solid-filled. The
block computes the same values in three places:

- the editor preview (`src/edit.js`),
- the saved markup (`src/save.js`),
- the server render template (`src/render.php`).

From the attributes `currentValue`, `minValue`, `maxValue`, `showAsPercentage`,
`reverseDirection` and `labelConnector`, each copy computes these values:

- a fill percentage clamped to [0, 100];
- a display percentage, which is flipped to 100 − p in reverse direction;
- a display value, which is either the rounded percentage followed by `%` or
  the pair `a connector b`;
- the fill width of the bar.

The editor also computes the geometry of the two circle variants. It picks
the variant from the wrapper's class name, and it offers named gradient
presets.

The model is pure, like the source. Each copy is its own module of
functions over exact reals:

- `Edit`, `Save` and `Render` model the three copies;
- `Parity` proves that the copies agree, and it states the worked examples;
- `Numbers` holds clamping and the two rounding functions, JavaScript's
  `Math.round` and PHP's `round`;
- `Strings` holds `includes` and the decimal text of a whole number;
- `Block` holds the shared data: the attributes, the display value and the
  gauge that a rendering shows.

A gauge is the data that a markup fragment carries: the label, the display
value, the colors and the variant's geometry. It is not the markup text.

The display value is a datatype, `Percent(n) | Pair(first, connector,
second)`. `Block.DisplayText` turns it into characters. A percentage becomes
its decimal digits followed by `%`. A pair becomes
`number connector number`, with single spaces around the connector. The host
language's number-to-text conversion is a function parameter.

On the server, PHP's `floatval` of a string and float-to-string conversion
are also parameters, bundled as `Render.Runtime`.

Three facts about the code shape the model:

- The editor draws circles for the circle styles (src/edit.js:212-305), while
  the saved markup (src/save.js:49-70) and the server template
  (src/render.php:42-59) always draw the bar. For a circle style the preview
  and the saved output therefore differ; `Parity.CircleStylesDivergeFromSave`
  states this.
- When `minValue == maxValue` the percentage divides by zero
  (src/edit.js:84, src/save.js:36, src/render.php:28). The model excludes
  that case with a precondition.
- Reverse direction flips the bar's fill. The circles are drawn from the
  unflipped percentage (`Edit.ReverseFlipsOnlyTheBar`).

## Model

| member | source | states |
|---|---|---|
| Numbers.Min | src/edit.js:82-85 | `Math.min` and PHP `min` give one of the two arguments, no larger than either |
| Numbers.Max | src/render.php:26-29 | `Math.max` and PHP `max` give one of the two arguments, no smaller than either |
| Numbers.JsRound | src/edit.js:92 | `Math.round` yields the integer r with r − ½ ≤ x < r + ½ (halves round up) |
| Numbers.PhpRound | src/render.php:36 | PHP `round` yields the nearest integer, with halves rounded away from zero on both signs |
| Numbers.RoundsAgreeOnNonNegative | src/render.php:36 | the two rounding functions agree on every x ≥ 0 |
| Numbers.RoundsDisagreeOnNegativeHalf | src/render.php:36 | the two disagree at −2.5 (−2 against −3), so agreement depends on x ≥ 0 |
| Numbers.RoundPercentInRange | src/edit.js:91-92 | rounding a value in [0, 100] gives an integer in [0, 100] |
| Numbers.RoundComplement | src/edit.js:88-92 | round(100 − p) + round(p) is 100, or 101 exactly when p lies on a half |
| Numbers.ScaledRatio | src/edit.js:82-85 | the unclamped percentage times (max − min) is (current − min)·100; for min < max it is ≤ 0 at or below min and ≥ 100 at or above max |
| Numbers.ScaledRatioMonotone | src/edit.js:82-85 | for min < max the unclamped percentage grows with current |
| Strings.Includes | src/edit.js:73-78 | `includes` is true exactly when the substring occurs at some index |
| Strings.DecimalText | src/edit.js:92 | a whole number's text is non-empty and all digits, with no leading zero |
| Strings.DecimalRoundTrip | src/edit.js:92 | reading the decimal text back gives the number |
| Block.DisplayText | src/edit.js:91-95 | a percentage reads as digits then `%`; a pair reads as first, space, connector, space, second |
| Block.PercentTextRoundTrip | src/edit.js:92 | the text of a percentage display determines the percentage |
| Edit.HasStyle | src/edit.js:73-78 | the truthy-class-name-and-includes test holds exactly when the class name is present and contains the fragment |
| Edit.StyleVariant | src/edit.js:73-79 | no fragment gives bar; the solid fragment gives solid even when outline is also present; outline alone gives outline |
| Edit.Percentage | src/edit.js:82-85 | the result lies in [0, 100] for any current value; for min < max it is 0 at or below min and 100 at or above max; within the range it is the exact proportion |
| Edit.PercentageMonotone | src/edit.js:82-85 | for max > min the percentage never decreases as current grows |
| Edit.DisplayPercentage | src/edit.js:88 | the result lies in [0, 100]; it is 100 − percentage when reversed and the percentage otherwise |
| Edit.DisplayPercentageFlip | src/edit.js:88 | toggling reverse direction maps the display percentage d to 100 − d |
| Edit.DisplayValue | src/edit.js:91-95 | with showAsPercentage: a percentage within ½ of the display percentage and in [0, 100]; otherwise `max connector min` when reversed and `current connector max` when not |
| Edit.ReversedPairIgnoresCurrent | src/edit.js:93-94 | the reversed pair does not depend on currentValue |
| Edit.Circumference | src/edit.js:98-99 | the circumference is positive for a positive π |
| Edit.StrokeDashoffset | src/edit.js:98-100 | the offset lies in [0, C]; offset plus drawn arc equals C; it is 0 at 100% and C at 0% |
| Edit.StrokeDashoffsetAntitone | src/edit.js:98-100 | for max > min the offset never grows as current grows |
| Edit.FillWidth | src/edit.js:224-226 | the bar's fill width is the display percentage |
| Edit.ClipInset | src/edit.js:256 | the solid circle's top clip lies in [0, 100] and adds up to 100 with the percentage |
| Edit.ReverseFlipsOnlyTheBar | src/edit.js:224-256 | reverse direction flips the bar's fill width; the circle clip and dash offset stay unchanged |
| Edit.View | src/edit.js:212-305 | the preview's shape follows the style variant; it shows the display value, label and colors with that variant's geometry |
| Edit.GradientPresetNamesDistinct | src/edit.js:40-47 | the preset list has six entries with pairwise different names |
| Edit.FindPreset | src/edit.js:178 | None exactly when no preset has the name; otherwise the first preset with that name |
| Edit.ApplyPreset | src/edit.js:177-185 | only the gradient colors can change, and only to the pair of a preset with that name |
| Edit.PresetSelection | src/edit.js:177-185 | each preset's name sets both gradient colors to that preset's pair |
| Edit.UnknownPresetChangesNothing | src/edit.js:177-185 | a name that no preset has leaves the attributes unchanged |
| Edit.EmptyPresetChangesNothing | src/edit.js:169-185 | the empty "Choose a preset..." value leaves the attributes unchanged |
| Save.Percentage | src/save.js:34-37 | lies in [0, 100], with 0 at or below min and 100 at or above max when min < max, and the exact proportion in range |
| Save.DisplayPercentage | src/save.js:40 | lies in [0, 100]; it is the reverse flip of the percentage |
| Save.DisplayValue | src/save.js:43-47 | makes the same three-way choice of percent, reversed pair or forward pair |
| Save.FillWidth | src/save.js:62 | the fill width is the display percentage |
| Save.View | src/save.js:49-70 | the saved markup is always a bar, with fill width in [0, 100] equal to the display percentage |
| Render.IsSet | src/render.php:15-22 | `isset` holds exactly for a present key whose value is not null |
| Render.Truthy | src/render.php:19-23 | null, false, 0, '' and '0' are falsy; true, every non-zero number and every other string are truthy |
| Render.NotEmpty | src/render.php:19-23 | `! empty` is false for a missing key and otherwise the truthiness of the value |
| Render.FloatVal | src/render.php:16-18 | `floatval` keeps numbers, maps null and false to 0 and true to 1 |
| Render.StrVal | src/render.php:38-54 | string conversion keeps strings, maps null and false to '' and true to '1' |
| Render.TextOr | src/render.php:20-22 | a text attribute that is not set reads as '' |
| Render.NumberOr | src/render.php:16-18 | a numeric attribute that is not set reads as its default |
| Render.Locals | src/render.php:15-23 | a missing label, connector or color is ''; current and min default to 0; max defaults to 100; a missing boolean is false |
| Render.AllDefaults | src/render.php:15-29 | with no attributes, the percentage is 0 and the output is a bar of width 0 whose display value is the pair 0, '', 100 |
| Render.Percentage | src/render.php:26-29 | lies in [0, 100], with 0 at or below min and 100 at or above max when min < max, and the exact proportion in range |
| Render.DisplayPercentage | src/render.php:32 | lies in [0, 100]; it is the reverse flip of the percentage |
| Render.DisplayValue | src/render.php:35-39 | makes the same three-way choice, rounding the percentage with PHP `round` |
| Render.FillWidth | src/render.php:53 | the fill width is the display percentage |
| Render.Output | src/render.php:11-59 | no output unless `$attributes` is an array; otherwise a bar whose fill width lies in [0, 100] |
| Parity.EditSaveAgree | src/save.js:34-47 | the editor and the saved markup agree on percentage, display percentage, display value and fill width |
| Parity.EditMatchesSaveForBar | src/save.js:49-70 | for the bar style, the preview and the saved markup show the same gauge |
| Parity.CircleStylesDivergeFromSave | src/save.js:49-70 | for a circle style, the preview is a circle while the saved markup stays a bar |
| Parity.SaveRenderAgree | src/render.php:26-39 | over exact reals, the saved markup and the server agree on all four values despite the different rounding functions; their text agrees only up to number formatting, and with doubles the rounded percentage can differ (see Left out) |
| Parity.LocalsOfPhpAttributes | src/render.php:15-23 | the server reads back exactly the attributes it was given |
| Parity.ServerMatchesSave | src/render.php:42-59 | over exact reals, the server's output for the same attributes is the saved markup's gauge; the text agrees only up to number formatting, and with doubles the rounded percentage can differ (see Left out) |
| Parity.ReversedPercentComplement | src/edit.js:88-92 | the forward and reversed percentage displays sum to 100 or 101 |
| Parity.ReversedPercentAtHalf | src/edit.js:88-92 | at 12.5% the forward display reads 13% and the reversed one 88% |
| Parity.ExampleQuarterPercent | src/edit.js:82-95 | 25 in 0..100 as a percentage reads "25%", with fill width 25 |
| Parity.ExampleQuarterPair | src/edit.js:91-95 | 25 in 0..100 with connector "of" reads the text of 25, then " of ", then the text of 100 |
| Parity.ExampleQuarterReversed | src/edit.js:88-92 | reversed, 25 in 0..100 reads "75%", with fill width 75 |
| Parity.ExampleHalfCircle | src/edit.js:98-100 | at 50% the dash offset is half the circumference |

## Left out

- Block registration (`goal-progress-tracker.php`) is WordPress plumbing and is not modelled.
- The React tree, the inspector panels and their widgets, `useBlockProps`,
  translations and `setAttributes` are UI and host calls. `Edit.ApplyPreset`
  returns the updated attributes instead of calling the host.
- The bounds of the editor's range controls (src/edit.js:112-134) are
  enforced by a host widget. They appear only as the `maxValue > minValue`
  precondition of the monotonicity lemmas.
- `minValue == maxValue` is excluded by precondition. There the JavaScript
  copies divide by zero:
  - a current value above the minimum gives +Infinity, and the clamp turns
    it into 100;
  - a current value below the minimum gives −Infinity, which clamps to 0;
  - a current value equal to the minimum gives NaN. The bar's fill width
    becomes `NaN%` (src/edit.js:224-226, src/save.js:62). With
    showAsPercentage set, the display also reads "NaN%"; without it, the
    display shows the pair, which does not use the percentage.

  PHP 8 throws `DivisionByZeroError` at src/render.php:28. So in this case
  the copies disagree: the editor and the saved markup draw a gauge, while
  the server template fails.
- `esc_html`, `esc_attr` and `get_block_wrapper_attributes` are WordPress
  functions and are not part of this model. Gauges carry the text before
  escaping.
- Numbers are exact reals, not IEEE-754 doubles.
- π is a positive parameter, not its value.
- Number-to-text conversion for the values of a pair is a parameter.
  JavaScript's and PHP's float formatting are not modelled.
- PHP's `floatval` of a string is a parameter.
- Numbers.PhpRound: does not model PHP's pre-rounding of values lying close
  to a half. Over exact reals there is nothing to pre-round, but over doubles
  it changes results (next line).
- Parity.SaveRenderAgree and Parity.ServerMatchesSave: the rounding
  agreement holds over exact reals only. Take currentValue 57 in 0..200
  with showAsPercentage set:
  - src/save.js:36 and src/render.php:28 compute the double
    28.499999999999996;
  - `Math.round` (src/save.js:44, src/edit.js:92) gives 28, so the editor
    and the saved markup read "28%";
  - PHP's `round` (src/render.php:36), as implemented at least up to PHP 8.3,
    pre-rounds the value to 15 significant digits, giving 28.5, and then
    rounds to 29, so the server output reads "29%".

  All three model copies give 29 for this input, because the model computes
  the exact value 28.5.
- Attribute values that are themselves arrays are not modelled, because the
  block's attributes are scalars.
- The model assumes the editor receives attributes that the host has
  already completed. The attribute schema with its defaults is not part of
  this model. The code allows labelConnector to be absent: src/edit.js:154
  writes `labelConnector || ''`. If it is absent, the JavaScript pair text
  (src/edit.js:94-95, src/save.js:46-47) prints `undefined` where the
  server template prints '' (src/render.php:20). The model does not capture
  this difference.
- The literal SVG and CSS, the gradient element ids and the transition hint
  are presentation only and are not modelled.
