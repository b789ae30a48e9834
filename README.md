# tvv-plugin core, modelled in Dafny

tvv-plugin is a browser extension that builds a report for a CML-Bench loadcase. It
collects the loadcase's targets and the selected simulations with their key results:
values, pictures and curves. It compares every curve with the curve of the same name in
the target simulation. Then it fills the placeholders of an HTML report template.

This project models the computational core of the extension:

- **`CurveMath`** (`js/utils/math.js`), the curve comparison engine:
  - `linspace`, which builds a grid by accumulation;
  - the bisection search `findIntervalBorderIndex`;
  - `linearInterpolation` and `evaluateLinear`;
  - the `CurveComparator` class. It clips a sample curve and a target curve to their
    common abscissa interval and resamples both on a common grid. It then computes a
    squared-trapezoid area metric with a sample-to-target ratio, the sum of squared
    differences and the maximum absolute deviation.
- **`Utils`** (`js/utils/utils.js`):
  - zero padding (`format0d`);
  - trimming a set of characters from both ends (`trimCharacters`);
  - decoding the channels of a hexadecimal colour (`getR`, `getG`, `getB`);
  - the red–gold–green gradient that paints a score in [0, 100] (`value2color`).
- **`Background`** (`js/background/background.js`):
  - the target records and the `Target` constructor;
  - `removePrefix`;
  - the `Curve` class and its `compareWithTarget`;
  - `getAllCurvesNames`, which groups the curves of all simulations by name.
- **`Parser`** (`js/report/parser.js`): the `TemplateParser` class and the placeholder
  dictionary its constructor builds (`#buildValidPlaceholders`).
- **`Parameters`** (`js/common/parameters.js`) and **`Placeholders`**
  (`js/utils/placeholders.js`): the page-size limits, the criterion strings and the
  placeholder tokens, copied literally.
- **`Wrappers`**: `Option` (a value that may be `null`) and `Result` (a value or a thrown
  error).

The loops of the source are methods with loop invariants. Each method is proved equal to
a reference function: the accumulated grid equals an evenly spaced grid, the bisection
agrees with a linear scan, and the dictionary equals the result of a sequence of
assignments. The properties are lemmas about those reference functions.

Numbers are exact reals. A division by zero in the area ratio yields the `Number`
datatype's `NaN` or `Infinity`, as it does in JavaScript. Numbers that the server sends
and the extension only passes on are kept as text: target values, tolerances, a task's
cores and memory. `None` stands for `null`. The text JavaScript prints for a finite
metric is the parameter `format`.

A zero target area makes the area ratio a division by zero. The model gives `NaN` or
`Infinity`, as JavaScript does (`CurveMath.Divide`, `CurveMath.DisjointCurvesGiveNaNRatio`).

A thrown error is a `Failure`. Besides the explicit range and length checks of
`value2color` and `getR`, `getG` and `getB`, two errors come from JavaScript itself. A curve named like a property of
`Object.prototype` (`toString`, `constructor`, `__proto__`, …) makes `getAllCurvesNames`
throw. A simulation whose latest task is `null` makes building the placeholder dictionary
throw. A task is `null` when the server did not answer it with status 200.

## Model

| member | source | states |
|---|---|---|
| CurveMath.Divide | tvv-plugin/chrome/tvv-plugin/js/utils/math.js:57 | a JavaScript division is finite exactly when the divisor is non-zero, and then the quotient times the divisor is the dividend; 0/0 is NaN and a positive number over 0 is Infinity |
| CurveMath.Sq | tvv-plugin/chrome/tvv-plugin/js/utils/math.js:65 | `Math.pow(v, 2)` is never negative and is zero exactly for zero |
| CurveMath.Abs | tvv-plugin/chrome/tvv-plugin/js/utils/math.js:73 | `Math.abs(v)` is non-negative and is `v` or `-v` |
| CurveMath.Linspace | tvv-plugin/chrome/tvv-plugin/js/utils/math.js:89-97 | the result is empty when `a > b`; otherwise it starts at `a`; element `i` is `a + i*n`; every element lies in `[a, b]`; the elements ascend strictly; one more step would pass `b` |
| CurveMath.StepBound | tvv-plugin/chrome/tvv-plugin/js/utils/math.js:92-95 | with a positive step only finitely many running values stay at or below `b`, so the `linspace` loop exits |
| CurveMath.LinspaceNeverExits | tvv-plugin/chrome/tvv-plugin/js/utils/math.js:92-95 | with `a <= b` and a step that is not positive, every running value stays at or below `b`, so the loop never exits |
| CurveMath.AccumulatedGridIsEvenGrid | tvv-plugin/chrome/tvv-plugin/js/utils/math.js:30-32 | accumulating the step `(b - a)/(n - 1)` from `a` while at or below `b` yields exactly the `n` evenly spaced points from `a` to `b` |
| CurveMath.Narrow | tvv-plugin/chrome/tvv-plugin/js/utils/math.js:133-138 | one bisection step keeps the left border at or below the point and the right border above it (or at the end), and strictly shrinks a range wider than 1 |
| CurveMath.FindIntervalBorderIndex | tvv-plugin/chrome/tvv-plugin/js/utils/math.js:121-140 | returns 0 below the first element and the last index above the last element; otherwise returns the left border `j` (or `j + 1` for the right border) with `0 <= j <= len-2`, `x[j] <= p`, and `p < x[j+1]` unless `j+1` is the last index |
| CurveMath.BisectionStallsOnSingleAbscissa | tvv-plugin/chrome/tvv-plugin/js/utils/math.js:129-138 | with one abscissa equal to the point, neither early return is taken and the state `(0, 0)` is a fixed point of the bisection whose width never reaches 1 |
| CurveMath.LinearInterpolation | tvv-plugin/chrome/tvv-plugin/js/utils/math.js:152-156 | the line passes through both of its nodes: `f(x0) = y0` and `f(x1) = y1` |
| CurveMath.LinearInterpolationBetween | tvv-plugin/chrome/tvv-plugin/js/utils/math.js:152-156 | between its two nodes the line stays between their ordinates |
| CurveMath.SegmentFromFinds | tvv-plugin/chrome/tvv-plugin/js/utils/math.js:174-176 | on ascending abscissae, an interval that brackets the point (or clamps it at either end) is the one the reference scan chooses |
| CurveMath.InterpolateAtAbscissa | tvv-plugin/chrome/tvv-plugin/js/utils/math.js:170-180 | evaluating at an original abscissa reproduces that abscissa's ordinate |
| CurveMath.InterpolateWithinRange | tvv-plugin/chrome/tvv-plugin/js/utils/math.js:170-180 | inside the abscissa range the chosen interval brackets the point and the value lies between the interval's two ordinates |
| CurveMath.EvaluateLinear | tvv-plugin/chrome/tvv-plugin/js/utils/math.js:170-180 | one result per point, each the linear interpolation on the interval found by bisection (the last index is decremented), which equals the reference interpolation |
| CurveMath.SquaredArea | tvv-plugin/chrome/tvv-plugin/js/utils/math.js:44-47 | the squared-trapezoid area metric is never negative |
| CurveMath.SumOfSquares | tvv-plugin/chrome/tvv-plugin/js/utils/math.js:61-68 | the sum of squared differences is never negative, and it is zero exactly when the two ordinate arrays agree |
| CurveMath.MaxDeviation | tvv-plugin/chrome/tvv-plugin/js/utils/math.js:70-79 | the maximum deviation is non-negative, at least every absolute difference, and equal to one of them (or 0) |
| CurveMath.MaxDeviationSymmetric | tvv-plugin/chrome/tvv-plugin/js/utils/math.js:70-79 | swapping sample and target leaves the maximum deviation unchanged |
| CurveMath.SumOfSquaresSymmetric | tvv-plugin/chrome/tvv-plugin/js/utils/math.js:61-68 | swapping sample and target leaves the sum of squares unchanged |
| CurveMath.MaxDeviationZeroIffEqual | tvv-plugin/chrome/tvv-plugin/js/utils/math.js:70-79 | the maximum deviation is zero exactly when the ordinate arrays agree |
| CurveMath.EvenGridShape | tvv-plugin/chrome/tvv-plugin/js/utils/math.js:30-32 | an evenly spaced grid over `[a, b]` starts at `a`, ends at `b`, stays inside and ascends strictly |
| CurveMath.CommonGridShape | tvv-plugin/chrome/tvv-plugin/js/utils/math.js:25-32 | the common grid starts at the larger first abscissa, ends at the smaller last one and ascends strictly. It has `2*max(lenS, lenT)` points when the lower end is below the upper end, and none when it is above. When the two ends meet, this reference grid is also empty, but the source's `linspace` never returns there (`CurveMath.LinspaceNeverExits`), so the comparator excludes that case (see Left out) |
| CurveMath.CommonGridWithinBothCurves | tvv-plugin/chrome/tvv-plugin/js/utils/math.js:25-35 | every grid point lies within both curves' abscissa ranges, so resampling never extrapolates |
| CurveMath.ResampleAtSampleAbscissa | tvv-plugin/chrome/tvv-plugin/js/utils/math.js:34 | a grid point that coincides with a sample abscissa gets that abscissa's ordinate |
| CurveMath.CurveComparator.constructor | tvv-plugin/chrome/tvv-plugin/js/utils/math.js:10-17 | the three metric fields are the area metrics, sum of squares and maximum deviation of the one reference resampling of the two curves |
| CurveMath.CurveComparator.TransformToCommonAbscissa | tvv-plugin/chrome/tvv-plugin/js/utils/math.js:24-41 | clipping, accumulating the grid and interpolating both curves gives the reference resampling |
| CurveMath.CurveComparator.CompareByAreaMetric | tvv-plugin/chrome/tvv-plugin/js/utils/math.js:43-59 | the two loops compute each curve's squared-trapezoid area, and the ratio is `(s - t)/t` as a JavaScript division |
| CurveMath.CurveComparator.CompareBySumOfSquaresMetric | tvv-plugin/chrome/tvv-plugin/js/utils/math.js:61-68 | the loop computes the sum of squared differences over the grid |
| CurveMath.CurveComparator.CompareByMaximumDeviationMetric | tvv-plugin/chrome/tvv-plugin/js/utils/math.js:70-79 | the loop computes the maximum absolute difference over the grid, starting from 0 |
| CurveMath.IdenticalCurvesCompareEqual | tvv-plugin/chrome/tvv-plugin/js/utils/math.js:43-79 | a curve compared with itself has sum of squares 0 and maximum deviation 0; its area ratio is 0, or NaN when the area is 0 |
| CurveMath.SwappedCurvesSameDeviation | tvv-plugin/chrome/tvv-plugin/js/utils/math.js:24-79 | swapping the curves gives the same grid with the ordinate arrays swapped, and the same maximum deviation and sum of squares |
| CurveMath.DisjointCurvesGiveNaNRatio | tvv-plugin/chrome/tvv-plugin/js/utils/math.js:27-58 | curves without overlap give an empty grid, metrics 0 and area ratio NaN |
| Utils.PadZeros | tvv-plugin/chrome/tvv-plugin/js/utils/utils.js:81-86 | the padded text has length `max(len, size)`, ends with the original, has only `'0'` before it, and is the original when it is already long enough |
| Utils.Format0d | tvv-plugin/chrome/tvv-plugin/js/utils/utils.js:81-86 | the prepending loop yields the reference padding |
| Utils.PadZerosIdempotent | tvv-plugin/chrome/tvv-plugin/js/utils/utils.js:81-86 | padding twice to the same width is padding once |
| Utils.TrimCharacters | tvv-plugin/chrome/tvv-plugin/js/utils/utils.js:116-119 | the result is the contiguous slice after the leading run of trimmed characters; everything after it is a trimmed character; it neither starts nor ends with one |
| Utils.TrimCharactersUnchangedIff | tvv-plugin/chrome/tvv-plugin/js/utils/utils.js:116-119 | a string is unchanged exactly when it is empty or neither end is a character to trim |
| Utils.TrimCharactersIdempotent | tvv-plugin/chrome/tvv-plugin/js/utils/utils.js:116-119 | trimming twice equals trimming once |
| Utils.TrimCharactersEmptyIff | tvv-plugin/chrome/tvv-plugin/js/utils/utils.js:116-119 | the result is empty exactly when every character is one to trim |
| Utils.ToHex | tvv-plugin/chrome/tvv-plugin/js/utils/utils.js:39 | `n.toString(16)` is a non-empty hexadecimal numeral with one digit exactly below 16 and at most two below 256 |
| Utils.HexValueOfToHex | tvv-plugin/chrome/tvv-plugin/js/utils/utils.js:39 | parsing the numeral of `n` in base 16 gives `n` back |
| Utils.LengthGuardNeverFires | tvv-plugin/chrome/tvv-plugin/js/utils/utils.js:56 | the guard `!str.length == 6` as written is false for every string |
| Utils.ShortColourPassesGuard | tvv-plugin/chrome/tvv-plugin/js/utils/utils.js:56 | the two-character string `"ff"` passes the guard as written |
| Utils.Channel | tvv-plugin/chrome/tvv-plugin/js/utils/utils.js:55-74 | the intended behaviour (see Findings): a channel is the base-16 value of the two digits at its offset, below 256, and any length other than 6 throws "Expected string of length 6" |
| Utils.GetR | tvv-plugin/chrome/tvv-plugin/js/utils/utils.js:55-60 | red is `16*d0 + d1`, below 256; with the intended guard (see Findings), a string not six long throws |
| Utils.GetG | tvv-plugin/chrome/tvv-plugin/js/utils/utils.js:62-67 | green is `16*d2 + d3`, below 256; with the intended guard (see Findings), a string not six long throws |
| Utils.GetB | tvv-plugin/chrome/tvv-plugin/js/utils/utils.js:69-74 | blue is `16*d4 + d5`, below 256; with the intended guard (see Findings), a string not six long throws |
| Utils.BoundsAreColours | tvv-plugin/chrome/tvv-plugin/js/utils/utils.js:21-23 | the three bound colours are six hexadecimal digits |
| Utils.Round | tvv-plugin/chrome/tvv-plugin/js/utils/utils.js:35-37 | `Math.round(x)` is within half a unit of `x`, halves rounded up |
| Utils.Hex2 | tvv-plugin/chrome/tvv-plugin/js/utils/utils.js:39 | `format0d(c.toString(16), 2)` is two hexadecimal digits whose value is `c` |
| Utils.Blend | tvv-plugin/chrome/tvv-plugin/js/utils/utils.js:35-37 | a blended channel lies between its two end channels and below 256 |
| Utils.BlendAtEnds | tvv-plugin/chrome/tvv-plugin/js/utils/utils.js:35-37 | a blended channel equals the lower end channel at the lower value and the upper one at the upper value |
| Utils.Gradient | tvv-plugin/chrome/tvv-plugin/js/utils/utils.js:29-49 | a gradient colour is six hexadecimal digits |
| Utils.Value2Color | tvv-plugin/chrome/tvv-plugin/js/utils/utils.js:20-53 | a value below 0 or above 100 throws "Expected value in interval [0; 100]"; any other value gives six hexadecimal digits |
| Utils.ChannelsOfHex2 | tvv-plugin/chrome/tvv-plugin/js/utils/utils.js:39 | decoding the colour written from three channels gives back those three channels |
| Utils.Hex2OfPair | tvv-plugin/chrome/tvv-plugin/js/utils/utils.js:39 | re-encoding a lower-case two-digit pair gives the same pair |
| Utils.ColourOfChannels | tvv-plugin/chrome/tvv-plugin/js/utils/utils.js:39 | a lower-case colour is the encoding of its own three channels |
| Utils.GradientAtEnds | tvv-plugin/chrome/tvv-plugin/js/utils/utils.js:29-49 | the gradient gives the lower colour at the lower value and the upper colour at the upper value |
| Utils.GradientChannelsBetween | tvv-plugin/chrome/tvv-plugin/js/utils/utils.js:29-49 | each channel of a gradient colour lies between the corresponding channels of its two end colours |
| Utils.Value2ColorAtAnchors | tvv-plugin/chrome/tvv-plugin/js/utils/utils.js:20-49 | `value2color(0)` is `ff6347`, `value2color(50)` is `ffd700` and `value2color(100)` is `32cd32` |
| Utils.Value2ColorChannels | tvv-plugin/chrome/tvv-plugin/js/utils/utils.js:29-49 | every value in [0, 100] succeeds; below 50 each channel lies between tomato and gold, and from 50 to 100 between gold and lime green |
| Background.TargetRecord | tvv-plugin/chrome/tvv-plugin/js/background/background.js:756-765 | the record copies id, name, criterion and unit. `value` is null exactly for an interval, `tolerance` is set exactly for a tolerance, and `left`/`right` are set exactly for an interval. Every set field is the item's own |
| Background.TargetRecordWellShaped | tvv-plugin/chrome/tvv-plugin/js/background/background.js:756-765 | every record carries exactly the fields of its criterion |
| Background.NewTarget | tvv-plugin/chrome/tvv-plugin/js/background/background.js:23-50 | each part of a `Target` is null exactly when its argument is null, and otherwise a field-by-field copy of it |
| Background.RemovePrefix | tvv-plugin/chrome/tvv-plugin/js/background/background.js:574-579 | when `str` starts with `prefix`, prefix plus result is `str`; otherwise the result is `str` |
| Background.RemovePrefixOfPrepended | tvv-plugin/chrome/tvv-plugin/js/background/background.js:574-579 | removing a prefix that was prepended gives the original text back |
| Background.Curve.constructor | tvv-plugin/chrome/tvv-plugin/js/background/background.js:60-94 | a new curve keeps its identity, points, labels and picture, and all three metrics start out null |
| Background.Matching | tvv-plugin/chrome/tvv-plugin/js/background/background.js:97-98 | the filter keeps exactly the target curves with this curve's name |
| Background.SingleMatch | tvv-plugin/chrome/tvv-plugin/js/background/background.js:97-99 | a name that only one target curve carries matches exactly that curve |
| Background.NoMatch | tvv-plugin/chrome/tvv-plugin/js/background/background.js:97-99 | a name no target curve carries matches nothing |
| Background.Curve.CompareWithTarget | tvv-plugin/chrome/tvv-plugin/js/background/background.js:96-105 | with exactly one same-named target curve, the metrics become 100 times the area ratio, the sum of squares and the maximum deviation against it; otherwise all three keep their values |
| Background.FiledInPlace | tvv-plugin/chrome/tvv-plugin/js/background/background.js:707-714 | opening a missing group at the end of the key order and then appending to it files the item under its name |
| Background.FirstIndex | tvv-plugin/chrome/tvv-plugin/js/background/background.js:699-722 | the position of a name's first occurrence holds that name, and no earlier position does |
| Background.ItemIncluded | tvv-plugin/chrome/tvv-plugin/js/background/background.js:702-713 | every curve of every simulation, paired with its simulation's name, is among the items the loops visit |
| Background.GroupedByName | tvv-plugin/chrome/tvv-plugin/js/background/background.js:699-722 | filing one by one gives one group per curve name, holding exactly the items with that name in their order |
| Background.WithNameAbsent | tvv-plugin/chrome/tvv-plugin/js/background/background.js:699-722 | a name no curve carries has no items |
| Background.GroupedInFirstOccurrenceOrder | tvv-plugin/chrome/tvv-plugin/js/background/background.js:699-722 | the object's own keys list each curve name once, in the order the names first occur |
| Background.WithNameKeepsCount | tvv-plugin/chrome/tvv-plugin/js/background/background.js:699-722 | each curve item lands in the group of its own name as many times as it occurs among the curves of all simulations |
| Background.GetAllCurvesNames | tvv-plugin/chrome/tvv-plugin/js/background/background.js:699-722 | throws exactly when some curve is named like a property of `Object.prototype`: the `in` test finds the inherited property, no group is opened, and `push` is not a function. Otherwise the keys are exactly the curve names, in first-occurrence order, and each group holds the curves of that name with their simulations' names, in simulation order and then curve order |
| Background.FileCurves | tvv-plugin/chrome/tvv-plugin/js/background/background.js:705-718 | the inner loop files one simulation's curves after the items already filed; it throws only when one of them is named like an inherited property, and otherwise the groups are those of all items so far |
| Parser.Rendered | tvv-plugin/chrome/tvv-plugin/js/report/parser.js:41-65 | a target value has a text exactly when its criterion is one of the seven known ones |
| Parser.RenderedRecord | tvv-plugin/chrome/tvv-plugin/js/report/parser.js:41-62 | a record from a target item is rendered from the item's own numbers: `[left; right] d` for an interval, `v ± tol d` for a tolerance, and sign, value and dimension for a comparison |
| Parser.TargetKeys | tvv-plugin/chrome/tvv-plugin/js/report/parser.js:37-75 | `target:val:<name>` is filled exactly when the value's criterion is known, `target:crv:<name>` whenever the target has a curve, and nothing for a target with neither |
| Parser.ValueAndCurveKeysDiffer | tvv-plugin/chrome/tvv-plugin/js/report/parser.js:43-71 | a target value's key never equals a target curve's key |
| Parser.UpdateConcat | tvv-plugin/chrome/tvv-plugin/js/report/parser.js:32-116 | assigning two runs of entries one after the other equals assigning their concatenation |
| Parser.AssignedKeepsLast | tvv-plugin/chrome/tvv-plugin/js/report/parser.js:32-116 | the dictionary has exactly the assigned keys, and each key holds the text of its last assignment |
| Parser.BuildValidPlaceholders | tvv-plugin/chrome/tvv-plugin/js/report/parser.js:31-117 | a single-solver report throws a `TypeError` exactly when some simulation's latest task is `null`. Otherwise the dictionary equals the assignments of all targets, simulations and comparison charts in order. It is empty unless the report is single-solver |
| Parser.PutTargets | tvv-plugin/chrome/tvv-plugin/js/report/parser.js:37-75 | the target loop performs each target's assignments in order |
| Parser.PutTarget | tvv-plugin/chrome/tvv-plugin/js/report/parser.js:39-73 | one target's assignments: its value text when its criterion is known, then its curve image when it has one |
| Parser.PutSimulations | tvv-plugin/chrome/tvv-plugin/js/report/parser.js:77-106 | the simulation loop throws exactly when some simulation's latest task is `null`; otherwise it performs each simulation's assignments in order |
| Parser.PutNextSimulation | tvv-plugin/chrome/tvv-plugin/js/report/parser.js:77-104 | one turn of the simulation loop extends the dictionary of the first `k` simulations to that of the first `k + 1`, or throws when simulation `k`'s latest task is `null` |
| Parser.PutSimulation | tvv-plugin/chrome/tvv-plugin/js/report/parser.js:80-104 | a simulation assigns its values, pictures, curves and latest task, in that order; it throws exactly when its latest task is `null` |
| Parser.PutValues | tvv-plugin/chrome/tvv-plugin/js/report/parser.js:80-82 | each value assigns `"<value> <dimension>"` to `<sim>:val:<name>` |
| Parser.PutPictures | tvv-plugin/chrome/tvv-plugin/js/report/parser.js:85-87 | each picture assigns its image to `<sim>:pic:<name>` |
| Parser.PutCurves | tvv-plugin/chrome/tvv-plugin/js/report/parser.js:91-96 | the curve loop performs each curve's four assignments in order |
| Parser.PutCurve | tvv-plugin/chrome/tvv-plugin/js/report/parser.js:92-95 | a curve assigns its image and its three metrics under its unquoted name |
| Parser.PutTask | tvv-plugin/chrome/tvv-plugin/js/report/parser.js:99-104 | the latest task, if any, assigns cores, memory with `" MB"`, and status. A `null` latest task passes the `undefined` test, and reading its cores throws a `TypeError` |
| Parser.PutComparisonCurves | tvv-plugin/chrome/tvv-plugin/js/report/parser.js:110-112 | each comparison chart assigns its image to `curves:<unquoted name>` |
| Parser.CurveKeysDistinct | tvv-plugin/chrome/tvv-plugin/js/report/parser.js:92-95 | a curve fills four different keys, so each of its four texts survives |
| Parser.MetricKeysDistinct | tvv-plugin/chrome/tvv-plugin/js/report/parser.js:92-95 | the picture key and the `cmp:asq`, `cmp:ssq` and `cmp:dev` keys of a curve are pairwise different |
| Parser.SimulationIncluded | tvv-plugin/chrome/tvv-plugin/js/report/parser.js:77-106 | every entry of a simulation is among the entries of all simulations |
| Parser.CurveIncluded | tvv-plugin/chrome/tvv-plugin/js/report/parser.js:91-96 | every entry of a curve is among the entries of its simulation's curves |
| Parser.ValueKeyFilled | tvv-plugin/chrome/tvv-plugin/js/report/parser.js:80-82 | in a single-solver report every value of every simulation has its `<sim>:val:<name>` key |
| Parser.CurveKeysFilled | tvv-plugin/chrome/tvv-plugin/js/report/parser.js:91-96 | in a single-solver report every curve has its picture key and its three metric keys |
| Parser.CurveKeysPrefixed | tvv-plugin/chrome/tvv-plugin/js/report/parser.js:91-96 | every curve key of a simulation starts with `<sim>:crv:` |
| Parser.TaskKeysIffTask | tvv-plugin/chrome/tvv-plugin/js/report/parser.js:98-104 | a simulation's cores, memory and status keys are filled exactly when its latest task is there and not `null` |
| Parser.TemplateParser.New | tvv-plugin/chrome/tvv-plugin/js/report/parser.js:10-17 | `new TemplateParser(...)` throws what building the dictionary throws. Otherwise the new parser keeps the report type, the template and the loadcase's simulations, targets and comparison charts, and its dictionary is the one built from them |

## Left out

- Floating point: numbers are exact reals. The model does not capture the accumulation
  drift that can give `linspace` one point more or fewer. It also does not capture rounding
  in `Math.round` or in the metrics.
- CurveMath.CurveComparator.constructor: requires two valid curves (at least two points,
  strictly ascending abscissae) whose common interval is not a single point. With one
  common point the grid step is 0 and `linspace` never returns
  (`CurveMath.LinspaceNeverExits`). Duplicate abscissae give NaN slopes; they and a
  one-point curve are excluded rather than modelled.
- Background.Curve.CompareWithTarget: requires the same of the curve and its one match,
  for the same reason.
- CurveMath.EvaluateLinear: requires strictly ascending abscissae and at least two of
  them. It does not model the single-abscissa case, where the bisection does not
  terminate (`CurveMath.BisectionStallsOnSingleAbscissa`).
- `makeItArrayIfItsNot`: a dynamic type test; `evaluateLinear` is modelled on sequences
  only.
- Utils.TrimCharacters: the characters to trim are a set of characters. Regular-expression
  metacharacters passed in the source's `chars` string are not modelled.
- Utils.Channel, Utils.GetR, Utils.GetG, Utils.GetB: require hexadecimal digits.
  `parseInt` on other text (NaN or a partial parse) is not modelled. They use the
  corrected length guard, which throws (see Findings). The source as written never throws
  and decodes a string of any length.
- Utils.Format0d: the source converts any value with `number + ''`. The model takes that
  text as its input.
- `uniqueID` (random numbers and the clock) and `parse(file)` (a `FileReader`) are not part
  of this model.
- Background: all server access is not part of this model. That covers the async
  constructors of `Task`, `Simulation`, `Picture`, `Loadcase` and `Curve`, `getAxesData`,
  and the fetch in `getLoadcaseTargetsData`. The model starts from the data they produce.
  A task the server did not answer with status 200 is `null` (`None`) in its simulation's
  task list. The `Curve` constructor takes its points and picture as parameters.
- Background.GetAllCurvesNames: `Object.keys` (background.js:664) lists integer-like keys
  such as `"7"` first, in ascending order, before the other keys in insertion order. The
  model records insertion order only. The progress messages (`sendProgressValue`,
  `p.current`) are left out.
- Charts, pictures and messaging (`curveAsPicture`, `curvesAsPicture`, `save`,
  `blobToBase64`, the message listener), `popup.js` and `builder.js` are not part of this
  model.
- `TemplateParser.parse`: substituting the placeholders into the template relies on
  JavaScript's regular expressions and `String.replace` patterns. It is not part of this
  model.
- Parser.BuildValidPlaceholders: a JavaScript object keeps its keys in insertion order. The
  model's dictionary is a `map` and does not record that order.
- Number-to-text conversion of finite metrics is the parameter `format`, not JavaScript's
  shortest round-trip algorithm.
- `ReportType` is defined outside the modelled files. The model only distinguishes
  `SINGLE_SOLVER` from every other report type.

## Findings

| source | as written | input that shows it | evidently intended | confidence | as-written member | corrected member |
|---|---|---|---|---|---|---|
| tvv-plugin/chrome/tvv-plugin/js/utils/utils.js:56 | `!str.length == 6` negates the length first, giving a boolean, and compares that with 6. A boolean converts to 0 or 1, so the guard never fires and `getR`, `getG` and `getB` never throw | `"ff"` (length 2) passes the guard; lines 63 and 70 repeat it | throw "Expected string of length 6" unless the string is six characters long | high; not executed | Utils.ShortColourPassesGuard | Utils.Channel |
