# Axis selection of the D3 poverty/health scatter plot, in Dafny

The script `D3_data_journalism/assets/js/app.js` draws US states as circles. The X
axis shows poverty, median age or median household income. The Y axis shows lack of
healthcare, smoking or obesity. The viewer swaps an axis's attribute by clicking one
of its three labels.

This project models the part of the script that holds state and computes:

- **The selection state machine** (`Chart.Chart`). It is a class holding:
  - the two chosen attributes;
  - the two linear scales;
  - the `active`/`inactive` class pair of each of the six labels;
  - the selection pair the tooltip was built with;
  - a log of what the chart asked the drawing library to redraw.

  The constructor is the first render. `ClickX` and `ClickY` are the two click
  handlers, branch for branch. The invariant `Valid()` says three things. Each scale
  belongs to its axis's selection. On each axis exactly the chosen label is active
  and the other two are inactive. The tooltip shows the current pair.
- **The row conversion** (`RowConversion`). The `forEach` loop runs in place over an
  array of rows. Each row is a map from property name to JavaScript value. The loop
  coerces poverty, age, income, healthcare and smokes under their own names. It
  writes the coerced obesity value to a new property `obsesity`. The model keeps
  that misspelling: `obesity` itself stays the string read from the file.
- **The scales** (`Scales`). `xScale` and `yScale` build a domain with d3.min and
  d3.max over the chosen column. They range over `[0, width]` and over the inverted
  `[height, 0]`. d3.min and d3.max compare in JavaScript's natural order and skip
  `undefined` and NaN. `scaleLinear().domain` coerces both ends to numbers.
- **The layout** (`Layout`): the 680 by 500 SVG, its margins, and the 555 by 380
  plot area.
- **The tooltip html** (`Tooltip`): `state<br>x: d[x]<br>y: d[y]`.

JavaScript values are modelled in `JsValues`:
- a value is `undefined`, a string or a number;
- a number is NaN or a finite real;
- `>` and `>=` compare two strings lexicographically and anything else as numbers.

The engine's string-to-number conversion (`+s`) is a function parameter, `parse`.
So is its number-to-string conversion, `show`.

Because `obesity` stays a string, d3.min and d3.max compare obesity values as
strings. `Chart.ObesityDomain` states this. `Chart.ObesityDomainInverted` gives two
rows, "9.5" and "10.2", for which the obesity Y domain runs backwards, from 10.2 to
9.5.

## Model

| member | source | states |
|---|---|---|
| `Layout.PlotArea` | D3_data_journalism/assets/js/app.js:16-27 | The plot area is width 680 - 75 - 50 = 555 and height 500 - 20 - 100 = 380, and it fits inside the SVG after the left and top margins |
| `RowConversion.ConvertRow` | D3_data_journalism/assets/js/app.js:136-145 | After the callback, poverty, age, income, healthcare and smokes hold the unary plus of their old values. `obsesity` holds the unary plus of `obesity`. Every other property, `obesity` included, is unchanged. No property is removed |
| `RowConversion.ObesityUnconverted` | D3_data_journalism/assets/js/app.js:144 | The conversion leaves `obesity` as it was, so a string read from the file stays a string |
| `RowConversion.ConvertedAreNumbers` | D3_data_journalism/assets/js/app.js:138-144 | Every property the callback writes holds a number afterwards (a corollary of part of `RowConversion.ConvertRow`'s contract) |
| `RowConversion.ConvertRowIdempotent` | D3_data_journalism/assets/js/app.js:136-145 | Converting a converted row again changes nothing |
| `RowConversion.ConvertRows` | D3_data_journalism/assets/js/app.js:136-145 | The loop replaces every row of the array, in place, by its converted form |
| `Scales.NumericExtremumFrom` | D3_data_journalism/assets/js/app.js:50 | On a column of numbers, the d3.min / d3.max scan ends on a finite value of the column. That value is at or beyond every finite value. NaN is skipped. The result is `undefined` only if every value is NaN |
| `Scales.TextExtremumFrom` | D3_data_journalism/assets/js/app.js:60 | On a column of strings, the scan ends on the first (min) or last (max) string of the column in string order. The result is `undefined` only on an empty column |
| `Scales.NumericDomain` | D3_data_journalism/assets/js/app.js:47-64 | For a numeric column with a finite value, the domain is `[min, max]` of its finite values. Both ends occur in the column, and start <= end |
| `Scales.TextDomain` | D3_data_journalism/assets/js/app.js:57-64 | For a non-empty string column, the domain ends are the coercions of the first and last strings in string order |
| `Scales.EmptyDomain` | D3_data_journalism/assets/js/app.js:50 | With no rows, both domain ends are NaN |
| `Tooltip.TooltipLines` | D3_data_journalism/assets/js/app.js:113-115 | Splitting the tooltip html at `<br>` gives back the state, `x: d[x]` and `y: d[y]`, if none of them contains `<br>` |
| `Chart.Chart.constructor` | D3_data_journalism/assets/js/app.js:149-251 | The first render (selection set at lines 43-44): X = poverty, Y = healthcare, the poverty and healthcare labels active, the other four inactive, and both axes, the marks and the tooltip drawn with the initial scales |
| `Chart.Chart.ClickX` | D3_data_journalism/assets/js/app.js:255-314 | Clicking the chosen X label changes nothing. Clicking another one sets `chosenXAxis` and rebuilds the X scale. It then redraws the X axis, the marks and the tooltip, and makes the clicked label the only active X label. The Y selection, Y scale and Y labels are unchanged. `Valid()` is kept |
| `Chart.Chart.ClickY` | D3_data_journalism/assets/js/app.js:317-374 | The same for the Y labels. The X selection, X scale and X labels are unchanged |
| `Chart.Chart.ExactlyOneActive` | D3_data_journalism/assets/js/app.js:281-372 | In a valid chart, the active label on each axis is exactly the one whose value is that axis's selection. No label is both active and inactive |
| `Chart.Chart.TooltipFor` | D3_data_journalism/assets/js/app.js:108-115 | The tooltip html on mouseover uses the current `(chosenXAxis, chosenYAxis)` pair, never an earlier one |
| `Chart.Start` | D3_data_journalism/assets/js/app.js:131-192 | The data continuation converts the rows in place and builds a fresh chart from the converted rows. The chart is valid and starts at poverty and healthcare. Its redraw log is the first frame: both axes, then the circles, texts and tooltip at the initial scales |
| `Chart.ConvertedDomain` | D3_data_journalism/assets/js/app.js:136-150 | After conversion, each X attribute, healthcare and smokes has domain `[min, max]` of its coerced values. Both ends are finite, start <= end, each end is some row's coerced value, and every finite coerced value lies between them |
| `Chart.XScaleOfConverted` | D3_data_journalism/assets/js/app.js:47-54 | Over the converted rows, the X scale for any X attribute with a finite value has range `[0, width]` = `[0, 555]` and domain `[min, max]` of that attribute's coerced values |
| `Chart.YScaleOfConverted` | D3_data_journalism/assets/js/app.js:57-64 | Over the converted rows, the Y scale for healthcare or smokes with a finite value has the inverted range `[height, 0]` = `[380, 0]` and domain `[min, max]` of that attribute's coerced values |
| `Chart.ObesityDomain` | D3_data_journalism/assets/js/app.js:144-150 | Obesity is not converted, so its Y domain is the coercion of the first and last obesity strings in string order. Both strings occur in the column |
| `Chart.ObesityDomainInverted` | D3_data_journalism/assets/js/app.js:57-64 | With obesity values "9.5" and "10.2", the obesity Y domain is `[10.2, 9.5]`: its start is above its end |

## Left out

- SVG creation, removal of the old SVG and the window `resize` subscription (lines 7-11, 31-39, 382). They are DOM work, so the model has no teardown-and-rebuild.
- The `d3.csv` fetch, its promise, `console.log` and `if (err) throw err` (lines 131-133). The fetch is asynchronous I/O. The model starts from the rows the fetch delivers, so the race between a pending fetch and a resize is not modelled either.
- Axis drawing, the 1000 ms transitions and the circle and text attributes (lines 68-105, 154-189). These are calls into D3. The model records each call as an entry of `Chart.redraws` and does not compute pixels.
- `d3.tip` construction and the mouseover/mouseout binding (lines 110-112, 116-125). Only the html template is modelled. Which pair the tooltip was built with is kept in `Chart.tooltip`.
- The linear interpolation `d3.scaleLinear` performs. A scale is modelled only by its domain and range ends.
- Floating point in general: numbers are NaN or exact reals, with no infinities, no signed zero and no rounding. The `- 0.2` text offset (lines 100, 186) is not modelled.
- The engine's string-to-number and number-to-string conversions are parameters, not definitions.
- d3.min and d3.max are library code. They are modelled by their documented behaviour: natural order, skipping `undefined`, null and NaN.
- String order compares Dafny characters. JavaScript compares UTF-16 code units, so the two can differ only outside the Basic Multilingual Plane.
- Label positions, rotation and text (lines 197-251, except the classes). These are presentation only.
- The label `value` attribute read by `d3.select(this).attr("value")` is modelled as an attribute enumeration. Each axis's labels carry only its three values.
- Row objects are modelled as values in an array. Aliasing between row objects is not modelled.
