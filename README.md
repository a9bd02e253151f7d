# XP chart layout of the GraphQL profile dashboard

The dashboard signs a user in, fetches their profile and XP transaction
history in one GraphQL query, and draws two SVG charts from that history.
This project models the part of `graphQL.js` that decides what those charts
look like, with the browser calls taken away:

- **Classifier** (`showProfile`): the history is split into the records
  whose object type is `"project"` and those whose type is `"exercise"`,
  each in query order; any other type is shown in neither chart.
- **BarChart** (`renderProjectXpGraph`): one bar per project record, 12
  units apart and 12 units from both edges, standing on the baseline
  `svgH - 40` and scaled so that the largest amount is `svgH - 80` high.
  The project name is drawn at the bar's centre and turned a quarter turn
  counter-clockwise about that point. The raw amount is printed 6 units
  above the bar top.
- **SeriesChart** (`renderExerciseXpGraph`): one point per exercise
  record. The points run from the left edge to the right edge at even
  steps, and a lone point is centred. They are scaled between the top
  margin (40) and the baseline (`svgH - 40`), and lie flat on the baseline
  when every amount is 0. The same points give the open line and the
  area polygon, which is closed by two baseline anchors at `x = 0` and
  `x = svgW`. They also give the hover markers, whose tooltip reads
  `<name>: <amount> XP`.
- **Transactions** holds the record type and the largest amount
  (`Math.max(...amounts, 0)`). **Decimal** holds the decimal text of an
  amount, which the value labels and tooltips show. **Geometry** holds the
  point type.

The two render functions are loops that append elements to an SVG node.
Here each is a method whose while loops build the sequence of elements in
the order the source appends them. Each method is proved equal, element by
element, to a per-element function (`BarAt`, `SeriesPoint`), and the
layout properties are lemmas about those functions. Coordinates are `real`.
The canvas size (`clientWidth`, `clientHeight`, whole pixels) is a `nat`
parameter. Amounts are `nat`: the query selects only XP transactions,
whose amounts are non-negative integers.

Notes on the code:
- Amounts 100 and 400 on a 124 by 120 canvas give bars
  `(124 - 36) / 2 = 44` wide (`TwoBarExample`).
- The bar height is not guarded against `0 / 0` (see Findings).
- The bar layout is called even when there are no projects. It then draws
  nothing, so `LayoutBars` has no precondition on the length and returns
  no bars.

## Model

| member | source | states |
|---|---|---|
| `Decimal.NatToString` | graphQL.js:165 | The text of an amount is non-empty, all digits, and starts with `0` only for the amount 0, which prints as `"0"`. |
| `Decimal.ParseNatToString` | graphQL.js:165 | Reading the printed digits back gives the amount again. |
| `Decimal.NatToStringInjective` | graphQL.js:165 | Two different amounts never print the same text. |
| `Transactions.MaxAmount` | graphQL.js:124 | `Math.max(...amounts, 0)` bounds every amount and is 0 or equal to one of them. |
| `Transactions.MaxAmountZero` | graphQL.js:198 | The maximum is 0 exactly when every amount is 0. |
| `Classifier.OfKind` | graphQL.js:84-89 | Every record in the filtered list has the given type. The list is never longer than the input. |
| `Classifier.OfKindMembers` | graphQL.js:84-89 | A record is in the filtered list iff it is in the input and has the given type. |
| `Classifier.OtherKinds` | graphQL.js:84-89 | Every record left out of both charts has a type that is neither `project` nor `exercise`. |
| `Classifier.Classify` | graphQL.js:84-89 | A record is a project iff it is in the input with type `project`, and an exercise iff it is in the input with type `exercise`. Together with the left-out records the two subsets form the input multiset. |
| `Classifier.KindIndicesSpec` | graphQL.js:84-89 | The reference index list is strictly increasing and holds exactly the positions whose type matches. |
| `Classifier.OfKindSelectsInOrder` | graphQL.js:84-86 | The filter is stable. Its j-th record is the input record at the j-th matching position, so it keeps every match in input order. |
| `Classifier.OfKindAppend` | graphQL.js:84-89 | Filtering a concatenation gives the filtered parts, concatenated. |
| `Classifier.PartitionStep` | graphQL.js:84-89 | Adding one record to the end of the history adds it to exactly one of the three lists. |
| `Classifier.Partition` | graphQL.js:84-89 | Projects, exercises and the other records together are a permutation of the input. |
| `Classifier.PartitionLengths` | graphQL.js:84-89 | The lengths of the three lists add up to the length of the input. |
| `Classifier.Disjoint` | graphQL.js:84-89 | No record appears in both the project and the exercise subset. |
| `BarChart.BaseY` | graphQL.js:123 | Defining function, no contract of its own: the baseline `svgH - 40`. |
| `BarChart.BarWidth` | graphQL.js:126-127 | Defining function, no contract of its own: `barW = (svgW - 12 * (n + 1)) / n`. Its meaning is stated by `BarWidthFills`. |
| `BarChart.BarX` | graphQL.js:133 | Defining function, no contract of its own: `x = 12 + i * (barW + 12)`. Its meaning is stated by `BarXStep` and `BarXBetween`. |
| `BarChart.HeightAsWritten` | graphQL.js:132 | The unguarded height formula gives NaN exactly when the maximum is 0. |
| `BarChart.BarHeight` | graphQL.js:132 | The guarded height is 0 when every amount is 0. Otherwise it equals the formula as written. |
| `BarChart.BarAt` | graphQL.js:130-165 | Defining function, no contract of its own: rectangle, name label and value label of bar `i`. What it means is stated by the bar lemmas below. |
| `BarChart.LayoutBars` | graphQL.js:121-167 | One bar per record, in input order: bar `i` is `BarAt(data, i)`, which holds its rectangle, its name label and its value label. No records give no bars. |
| `BarChart.BarWidthFills` | graphQL.js:126-127 | `n` bars of width `barW` plus `n + 1` gaps of 12 fill exactly `svgW`. |
| `BarChart.BarXStep` | graphQL.js:133 | Each bar's `x` is one bar width plus one gap after the previous bar's `x`. |
| `BarChart.BarXBetween` | graphQL.js:133 | With a non-negative bar width, every bar's `x` lies between the first bar's and the last bar's. |
| `BarChart.BarsSpaced` | graphQL.js:126-133 | With at least two bars, the first bar starts at 12, and consecutive bars have equal widths and exactly 12 units between them. |
| `BarChart.FirstBarAtGap` | graphQL.js:133 | With at least one bar, the first bar starts at 12. |
| `BarChart.LastBarRightEdge` | graphQL.js:126-133 | The last bar's right edge is `svgW - 12`. |
| `BarChart.BarsInsideWidth` | graphQL.js:126-133 | If `svgW >= 12 * (n + 1)`, every bar has non-negative width and lies within `[12, svgW - 12]`. |
| `BarChart.BarHeightBounds` | graphQL.js:132 | If `svgH >= 80`, a height lies in `[0, svgH - 80]`. The largest positive amount gets exactly `svgH - 80`. |
| `BarChart.BarHeightRange` | graphQL.js:123-134 | Every bar ends on the baseline (`y + h = svgH - 40`). If `svgH >= 80`, its height lies in `[0, svgH - 80]` and its top is at `y >= 40`, and a bar of the largest positive amount has `y = 40`. |
| `BarChart.BarHeightMonotone` | graphQL.js:132 | For a positive maximum and `svgH > 80`, one amount is at most another iff its height is at most the other's. |
| `BarChart.BarHeightsOrdered` | graphQL.js:124-132 | For a positive maximum and `svgH > 80`, bars are ordered by height as their amounts are, in both directions, and equal amounts give equal heights. |
| `BarChart.BarLabels` | graphQL.js:147-165 | The name label sits at the bar's centre and is rotated -90 degrees about that same point. The value label sits at the same `x`, 6 above the bar top, and its text reads back as the raw amount. |
| `BarChart.TwoBarExample` | graphQL.js:121-134 | Amounts 100 and 400 on a 124 by 120 canvas: both bars are 44 wide, at x = 12 and x = 68, with heights 10 and 40 and tops at 70 and 40. The right edge is at 112. |
| `BarChart.AllZeroBarsFlat` | graphQL.js:124-134 | With the guarded height, if every amount is 0 then every bar has height 0 and its top is on the baseline. |
| `BarChart.AllZeroBarsAsWritten` | graphQL.js:124-132 | A single project whose amount is 0: the formula as written gives NaN, and the guarded bar is flat on the baseline. |
| `SeriesChart.ChartHeight` | graphQL.js:187-189 | Defining function, no contract of its own: `svgH - 40 - 40`. |
| `SeriesChart.BaseY` | graphQL.js:188-190 | Defining function, no contract of its own: the baseline `svgH - 40`. |
| `SeriesChart.GapX` | graphQL.js:193-195 | Defining function, no contract of its own: `svgW / (N - 1)` for `N > 1`, else 0. |
| `SeriesChart.PointX` | graphQL.js:205 | Defining function, no contract of its own: `svgW / 2` for a lone point, else `gapX * i`. |
| `SeriesChart.PointY` | graphQL.js:206 | Defining function, no contract of its own: `baseY` when the maximum is 0, else `baseY - amount / maxXP * chartHeight`. |
| `SeriesChart.SeriesPoint` | graphQL.js:204-206 | Defining function, no contract of its own: point `i` of the chart. What it means is stated by the point lemmas below. |
| `SeriesChart.Tooltip` | graphQL.js:247 | Defining function, no contract of its own: the text `<name>: <amount> XP`. What it means is stated by `TooltipReadsBack`. |
| `SeriesChart.LayoutSeries` | graphQL.js:185-247 | The line has one point per record, and point `i` is `SeriesPoint(data, i)`. The area is the point `(0, baseY)`, then the line, then `(svgW, baseY)`, so it has `N + 2` points. Marker `i` sits at line point `i`, with tooltip `<name>: <amount> XP`. |
| `SeriesChart.SinglePointCentred` | graphQL.js:193-205 | A lone point is at `x = svgW / 2`. |
| `SeriesChart.PointsSpreadEvenly` | graphQL.js:195-205 | With `N > 1` points, the first is at `x = 0` and the last at `x = svgW`, and consecutive points are `svgW / (N - 1)` apart. |
| `SeriesChart.PointsInsideWidth` | graphQL.js:195-205 | Every point's `x` lies in `[0, svgW]`. |
| `SeriesChart.FlatWhenAllZero` | graphQL.js:198-206 | If every amount is 0, every point lies on the baseline. |
| `SeriesChart.PointYBounds` | graphQL.js:187-206 | If `svgH >= 80`, an amount's `y` lies in `[40, svgH - 40]`. The largest positive amount is at exactly 40. |
| `SeriesChart.PointsInsideHeight` | graphQL.js:187-206 | If `svgH >= 80`, every point's `y` lies in `[40, svgH - 40]`, and a point of the largest positive amount is at `y = 40`. |
| `SeriesChart.PointYMonotone` | graphQL.js:206 | For a positive maximum and `svgH > 80`, one amount is at most another iff its point is not higher up. |
| `SeriesChart.PointsOrdered` | graphQL.js:198-206 | For a positive maximum and `svgH > 80`, points are ordered vertically as their amounts are, in both directions. |
| `SeriesChart.PeakExample` | graphQL.js:185-206 | Amounts `[0, m, 0]` with `m > 0`: the middle point is at `(svgW / 2, 40)`, and the outer two are at `(0, baseY)` and `(svgW, baseY)`. |
| `SeriesChart.TooltipReadsBack` | graphQL.js:247 | The tooltip is the name, then `": "`, then the amount's digits, then `" XP"`. The digits read back as the amount. |

## Left out

- `login.js`: it only wires the login form to the network, browser storage and section visibility.
- Signing in and the GraphQL request (graphQL.js:9-31, 68-81): network I/O and async code. The layouts take the record list as a parameter.
- The query's own filters (graphQL.js:47-58): the server applies them, so the model takes the returned list as given.
- Session restore and logout (graphQL.js:170-177, 261-269): browser storage and event handlers.
- `fillProfile` (graphQL.js:94-115): it only writes to the DOM, and its `toLocaleString` output depends on the locale.
- Clearing the SVG (`svg.innerHTML = ""`) and creating elements, attributes, colours, CSS classes, `text-anchor` and the marker radius. The layouts return new sequences whose elements come in the order the source appends them. The SVG node, as state updated in place, is not modelled.
- The tooltip's `mouseover`/`mouseout` listeners and its placement at the pointer (graphQL.js:244-257): browser event handling. A marker carries only its tooltip text.
- Floating point: coordinates are exact reals. NaN appears only for the bar height formula (`HeightAsWritten`). The text form of coordinates (`"x,y"` strings) is not modelled; points are pairs of reals.
- Decimal.NatToString: writes plain decimal digits only. JavaScript uses exponent notation for integers of 10^21 and above, and XP amounts never get that large.
- The unit-suffix (B/kB/MB) magnitude formatter: no such function exists in `graphQL.js`, so it is not modelled.
- `Math.max(...)`'s limit on the number of arguments for very long lists: an engine limit, not part of the layout.

## Findings

| source | as written | input that shows it | evidently intended | confidence | as-written member | corrected member |
|---|---|---|---|---|---|---|
| graphQL.js:132 | `h = (val / maxVal) * (svgH - 80)` with no guard for `maxVal == 0` | project records whose amounts are all 0, e.g. one project with amount 0: `maxVal = 0`, so `h = 0 / 0` = NaN, and so are `y` and the y coordinates of both labels, while `x` and the labels' x coordinates stay finite | a flat bar on the baseline, as the exercise chart's guard at graphQL.js:206 does | medium, not executed | `BarChart.HeightAsWritten`, `BarChart.AllZeroBarsAsWritten` | `BarChart.BarHeight`, used by `BarChart.BarAt` and `BarChart.LayoutBars` |
