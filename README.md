# Season ratings: board, chart, stepper and route gate in Dafny

This project models the client-side rating subsystem of a small web app where
users rate each season of a show from 0 to 100:

- **RatingBoard** (`rating_board.dfy`). The board keeps a working copy and a
  last-saved copy of the ratings, keyed by season id. The dirty flag is derived
  from the two copies. An edit changes one season at a time. A bulk save is
  single-flight: while one save runs, further saves are refused.
  - The board is a class with the fields `ratings`, `saved`, `saving` and
    `msg`, plus `submitted`. `submitted` is the copy of `ratings` that the
    running save captured when it started.
  - The asynchronous save is split at its one `await` into two methods:
    `BeginSave` builds and sends the request, and `CompleteSave(outcome)`
    handles the result. The outcome of the network call is an input.
- **BarChart** (`bar_chart.dfy`). A pure mapping from labels, values and an
  optional height to an SVG drawing. The drawing has gridlines with tick
  labels, one bar per value with a value label above it, one rotated label per
  category, the y axis and its title.
- **ColorScale** (`color_scale.dfy`). A red-yellow-green interpolation in two
  segments, applied channel by channel, with each channel rounded. The chart
  and the board each carry a copy of it with a different red anchor, so the
  anchors are a `Palette` parameter and the two copies are two constants.
- **ValueStepper** (`value_stepper.dfy`). A stateless -10/-1/+1/+10 editor that
  reports `clamp(value + amount, min, max)`. It also defines when each button is
  disabled.
- **RouteGate** (`route_gate.dfy`). The request middleware. A protected route
  requires a signed-in user. A signed-in user without a username is sent to the
  username page. Prefixes match segment by segment.
- `numeric.dfy` (`clamp`, `lerp`, `Math.round`) and `collections.dfy` (`?? d`
  on a record, `Array.prototype.some`) hold the shared helpers.

JavaScript numbers are exact `real`s. `Math.round(x)` is `Floor(x + 1/2)`,
which rounds halves towards +infinity, as JavaScript does. `toCss` is modelled
as the colour plus its 0.9 opacity, not as a string.

Three behaviours of the code worth knowing:

- **Saved copy after a successful save.** It becomes the `ratings` value that
  the save captured when it started. It is not the working copy at completion
  (`src/components/RateChartIsland.tsx:59`, `:69`). An edit made during a save
  therefore leaves the board dirty afterwards. `EditDuringSaveScenario` shows this case.
- **Edits are not checked.** `onChange` does not check that the season exists
  or that the value lies in range, so `OnChange` has no `requires`.
  - As a result the two copies may hold keys outside the seasons. The board
    invariant `Valid` therefore says that every season has an entry, not that
    the keys are exactly the seasons.
- **Label preset.** The chart picks it from its fixed design width of 760, not
  from the rendered width. The preset is therefore always -60 degrees with a
  bottom margin of 120.

The board's own `colorFor` (`RateChartIsland.tsx:20-24`) is never called by
the component. Its bars are drawn by the chart, which uses the red
`[229,15,15]`. The legend swatches of the board are written out as literals.
`ChartAndIslandScalesDiffer` records that the two scales disagree at 0 and
agree from 50 upwards.

## Model

| member | source | states |
|---|---|---|
| `Numeric.Clamp` | src/components/RateChartIsland.tsx:12 | the result lies in [a, b] when a <= b; an in-range value is kept; below a gives a and above b gives b; crossed bounds give b (the same `clamp` is at SVGBarChart.tsx:7 and ValueStepper.tsx:13) |
| `Numeric.Lerp` | src/components/RateChartIsland.tsx:13 | returns the first end point at t = 0 and the second at t = 1 |
| `Numeric.LerpBetween` | src/components/RateChartIsland.tsx:13 | for t in [0, 1] the interpolant lies between the two end points |
| `Numeric.Round` | src/components/RateChartIsland.tsx:15-17 | `Math.round`: the result is the integer within half a unit of x, with a half rounded up |
| `Collections.Lookup` | src/components/RateChartIsland.tsx:43 | no contract of its own: the definition of `m[k] ?? d`; what it gives the board is stated by `InitialRatings`, `IsDirtyIff` and `Batch` |
| `Collections.Any` | src/components/RateChartIsland.tsx:43 | no contract of its own: `xs.some(p)`, tested from the left; its meaning is stated by `AnyIff` |
| `Collections.AnyIff` | src/components/RateChartIsland.tsx:43 | `some` holds iff some element satisfies the predicate |
| `ColorScale.ToCss` | src/components/SVGBarChart.tsx:14 | no contract of its own: the colour with the default opacity 0.9; the opacity of every scale colour is stated by `ColorFor` |
| `ColorScale.LerpRgb` | src/components/SVGBarChart.tsx:9-13 | no contract of its own: `lerpRGB`, each channel interpolated and rounded; its behaviour is stated by `LerpRgbBetween` and `LerpRgbEnds` |
| `ColorScale.ColorFor` | src/components/SVGBarChart.tsx:16-19 | every colour of the scale has opacity 0.9 |
| `ColorScale.LerpRgbBetween` | src/components/RateChartIsland.tsx:14-18 | for t in [0, 1] every rounded channel lies between the two anchors' channels |
| `ColorScale.LerpRgbEnds` | src/components/RateChartIsland.tsx:14-18 | the interpolation gives exactly its first anchor at t = 0 and its second at t = 1 |
| `ColorScale.ColorForClamps` | src/components/RateChartIsland.tsx:21-24 | `colorFor(s) == colorFor(clamp(s, 0, 100))` for every s |
| `ColorScale.ColorForContinuousAtMid` | src/components/RateChartIsland.tsx:23 | at 50 the low-to-mid branch (t = 1) and the mid-to-high branch (t = 0) both give the mid anchor |
| `ColorScale.ColorForAnchors` | src/components/RateChartIsland.tsx:20-24 | for any palette: low anchor at 0 and below, mid at 50, high at 100 and above |
| `ColorScale.ColorForWithinSegment` | src/components/SVGBarChart.tsx:16-19 | each channel lies between the anchors of the segment the clamped score falls in |
| `ColorScale.IslandColorAnchors` | src/components/RateChartIsland.tsx:20-24 | the board's scale gives [229,57,53] at 0, [253,216,53] at 50 and [67,160,71] at 100 |
| `ColorScale.ChartAndIslandScalesDiffer` | src/components/SVGBarChart.tsx:15 | the chart's scale gives [229,15,15] at 0, unlike the board's; the two agree on every clamped score >= 50 |
| `BarChart.ChartHeight` | src/components/SVGBarChart.tsx:23 | a given non-zero height is used; an absent or zero height gives 760*9/16 |
| `BarChart.LabelAngle` | src/components/SVGBarChart.tsx:24 | no contract of its own: -60 above a width of 500, else -90; stated by `LabelPresets` |
| `BarChart.BottomMargin` | src/components/SVGBarChart.tsx:25 | no contract of its own: 140 for the vertical preset, else 120; stated by `LabelPresets` |
| `BarChart.LabelPresets` | src/components/SVGBarChart.tsx:24-25 | a width over 500 gives -60 degrees with a bottom margin of 120; otherwise -90 with 140; the fixed width 760 gives -60 and 120 |
| `BarChart.Band` | src/components/SVGBarChart.tsx:31-32 | for n > 0 the band times n is the inner width; for n = 0 the band is 0, with no division |
| `BarChart.BarWidth` | src/components/SVGBarChart.tsx:33 | the bar is at least 2 wide and at least 70% of the band, and it is one of the two |
| `BarChart.FrameFor` | src/components/SVGBarChart.tsx:22-33 | the width is 760, the angle -60, the margins 20/12/120/46 and the inner width 702; the inner height is the height minus 140; band and bar width follow from the label count |
| `BarChart.DefaultFrame` | src/components/SVGBarChart.tsx:23-29 | with the default height the plot is 702 by 287.5 |
| `BarChart.Share` | src/components/SVGBarChart.tsx:36-37 | the clamped value's share of a non-negative height lies between 0 and that height; a clamped 0 gives 0 and a clamped 100 the whole height |
| `BarChart.BarH` | src/components/SVGBarChart.tsx:37 | with a non-negative inner height a bar is between 0 and the inner height tall |
| `BarChart.Y` | src/components/SVGBarChart.tsx:36 | every bar sits on the plot baseline: `y(v) + barH(v) == top + innerH` |
| `BarChart.X` | src/components/SVGBarChart.tsx:35 | the bar is centred in its band: `x(i) + barW/2` is the band's centre |
| `BarChart.BarExtremes` | src/components/SVGBarChart.tsx:36-37 | `barH(0) = 0`, `y(0)` is the baseline and `y(100)` is the top margin |
| `BarChart.YNonIncreasing` | src/components/SVGBarChart.tsx:36-37 | with a non-negative inner height, a larger value never has a larger y or a smaller bar |
| `BarChart.Ticks` | src/components/SVGBarChart.tsx:39 | 11 ticks, the i-th equal to 10*i |
| `BarChart.TicksExactly` | src/components/SVGBarChart.tsx:39 | the ticks are exactly [0, 10, ..., 100] |
| `BarChart.GridlineAt` | src/components/SVGBarChart.tsx:44-51 | no contract of its own: one gridline and its tick label; stated of the whole drawing by `Render` |
| `BarChart.BarAt` | src/components/SVGBarChart.tsx:55-65 | no contract of its own: one bar and its value label; stated of the whole drawing by `Render` |
| `BarChart.CategoryAt` | src/components/SVGBarChart.tsx:68-82 | no contract of its own: one rotated category label; stated of the whole drawing by `Render` |
| `BarChart.Render` | src/components/SVGBarChart.tsx:44-91 | 11 gridlines at `y(t)` spanning the inner width, each with its tick label `t` at `(left - 8, y(t) + 4)` anchored `end`. Bar i is exactly the rectangle `(x(i), y(v), barW, barH(v))` with corner radius 3 and fill `colorFor(v)`, so the properties of `X`, `Y` and `BarH` hold of the drawing: at least 2 wide, on the baseline, within the plot, centred on the band. Its value label sits 6 above the bar top at the band centre and shows `Math.round(v)`. Category labels sit 18 below the baseline at the band centre, with anchor `end` iff the angle is negative. Then the y axis and the title 'Rating' rotated by -90 degrees |
| `BarChart.RenderBarGeometry` | src/components/SVGBarChart.tsx:57-58 | bar i of the drawing has left edge `x(i)`, top edge `y(v)`, width `barW` and height `barH(v)` for its value v |
| `BarChart.RenderHigherIsHigher` | src/components/SVGBarChart.tsx:36-37 | in any drawing with a non-negative plot height, the bar for a larger value is at least as tall and its top edge no lower |
| `BarChart.FourBarExample` | src/components/SVGBarChart.tsx:55-65 | in a default-height chart of four values whose first is 0 and third is 100, such as [0, 50, 100, 75], the bar for 100 starts at the top margin (y = 20), the bar for 0 has height 0 on the baseline (y = 307.5), and the bars are 0.7 * 702 / 4 wide |
| `BarChart.FourBarFrame` | src/components/SVGBarChart.tsx:22-37 | the default frame for four labels: bars 0.7 * 702 / 4 wide, `y(100) = 20`, `barH(0) = 0` and `y(0) = 307.5` |
| `BarChart.FourBarOrder` | src/components/SVGBarChart.tsx:55-65 | in the same chart the bar for 100 has the least y of the four |
| `ValueStepper.Adjust` | src/components/ValueStepper.tsx:17-21 | nothing is reported iff the stepper is disabled; a reported value lies in [min, max] when min <= max |
| `ValueStepper.Amount` | src/components/ValueStepper.tsx:28-38 | no contract of its own: the buttons' steps -10, -1, +1 and +10; used by `EnabledReportsClamp`, `IdempotentAtBounds` and `EnabledButtonMoves` |
| `ValueStepper.ButtonDisabled` | src/components/ValueStepper.tsx:28-38 | -10/-1 are disabled iff `disabled \|\| value <= min`; +1/+10 iff `disabled \|\| value >= max` |
| `ValueStepper.DisabledNeverReports` | src/components/ValueStepper.tsx:18 | a disabled stepper never calls `onChange` |
| `ValueStepper.EnabledReportsClamp` | src/components/ValueStepper.tsx:19-20 | an enabled stepper reports exactly `clamp(value + amount, min, max)` |
| `ValueStepper.IdempotentAtBounds` | src/components/ValueStepper.tsx:19 | +1 and +10 at max report max; -1 and -10 at min report min |
| `ValueStepper.AdjustMonotone` | src/components/ValueStepper.tsx:19 | for an in-range value a positive step never reports less and a negative step never reports more |
| `ValueStepper.EnabledButtonMoves` | src/components/ValueStepper.tsx:28-38 | an enabled decrement button reports strictly less than the value; an enabled increment button strictly more |
| `ValueStepper.DisabledButtonIsNoOp` | src/components/ValueStepper.tsx:28-38 | for an in-range value, a button disabled by its bound would report the value unchanged |
| `RouteGate.Route` | src/middleware.ts:29-52 | `onRequest`: redirect to /auth/login iff no user is signed in and one protected prefix matches; redirect to /profile/choose-username iff a user is signed in, has no username, the path does not start with /profile/choose-username and no allowed prefix matches; otherwise `next()` |
| `RouteGate.StartsWith` | src/middleware.ts:45 | no contract of its own: `startsWith`; used by `MatchesSegment` and `NoChooseUsernameLoop` |
| `RouteGate.Matches` | src/middleware.ts:32 | no contract of its own: `path === p \|\| path.startsWith(p + '/')`; characterised by `MatchesSegment` |
| `RouteGate.MatchesAny` | src/middleware.ts:44 | no contract of its own: the `.some` over a prefix list; characterised by `MatchesAnyIff` |
| `RouteGate.Target` | src/middleware.ts:33-48 | no contract of its own: where each redirect leads; used by `RedirectTargetsContinue` |
| `RouteGate.MatchesSegment` | src/middleware.ts:32 | a path matches a prefix iff it starts with it and either ends there or continues with '/' |
| `RouteGate.SegmentExamples` | src/middleware.ts:32 | '/rate' and '/rate/x' match '/rate'; '/rates' does not |
| `RouteGate.MatchesAnyIff` | src/middleware.ts:32 | a list matches iff one of its prefixes matches |
| `RouteGate.ProtectedNeedsLogin` | src/middleware.ts:32-34 | a protected path without a user redirects to /auth/login |
| `RouteGate.AnonymousNeverGated` | src/middleware.ts:32-37 | a visitor who is not signed in never reaches the username gate and continues iff the path is not protected |
| `RouteGate.UsernameGate` | src/middleware.ts:37-50 | a signed-in user is redirected to /profile/choose-username iff they have no username, no allowed prefix matches, and the path does not start with /profile/choose-username; otherwise they continue, always when they have a username |
| `RouteGate.NoChooseUsernameLoop` | src/middleware.ts:45-48 | a path starting with /profile/choose-username is never redirected there |
| `RouteGate.ApiAndAuthNotGated` | src/middleware.ts:5-11 | /api and /auth paths, and the paths under them, are never redirected by the username gate |
| `RouteGate.RedirectTargetsContinue` | src/middleware.ts:32-52 | following either redirect with the same session gives `next()` |
| `RatingBoard.InitialRatings` | src/components/RateChartIsland.tsx:28-38 | the keys are exactly the season ids; each season gets its prior rating if present, else 50 |
| `RatingBoard.IsDirty` | src/components/RateChartIsland.tsx:42-44 | no contract of its own: `isDirty`; characterised by `IsDirtyIff` |
| `RatingBoard.IsDirtyIff` | src/components/RateChartIsland.tsx:42-44 | the board is dirty iff some season has `ratings[id] ?? 0 != saved[id] ?? 0` |
| `RatingBoard.IsDirtyIgnoresOtherKeys` | src/components/RateChartIsland.tsx:42-44 | keys outside the seasons do not affect the dirty flag |
| `RatingBoard.NotDirtyWhenEqual` | src/components/RateChartIsland.tsx:42-44 | equal copies are never dirty |
| `RatingBoard.ChangeMakesDirty` | src/components/RateChartIsland.tsx:42-52 | editing a season to a value different from its saved one makes the board dirty |
| `RatingBoard.Batch` | src/components/RateChartIsland.tsx:59 | one item per season, in the seasons' order, rated `ratings[id] ?? 0` |
| `RatingBoard.BatchEqualIffClean` | src/components/RateChartIsland.tsx:43-59 | two copies submit the same batch iff neither is dirty with respect to the other |
| `RatingBoard.Values` | src/components/RateChartIsland.tsx:47 | the chart's values are, season by season, the ratings a save would submit |
| `RatingBoard.Labels` | src/components/RateChartIsland.tsx:46 | no contract of its own: the season titles in order; stated of the drawn chart by `Board.Chart` |
| `RatingBoard.FailureText` | src/components/RateChartIsland.tsx:66-72 | a failure message is never empty: the error text if present, else 'Save failed' |
| `RatingBoard.SaveBlocked` | src/components/RateChartIsland.tsx:55 | no contract of its own: `!emailVerified \|\| !isDirty \|\| saving`; its effect is stated by `Board.BeginSave` and `UnsavedNotice` |
| `RatingBoard.UnsavedNotice` | src/components/RateChartIsland.tsx:151 | the "unsaved changes" notice shows exactly when the save button is enabled |
| `RatingBoard.CleanAfterSuccess` | src/components/RateChartIsland.tsx:59-70 | after saving a snapshot, the board is clean iff the working copy submits the same batch as the snapshot |
| `RatingBoard.Board.constructor` | src/components/RateChartIsland.tsx:28-40 | both copies start as `InitialRatings`, not dirty, not saving, no message |
| `RatingBoard.Board.Valid` | src/components/RateChartIsland.tsx:28-38 | no contract of its own: the board invariant, every season has an entry in both copies (and in the copy being saved); kept by every method and used by `Board.BeginSave` and `Board.Chart` to read entries without a default |
| `RatingBoard.Board.Dirty` | src/components/RateChartIsland.tsx:42-44 | no contract of its own: `isDirty` of the board's two copies |
| `RatingBoard.Board.SaveButtonDisabled` | src/components/RateChartIsland.tsx:143 | no contract of its own: the save button's `disabled`; the guard `Board.BeginSave` tests, and the negation of `UnsavedNotice` |
| `RatingBoard.Board.Chart` | src/components/RateChartIsland.tsx:46-47 | one bar per season whose height is `barH` and whose top edge is `y` of the working rating `ratings[id] ?? 0`, labelled with its rounded value, and one category label per season title; under the board invariant the rating is the entry itself |
| `RatingBoard.Board.OnChange` | src/components/RateChartIsland.tsx:49-52 | sets `ratings[id] := value`, keeps every other key and `saved`, clears `msg` |
| `RatingBoard.Board.BeginSave` | src/components/RateChartIsland.tsx:54-65 | when blocked (the save button's own condition) nothing changes and no request is made; otherwise `saving` is set, `msg` cleared, and the request is the batch of the current working copy, which is remembered; item i is season i with its working rating, read without a default because of the board invariant |
| `RatingBoard.Board.CompleteSave` | src/components/RateChartIsland.tsx:66-75 | on success `saved` becomes the submitted copy and `msg` 'Saved!'; on failure both copies are unchanged and `msg` is the failure text; `saving` is false either way; a success with no edit since the save began leaves the board clean |
| `RatingBoard.FailedSaveScenario` | src/components/RateChartIsland.tsx:54-75 | ratings 80 and 20 over saved 50s: the request lists both in order, a second save is refused while the first runs, and a failure keeps both copies, keeps the board dirty and shows the error |
| `RatingBoard.SuccessfulSaveScenario` | src/components/RateChartIsland.tsx:54-75 | the same edits saved successfully: the saved copy is 80 and 20, the message is 'Saved!', the board is clean and the save button disabled |
| `RatingBoard.EditDuringSaveScenario` | src/components/RateChartIsland.tsx:54-75 | an edit made while a save runs: after success the saved copy is the snapshot and the board is still dirty |

## Left out

- The board's unused layout block (`RateChartIsland.tsx:78-92`), including its `window.innerWidth` read, is dead code: the chart draws with its own layout.
- Network transport (`fetch`, `res.json()`): the save's end is the `SaveOutcome` input. A failure's message is whatever error was caught.
- The two backend lookups of the middleware (the current user, the profile's username) are the boolean inputs `loggedIn` and `hasUsername`. An empty username counts as none. The cookie adapter is not modelled.
- JSX markup and CSS: the message colour, the "Saving…" label, the legend swatches and the title text.
- `toCss`'s string formatting: colours are records of three integer channels and an opacity.
- IEEE floating point: all arithmetic is exact over the reals. NaN and infinities are not modelled.
- The `s ?? 0` in `colorFor` and the `v ?? 0` in the value label: every caller passes a number, built from `ratings[id] ?? 0`.
- React's render closures: the model runs events one after another, each seeing the state left by the previous one. Two clicks handled within a single render, both seeing `saving == false`, are not modelled.
- `emailVerified` and `seasons` are fixed for a board's lifetime (const fields), although React props could change between renders.
- The API route handlers, the server-side client helper, the avatar uploader and the build configuration are not part of this model: they are request/response glue around the backend.
