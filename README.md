# Axis renderer coordinate transforms and element placement (amCharts 4)

This project models the core of amCharts 4's axis renderers. A renderer turns
normalized axis positions into pixel coordinates and back. It decides whether
grid lines, labels, fills and break lines are visible in the current zoom
window. It positions those elements, and it saves and restores its layout
around zoom gestures. Three source files are modelled:

- `AxisRenderer.js`, the base renderer. Its pure part is in module
  `AxisTransform` (`axis_transform.dfy`): the linear transforms, the
  windowed-visibility predicate, the layout save/restore as functions on a
  `LayoutMemo`, and the base geometry placeholders. Its state-changing part is
  class `AxisRendering.AxisRenderer` (`axis_renderer.dfy`). Its range-change
  handlers are proved against the layout functions. `ToggleVisibility` and
  `UpdateBreakElement` are proved against the visibility predicate. The
  renderer's `Coordinate` and `Position` apply the transforms to its attached
  axis and its own `inversed`.
- `AxisFill.js`, the fill band. It is class `AxisFills.AxisFill`
  (`axis_fill.dfy`).
- `AxisRendererX3D.js`, the horizontal 3D renderer. It is module
  `AxisRendering3D` (`axis_renderer_x3d.dfy`): the location interpolation and
  the skewed grid path as functions with lemmas, and class `AxisRendererX3D`.

Supporting modules:

- `AmMath` (`math.dfy`) defines `$math.round(value, d)` as JavaScript's
  `Math.round` at `d` decimals: floor(value·10^d + 1/2) / 10^d. It proves the
  rounding error bound and monotonicity of that rounding.
- `Scene` (`scene.dfy`) holds the collaborators the renderers write to or read
  from: points, SVG path commands, sprites, the axis, the 3D chart and axis
  breaks.
- `Wrappers` (`wrappers.dfy`) holds `Option`, used for JavaScript `undefined`
  and non-finite numbers.

Positions and coordinates are real numbers. Rounding is the only source of
inexactness.

## Behaviour notes

- **Round-trip accuracy.** The round trip position → coordinate → position is
  exact before rounding in both directions (`PositionRoundTripExact`,
  `CoordinateRoundTripExact`). After rounding, the position comes back within
  0.05/|axisFullLength| + 0.000005 (`PositionRoundTrip`). That bound is below
  1e-4 from about 527 px on. `PositionRoundTripLongAxis` proves the 1e-4
  tolerance for axes of at least 527 px, which is a sufficient length, not
  the exact threshold. On a 1-pixel axis, 0.33 comes back as
  0.3 (`PositionRoundTripShortAxis`).
- **Label bounds are window fractions.** `minLabelPosition` and
  `maxLabelPosition` are fractions of the current window, not of the whole
  axis. On window [0.2, 0.8] with bounds 0.1/0.9, the visible range is
  [0.26, 0.74], so position 0.19 is hidden (`LabelBoundsExample`).
- **An attached axis is required.** `positionToCoordinate`,
  `coordinateToPosition`, `toggleVisibility` and `updateBreakElement`
  (AxisRenderer.js:219-220, 238-239, 416-417 and, through `toggleVisibility`,
  351-356) read `this.axis` and dereference it without a check. The 3D `updateGridElement` reaches the
  same read through `toggleVisibility`. So `Coordinate`, `Position`,
  `ToggleVisibility`, `UpdateBreakElement` and `UpdateGridElement` require an
  attached axis.
- **The 3D grid needs a chart and an element.** `updateGridElement`
  (AxisRendererX3D.js:68-69) reads `this.chart.dx3D` and `this.chart.dy3D`
  without checking for a chart whenever the grid has an element.
  `updateBaseGridElement` (AxisRendererX3D.js:84-86) reads them with no
  check at all, and calls `this.baseGrid.element.attr` without checking that
  the element exists. So `UpdateGridElement` requires a chart when the grid
  has an element. `UpdateBaseGridElement` requires a chart and a base-grid
  element.
- **Setting a fill's `location`.** The setter (AxisFill.js:125-127) makes no
  `invalidate()` call of its own. It passes `true` as the third argument of
  `setPropertyValue`. What that flag does lives in `Sprite`, which is not part
  of this model.

## Model

| member | source | states |
|---|---|---|
| `AmMath.RoundError` | dist/es2015/.internal/charts/axes/AxisRenderer.js:227 | rounding to `d` decimals (as used for coordinates and positions) moves a value by more than −½·10^−d and at most +½·10^−d |
| `AmMath.RoundMonotone` | dist/es2015/.internal/charts/axes/AxisRenderer.js:246 | rounding never reverses the order of two values |
| `AxisTransform.PositionToCoordinate` | dist/es2015/.internal/charts/axes/AxisRenderer.js:217-228 | the coordinate is within 0.05 of `(end − p)·L` when inversed and of `(p − start)·L` otherwise, where L is `axisFullLength` |
| `AxisTransform.RawPosition` | dist/es2015/.internal/charts/axes/AxisRenderer.js:236-245 | `end − c/L` when inversed, `c/L + start` otherwise; no finite position exactly when L is 0 |
| `AxisTransform.CoordinateToPosition` | dist/es2015/.internal/charts/axes/AxisRenderer.js:236-247 | undefined (non-finite) exactly when L is 0; otherwise within 0.000005 of the unrounded position |
| `AxisTransform.PositionRoundTripExact` | dist/es2015/.internal/charts/axes/AxisRenderer.js:221-245 | before rounding, coordinate→position undoes position→coordinate in both directions of the axis, whenever L ≠ 0 |
| `AxisTransform.CoordinateRoundTripExact` | dist/es2015/.internal/charts/axes/AxisRenderer.js:221-245 | before rounding, position→coordinate undoes coordinate→position in both directions of the axis, whenever L ≠ 0 |
| `AxisTransform.WindowEdgeIsOrigin` | dist/es2015/.internal/charts/axes/AxisRenderer.js:221-226 | `start` maps to coordinate 0 on a normal axis and `end` on an inversed one; coordinate 0 maps back to the rounded `start` / `end` |
| `AxisTransform.RawCoordinateMonotone` | dist/es2015/.internal/charts/axes/AxisRenderer.js:221-226 | with L ≥ 0 the unrounded coordinate is non-decreasing in the position, non-increasing when inversed |
| `AxisTransform.CoordinateMonotone` | dist/es2015/.internal/charts/axes/AxisRenderer.js:217-228 | the same monotonicity holds for the rounded coordinate |
| `AxisTransform.RawPositionAfterRounding` | dist/es2015/.internal/charts/axes/AxisRenderer.js:217-245 | mapping the rounded coordinate back (unrounded) lands within 0.05/\|L\| of the original position |
| `AxisTransform.PositionRoundTrip` | dist/es2015/.internal/charts/axes/AxisRenderer.js:217-247 | the full rounded round trip returns a position within 0.05/\|L\| + 0.000005 of the original, both inversed and not |
| `AxisTransform.PositionRoundTripLongAxis` | dist/es2015/.internal/charts/axes/AxisRenderer.js:217-247 | on an axis of at least 527 px (a sufficient length) the rounded round trip stays within 1e-4 |
| `AxisTransform.PositionRoundTripShortAxis` | dist/es2015/.internal/charts/axes/AxisRenderer.js:217-247 | on a 1 px axis over [0, 1], position 0.33 comes back as 0.3 |
| `AxisTransform.OutsideFullWindow` | dist/es2015/.internal/charts/axes/AxisRenderer.js:415-425 | with bounds 0 and 1 an element is hidden iff its position is below `start` or above `end`; on a window with start ≤ end both ends are visible |
| `AxisTransform.OutsideWindowAtFraction` | dist/es2015/.internal/charts/axes/AxisRenderer.js:415-425 | on a non-empty window, the element at fraction t of the window is hidden iff t < minPosition or t > maxPosition |
| `AxisTransform.LabelBoundsExample` | dist/es2015/.internal/charts/axes/AxisRenderer.js:417-419 | window [0.2, 0.8] with bounds 0.1/0.9 hides 0.19 and 0.75 and shows 0.26 and 0.74 |
| `AxisTransform.StartThenEndRestoresLayout` | dist/es2015/.internal/charts/axes/AxisRenderer.js:123-131 | when nothing is saved yet, a range-change start sets layout to "none" and the following end restores the layout from before the start |
| `AxisTransform.StartsKeepSavedLayout` | dist/es2015/.internal/charts/axes/AxisRenderer.js:123-128 | once a non-empty layout is saved, any number of starts keep it saved and keep the layout at "none" |
| `AxisTransform.StartsThenEndRestoreLayout` | dist/es2015/.internal/charts/axes/AxisRenderer.js:123-131 | one or more starts followed by an end restore a non-empty layout that was in force before the first start |
| `AxisTransform.SavedLayoutOverridesLaterLayout` | dist/es2015/.internal/charts/axes/AxisRenderer.js:123-131 | the saved layout is never cleared, so a layout set between two range changes is replaced by the first saved one at the next end |
| `AxisTransform.RepeatedStartLosesUnsetLayout` | dist/es2015/.internal/charts/axes/AxisRenderer.js:123-131 | an unset layout is not protected by the save: two starts then an end leave the layout at "none" |
| `AxisTransform.BaseGeometryIsPlaceholder` | dist/es2015/.internal/charts/axes/AxisRenderer.js:162-271 | the base renderer maps every position to the origin and angle 0, every point to position 0, every range to an empty path, and has axis length 0 |
| `AxisRendering.AxisRenderer.constructor` | dist/es2015/.internal/charts/axes/AxisRenderer.js:50-72 | a new renderer has minGridDistance 50, not inside, not inversed, tooltipLocation 0.5, no full-width tooltip, cell 0..1, label bounds 0..1, no cloning, no axis, no chart, no saved layout |
| `AxisRendering.AxisRenderer.SetAxis` | dist/es2015/.internal/charts/axes/AxisRenderer.js:120-122 | attaches the renderer to the given axis |
| `AxisRendering.AxisRenderer.OnRangeChangeStarted` | dist/es2015/.internal/charts/axes/AxisRenderer.js:123-128 | the new layout and saved layout are `RangeChangeStarted` of the old ones: save unless already saved (falsy test), then "none" |
| `AxisRendering.AxisRenderer.OnRangeChangeEnded` | dist/es2015/.internal/charts/axes/AxisRenderer.js:129-131 | the layout becomes the saved layout, which stays saved |
| `AxisRendering.AxisRenderer.SetMinGridDistance` | dist/es2015/.internal/charts/axes/AxisRenderer.js:371-377 | stores the distance; the attached axis gets one layout invalidation iff the value changed, and nothing else about the axis changes |
| `AxisRendering.AxisRenderer.SetChart` | dist/es2015/.internal/charts/axes/AxisRenderer.js:397-399 | the base setter stores any chart, including none |
| `AxisRendering.AxisRenderer.InvalidateAxisItems` | dist/es2015/.internal/charts/axes/AxisRenderer.js:278-283 | an attached axis gets exactly one data-item invalidation and nothing else changes |
| `AxisRendering.AxisRenderer.PositionItem` | dist/es2015/.internal/charts/axes/AxisRenderer.js:182-186 | a present element is moved to the point and nothing else about it changes |
| `AxisRendering.AxisRenderer.ToggleVisibility` | dist/es2015/.internal/charts/axes/AxisRenderer.js:415-425 | the element is disabled exactly when its position is outside [start + (end−start)·min, start + (end−start)·max]; only `disabled` changes |
| `AxisRendering.AxisRenderer.UpdateFillElement` | dist/es2015/.internal/charts/axes/AxisRenderer.js:325-328 | the fill's start and end positions become the given ones, it is invalidated twice (once per setter), and nothing else changes |
| `AxisRendering.AxisRenderer.UpdateBreakElement` | dist/es2015/.internal/charts/axes/AxisRenderer.js:351-356 | each break line moves to its point and is hidden iff its position is outside [axis.start, axis.end]; when both lines are one element, the end line's placement wins; location, path and element presence of both lines are unchanged |
| `AxisRendering.RendererRoundTrip` | dist/es2015/.internal/charts/axes/AxisRenderer.js:217-247 | through a renderer attached to an axis of non-zero length, positionToCoordinate then coordinateToPosition (in the renderer's own direction) returns the position within 0.05/\|L\| + 0.000005, and exactly before rounding |
| `AxisFills.AxisFill.constructor` | dist/es2015/.internal/charts/axes/AxisFill.js:44-56 | a new fill has the given axis, location 0, fill opacity 0, is not measured, and has no positions or path yet |
| `AxisFills.AxisFill.Draw` | dist/es2015/.internal/charts/axes/AxisFill.js:62-68 | with an axis and both positions set, `fillPath` becomes the axis's range path for them and the element's `d` equals it; otherwise both are unchanged |
| `AxisFills.AxisFill.SetStartPosition` | dist/es2015/.internal/charts/axes/AxisFill.js:83-86 | stores the start position and always invalidates once, even for an unchanged value |
| `AxisFills.AxisFill.SetEndPosition` | dist/es2015/.internal/charts/axes/AxisFill.js:104-107 | stores the end position and always invalidates once |
| `AxisFills.AxisFill.SetLocation` | dist/es2015/.internal/charts/axes/AxisFill.js:125-127 | stores the location and makes no invalidation of its own |
| `AxisRendering3D.InterpolateEnds` | dist/es2015/.internal/charts/axes/AxisRendererX3D.js:65 | the grid position equals `position` at location 0 and `endPosition` at location 1 |
| `AxisRendering3D.InterpolateBetween` | dist/es2015/.internal/charts/axes/AxisRendererX3D.js:65 | for a location in [0, 1] the grid position lies between `position` and `endPosition`, in either order |
| `AxisRendering3D.GridInsideVisibleCell` | dist/es2015/.internal/charts/axes/AxisRendererX3D.js:64-75 | a grid line whose cell lies inside [start, end] is visible for every location in [0, 1] |
| `AxisRendering3D.DepthPathShape` | dist/es2015/.internal/charts/axes/AxisRendererX3D.js:68-71 | the grid path is a move and two lines: a vertical edge of the container's height at x = dx3D, then an edge along the depth offset (dx3D, dy3D) back to (0, h) |
| `AxisRendering3D.AxisRendererX3D.constructor` | dist/es2015/.internal/charts/axes/AxisRendererX3D.js:43-55 | the 3D renderer starts with no chart |
| `AxisRendering3D.AxisRendererX3D.UpdateGridElement` | dist/es2015/.internal/charts/axes/AxisRendererX3D.js:64-75 | the path is the depth path iff the grid has an element (else unchanged); the grid is always moved to the point of the interpolated position and hidden iff that position is outside [axis.start, axis.end] |
| `AxisRendering3D.AxisRendererX3D.UpdateBaseGridElement` | dist/es2015/.internal/charts/axes/AxisRendererX3D.js:81-87 | the base grid gets the same depth path as the grid lines |
| `AxisRendering3D.AxisRendererX3D.SetChart` | dist/es2015/.internal/charts/axes/AxisRendererX3D.js:104-108 | a missing chart is ignored and the previous one stays; any other chart is stored |
| `AxisRendering3D.AxisRendererX3D.Handle3DChanged` | dist/es2015/.internal/charts/axes/AxisRendererX3D.js:117-121 | the renderer is invalidated once iff the changed property is "depth" or "angle", and otherwise nothing changes |

## Left out

- `$math.round` lives in Math.js, which is not part of this model. It is
  defined here as JavaScript's `Math.round` at the given number of decimals,
  over reals. Floating-point error is not modelled.
- `$path.moveTo` / `$path.lineTo` (Path.js) are not part of this model. They
  are `MoveTo` / `LineTo` commands, and string concatenation of path pieces is
  sequence concatenation.
- Axis.js is not part of this model. The axis is reduced to `start`, `end`,
  `axisFullLength`, a fixed `getPositionRangePath` function, and counters of
  `invalidateLayout` / `invalidateDataItems` calls. The transforms read
  `axis.renderer.inversed`, which is taken to be the renderer's own `inversed`
  (as `AxisRenderer.Coordinate` and `AxisRenderer.Position` use it).
- AxisRendererX.js is not part of this model. The 3D renderer wraps a base
  renderer state instead of inheriting from it. Its inherited `positionToPoint`
  is passed to `UpdateGridElement` as a function. The `super` call in
  `updateBaseGridElement` is not modelled.
- Sprite.js and Container.js are not part of this model.
  `setPropertyValue` is taken to report whether the stored value changed (this
  gates the axis invalidation in `SetMinGridDistance`). Its optional
  invalidate flag is not modelled. A renderer's starting `layout` (set by
  Container) is a constructor parameter, and the grid container's measured
  height is the field `gridHeight`.
- Event mechanics are not modelled. Subscribing to "rangechangestarted",
  "rangechangeended", "maxsizechanged", "sizechanged", "positionchanged" and
  the chart's "propertychanged", and disposing the previous chart
  subscription, are left out. The handlers are methods that callers invoke
  directly.
- Scene-graph plumbing is left out. This covers the child containers created
  by the constructor, the axis line, the tick template's stroke opacity,
  `baseGrid.parent` / `line.parent`, the lazily built `axisFills` / `grid` /
  `ticks` / `labels` lists and their `create*` factories, `copyFrom`,
  `processRenderer`, theming (`applyTheme`, the fill's interface colour) and
  class registration.
- The property accessors `inside`, `fullWidthTooltip`, `tooltipLocation` and
  `inversed` (AxisRenderer.js:548, 592, 616, 710) only store a value. They
  are fields of the renderer that callers assign.
- The property accessors `cellStartLocation`, `cellEndLocation`,
  `minLabelPosition` and `maxLabelPosition` (AxisRenderer.js:653, 690, 739,
  768) also pass `true` as `setPropertyValue`'s invalidate flag, so setting
  them also invalidates the renderer. They are fields that callers assign,
  and the effect of that flag is not modelled, because it lives in `Sprite`,
  which is not part of this model.
- The `opposite` accessor (AxisRenderer.js:553-573) only stores a value and has
  no default. It is not a field of the model, because nothing in the modelled
  core reads it.
- `AxisFills.AxisFill.SetLocation` does not capture the effect of the `true`
  flag that AxisFill.js:126 passes to `setPropertyValue`. That flag belongs to
  `Sprite`, which is not part of this model. The fill's `invalidations`
  counter counts only the explicit `invalidate()` calls in the setters' own
  bodies.
- The base `updateGridElement`, `updateTickElement`, `updateLabelElement`,
  `updateAxisLine`, `updateBaseGridElement`, `createBreakSprites` and
  `updateTooltip` are empty placeholders, so there is nothing to model.
- Axis-break compression and radial or circular geometry are not in the
  modelled files.
- Only `undefined` counts as "not a number" for a fill position. NaN is not
  modelled.
- Rounding idempotence (rounding a rounded value again) is not proved.
