/**
 * The base axis renderer as an object: its configuration, the layout it saves
 * around range changes, and the placement operations that write to the
 * elements it positions (visibility, fills, axis breaks).
 */
module AxisRendering {
  import opened Wrappers
  import opened Scene
  import opened AxisTransform
  import opened AxisFills
  import opened AmMath

  class AxisRenderer {
    var axis: Axis?
    var chart: Chart?
    var minGridDistance: real
    var inside: bool
    var inversed: bool
    var tooltipLocation: real
    var fullWidthTooltip: bool
    var cellStartLocation: real
    var cellEndLocation: real
    var minLabelPosition: real
    var maxLabelPosition: real
    var shouldClone: bool
    var layout: Option<string>
    /** `_originalLayout`: the layout saved by the first range change. */
    var originalLayout: Option<string>
    const baseGrid: Sprite
    /** The pixel height of the grid container, as measured by layout. */
    var gridHeight: real
    /** Number of `invalidate()` calls the renderer made on itself. */
    var invalidations: nat

    /** A new renderer carries the fixed defaults; `layout` is the one its container starts with. */
    constructor (layout: Option<string>)
      ensures minGridDistance == 50.0 && !inside && !inversed && tooltipLocation == 0.5
      ensures !fullWidthTooltip && cellStartLocation == 0.0 && cellEndLocation == 1.0
      ensures minLabelPosition == 0.0 && maxLabelPosition == 1.0 && !shouldClone
      ensures axis == null && chart == null
      ensures this.layout == layout && originalLayout == None
      ensures fresh(baseGrid) && baseGrid.hasElement && invalidations == 0
    {
      axis := null;
      chart := null;
      minGridDistance := 50.0;
      inside := false;
      inversed := false;
      tooltipLocation := 0.5;
      fullWidthTooltip := false;
      cellStartLocation := 0.0;
      cellEndLocation := 1.0;
      minLabelPosition := 0.0;
      maxLabelPosition := 1.0;
      shouldClone := false;
      this.layout := layout;
      originalLayout := None;
      baseGrid := new Sprite(0.0, true);
      gridHeight := 0.0;
      invalidations := 0;
    }

    /** The attached axis's window and length, as the transforms read them. */
    function Window(): AxisWindow
      reads this, axis
      requires axis != null
    {
      AxisWindow(axis.start, axis.end, axis.axisFullLength)
    }

    /** `positionToCoordinate`: the attached axis's transform, in this renderer's direction. */
    function Coordinate(position: real): real
      reads this, axis
      requires axis != null
    {
      PositionToCoordinate(Window(), inversed, position)
    }

    /** `coordinateToPosition`: `None` where the axis has no length to divide by. */
    function Position(coordinate: real): Option<real>
      reads this, axis
      requires axis != null
    {
      CoordinateToPosition(Window(), inversed, coordinate)
    }

    function Memo(): LayoutMemo
      reads this
    {
      LayoutMemo(layout, originalLayout)
    }

    /** Attaches the renderer to an axis (whose range-change events then drive the two handlers below). */
    method SetAxis(axis: Axis)
      modifies this`axis
      ensures this.axis == axis
    {
      this.axis := axis;
    }

    /** Handler of the axis's "rangechangestarted" event. */
    method OnRangeChangeStarted()
      modifies this`layout, this`originalLayout
      ensures Memo() == RangeChangeStarted(old(Memo()))
    {
      if Falsy(originalLayout) {
        originalLayout := layout;
      }
      layout := Some("none");
    }

    /** Handler of the axis's "rangechangeended" event. */
    method OnRangeChangeEnded()
      modifies this`layout
      ensures Memo() == RangeChangeEnded(old(Memo()))
    {
      layout := originalLayout;
    }

    /** Stores the distance; the attached axis re-lays out only when the value actually changed. */
    method SetMinGridDistance(value: real)
      modifies this`minGridDistance, axis
      ensures minGridDistance == value
      ensures axis != null ==>
                axis.layoutInvalidations ==
                old(axis.layoutInvalidations) + (if old(minGridDistance) != value then 1 else 0)
      ensures axis != null ==> axis.start == old(axis.start) && axis.end == old(axis.end)
      ensures axis != null ==> axis.axisFullLength == old(axis.axisFullLength)
      ensures axis != null ==> axis.dataItemInvalidations == old(axis.dataItemInvalidations)
    {
      var changed := minGridDistance != value;
      minGridDistance := value;
      if changed && axis != null {
        axis.layoutInvalidations := axis.layoutInvalidations + 1;
      }
    }

    /** The base `chart` setter stores whatever it is given. */
    method SetChart(value: Chart?)
      modifies this`chart
      ensures chart == value
    {
      chart := value;
    }

    /** Asks the attached axis, if any, to re-evaluate its data items. */
    method InvalidateAxisItems()
      modifies axis
      ensures axis != null ==> axis.dataItemInvalidations == old(axis.dataItemInvalidations) + 1
      ensures axis != null ==> axis.layoutInvalidations == old(axis.layoutInvalidations)
      ensures axis != null ==> axis.start == old(axis.start) && axis.end == old(axis.end)
      ensures axis != null ==> axis.axisFullLength == old(axis.axisFullLength)
    {
      if axis != null {
        axis.dataItemInvalidations := axis.dataItemInvalidations + 1;
      }
    }

    /** Moves an element, if there is one, to a point. */
    method PositionItem(item: Sprite?, point: Point)
      modifies item
      ensures item != null ==> item.point == point
      ensures item != null ==> item.disabled == old(item.disabled) && item.location == old(item.location)
      ensures item != null ==> item.hasElement == old(item.hasElement) && item.d == old(item.d)
    {
      if item != null {
        item.point := point;
      }
    }

    /**
     * Disables the element exactly when its position lies outside the window
     * `[start + (end - start) * minPosition, start + (end - start) * maxPosition]`.
     */
    method ToggleVisibility(sprite: Sprite, position: real, minPosition: real, maxPosition: real)
      requires axis != null
      modifies sprite`disabled
      ensures sprite.disabled == OutsideWindow(axis.start, axis.end, position, minPosition, maxPosition)
    {
      var updatedStart := axis.start + (axis.end - axis.start) * minPosition;
      var updatedEnd := axis.start + (axis.end - axis.start) * maxPosition;
      if position < updatedStart || position > updatedEnd {
        sprite.disabled := true;
      } else {
        sprite.disabled := false;
      }
    }

    /** Hands the two positions to the fill through its setters (each of which invalidates it). */
    method UpdateFillElement(fill: AxisFill, position: real, endPosition: real)
      modifies fill`startPosition, fill`endPosition, fill`invalidations
      ensures fill.startPosition == Some(position) && fill.endPosition == Some(endPosition)
      ensures fill.invalidations == old(fill.invalidations) + 2
    {
      fill.SetStartPosition(position);
      fill.SetEndPosition(endPosition);
    }

    /**
     * Moves both boundary lines of a break to their points and hides each one
     * whose position lies outside the axis window. When both lines are the same
     * element, the end line's placement is the one that remains.
     */
    method UpdateBreakElement(axisBreak: AxisBreak)
      requires axis != null
      modifies axisBreak.startLine, axisBreak.endLine
      ensures axisBreak.endLine.point == axisBreak.endPoint
      ensures axisBreak.endLine.disabled <==>
                axisBreak.endPosition < axis.start || axisBreak.endPosition > axis.end
      ensures axisBreak.startLine != axisBreak.endLine ==>
                axisBreak.startLine.point == axisBreak.startPoint &&
                (axisBreak.startLine.disabled <==>
                   axisBreak.startPosition < axis.start || axisBreak.startPosition > axis.end)
      ensures axisBreak.startLine.location == old(axisBreak.startLine.location)
      ensures axisBreak.startLine.d == old(axisBreak.startLine.d)
      ensures axisBreak.endLine.location == old(axisBreak.endLine.location)
      ensures axisBreak.endLine.d == old(axisBreak.endLine.d)
      ensures axisBreak.startLine.hasElement == old(axisBreak.startLine.hasElement)
      ensures axisBreak.endLine.hasElement == old(axisBreak.endLine.hasElement)
    {
      PositionItem(axisBreak.startLine, axisBreak.startPoint);
      ToggleVisibility(axisBreak.startLine, axisBreak.startPosition, 0.0, 1.0);
      PositionItem(axisBreak.endLine, axisBreak.endPoint);
      ToggleVisibility(axisBreak.endLine, axisBreak.endPosition, 0.0, 1.0);
      OutsideFullWindow(axis.start, axis.end, axisBreak.startPosition);
      OutsideFullWindow(axis.start, axis.end, axisBreak.endPosition);
    }
  }

  /**
   * Through a renderer attached to an axis of non-zero length, a position comes
   * back from its coordinate within half a tenth of a pixel scaled back by the
   * axis length, plus half of the fifth decimal; before rounding it comes back exactly.
   */
  lemma RendererRoundTrip(renderer: AxisRenderer, position: real)
    requires renderer.axis != null && renderer.axis.axisFullLength != 0.0
    ensures renderer.Position(renderer.Coordinate(position)).Some?
    ensures Abs(renderer.Position(renderer.Coordinate(position)).value - position)
            <= HalfUnit(1) / Abs(renderer.axis.axisFullLength) + HalfUnit(5)
    ensures RawPosition(renderer.Window(), renderer.inversed,
                        RawCoordinate(renderer.Window(), renderer.inversed, position)) == Some(position)
  {
    PositionRoundTrip(renderer.Window(), renderer.inversed, position);
    PositionRoundTripExact(renderer.Window(), renderer.inversed, position);
  }
}
