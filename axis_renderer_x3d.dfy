/**
 * The horizontal 3D axis renderer: grid lines are placed at a location
 * interpolated within their cell and drawn as a skewed three-vertex path that
 * simulates depth, using the chart's (dx3D, dy3D) offset.
 */
module AxisRendering3D {
  import opened Scene
  import opened AmMath
  import opened AxisTransform
  import opened AxisRendering

  /** The position at `location` (0 = start, 1 = end) between two positions. */
  function Interpolate(position: real, endPosition: real, location: real): real {
    position + (endPosition - position) * location
  }

  /** Location 0 gives the cell's start position and location 1 its end position. */
  lemma InterpolateEnds(position: real, endPosition: real)
    ensures Interpolate(position, endPosition, 0.0) == position
    ensures Interpolate(position, endPosition, 1.0) == endPosition
  {
  }

  /** A location within [0, 1] gives a position between the two ends, whichever way round they are. */
  lemma InterpolateBetween(position: real, endPosition: real, location: real)
    requires 0.0 <= location <= 1.0
    ensures position <= endPosition ==> position <= Interpolate(position, endPosition, location) <= endPosition
    ensures endPosition <= position ==> endPosition <= Interpolate(position, endPosition, location) <= position
  {
    if position <= endPosition {
      InterpolateAscending(position, endPosition, location);
    }
    if endPosition <= position {
      InterpolateDescending(position, endPosition, location);
    }
  }

  lemma InterpolateAscending(position: real, endPosition: real, location: real)
    requires 0.0 <= location <= 1.0 && position <= endPosition
    ensures position <= Interpolate(position, endPosition, location) <= endPosition
  {
    var gap := endPosition - position;
    ScaledGap(gap, location);
    var shift := gap * location;
    assert 0.0 <= shift <= gap;
    assert Interpolate(position, endPosition, location) == position + shift;
  }

  lemma InterpolateDescending(position: real, endPosition: real, location: real)
    requires 0.0 <= location <= 1.0 && endPosition <= position
    ensures endPosition <= Interpolate(position, endPosition, location) <= position
  {
    var gap := position - endPosition;
    ScaledGap(gap, location);
    var shift := gap * location;
    assert 0.0 <= shift <= gap;
    assert (endPosition - position) * location == -shift;
    assert Interpolate(position, endPosition, location) == position - shift;
  }

  lemma ScaledGap(gap: real, location: real)
    requires gap >= 0.0 && 0.0 <= location <= 1.0
    ensures 0.0 <= gap * location <= gap
  {
    MultiplyMonotone(0.0, location, gap);
    MultiplyMonotone(location, 1.0, gap);
  }

  /** A grid line whose whole cell lies in the visible window is never hidden, wherever in the cell it sits. */
  lemma GridInsideVisibleCell(start: real, end: real, position: real, endPosition: real, location: real)
    requires 0.0 <= location <= 1.0
    requires start <= position <= end && start <= endPosition <= end
    ensures !OutsideWindow(start, end, Interpolate(position, endPosition, location), 0.0, 1.0)
  {
    InterpolateBetween(position, endPosition, location);
    OutsideFullWindow(start, end, Interpolate(position, endPosition, location));
  }

  /** The skewed grid path: from (dx, dy) down by the container height, then back to (0, h). */
  function DepthPath(dx: real, dy: real, height: real): Path {
    [MoveTo(Point(dx, dy)), LineTo(Point(dx, height + dy)), LineTo(Point(0.0, height))]
  }

  /**
   * The path is one move and two lines; its first edge is vertical and as tall
   * as the grid container, and its last edge runs back along the depth offset
   * (dx, dy) to the foot of the unshifted grid line at (0, height).
   */
  lemma DepthPathShape(dx: real, dy: real, height: real)
    ensures var path := DepthPath(dx, dy, height);
      && |path| == 3 && path[0].MoveTo? && path[1].LineTo? && path[2].LineTo?
      && path[1].to.x == path[0].to.x
      && path[1].to.y - path[0].to.y == height
      && path[1].to.x - path[2].to.x == dx && path[1].to.y - path[2].to.y == dy
      && path[2].to == Point(0.0, height)
  {
  }

  class AxisRendererX3D {
    /** The renderer state this variant extends. */
    const renderer: AxisRenderer

    /** Builds the variant on top of a base renderer; the variant starts without a chart. */
    constructor (renderer: AxisRenderer)
      modifies renderer`chart
      ensures this.renderer == renderer && renderer.chart == null
    {
      this.renderer := renderer;
      renderer.chart := null;
    }

    /**
     * Places a grid line at the position interpolated by its location: writes the
     * skewed path when the line has an SVG element, then always moves it and hides
     * it exactly when that position lies outside the axis window.
     */
    method UpdateGridElement(grid: Sprite, position: real, endPosition: real, positionToPoint: real -> Point)
      requires renderer.axis != null
      requires grid.hasElement ==> renderer.chart != null
      modifies grid
      ensures var p := Interpolate(position, endPosition, old(grid.location));
        && grid.point == positionToPoint(p)
        && (grid.disabled <==> p < renderer.axis.start || p > renderer.axis.end)
      ensures grid.d == if old(grid.hasElement)
                        then DepthPath(renderer.chart.dx3D, renderer.chart.dy3D, renderer.gridHeight)
                        else old(grid.d)
      ensures grid.location == old(grid.location) && grid.hasElement == old(grid.hasElement)
    {
      var p := position + (endPosition - position) * grid.location;
      var point := positionToPoint(p);
      if grid.hasElement {
        var dx := renderer.chart.dx3D;
        var dy := renderer.chart.dy3D;
        var h := renderer.gridHeight;
        grid.d := [MoveTo(Point(dx, dy))] + [LineTo(Point(dx, h + dy))] + [LineTo(Point(0.0, h))];
      }
      renderer.PositionItem(grid, point);
      renderer.ToggleVisibility(grid, p, 0.0, 1.0);
      OutsideFullWindow(renderer.axis.start, renderer.axis.end, p);
    }

    /** Draws the base grid with the same skewed path as every grid line. */
    method UpdateBaseGridElement()
      requires renderer.chart != null && renderer.baseGrid.hasElement
      modifies renderer.baseGrid`d
      ensures renderer.baseGrid.d == DepthPath(renderer.chart.dx3D, renderer.chart.dy3D, renderer.gridHeight)
    {
      var h := renderer.gridHeight;
      var dx := renderer.chart.dx3D;
      var dy := renderer.chart.dy3D;
      renderer.baseGrid.d := [MoveTo(Point(dx, dy))] + [LineTo(Point(dx, h + dy))] + [LineTo(Point(0.0, h))];
    }

    /** Ignores a missing chart, keeping the previous one; otherwise stores it. */
    method SetChart(chart: Chart?)
      modifies renderer`chart
      ensures renderer.chart == if chart != null then chart else old(renderer.chart)
    {
      if chart != null {
        renderer.chart := chart;
      }
    }

    /** Invalidates the renderer exactly when the chart's "depth" or "angle" changed. */
    method Handle3DChanged(property: string)
      modifies renderer`invalidations
      ensures renderer.invalidations ==
              old(renderer.invalidations) + (if property == "depth" || property == "angle" then 1 else 0)
    {
      if property == "depth" || property == "angle" {
        renderer.invalidations := renderer.invalidations + 1;
      }
    }
  }
}
