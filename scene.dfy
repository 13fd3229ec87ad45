/**
 * The collaborators the axis renderers work on: points, SVG path commands,
 * drawable elements, the axis that owns a renderer, the 3D chart and axis breaks.
 * Only the state the renderers read or write is kept.
 */
module Scene {

  datatype Point = Point(x: real, y: real)

  /** One command of an SVG path, as `$path.moveTo` and `$path.lineTo` produce it. */
  datatype PathCommand = MoveTo(to: Point) | LineTo(to: Point)

  /** A path is the concatenation of its commands. */
  type Path = seq<PathCommand>

  /** A drawable element: a grid line, tick, label or break line. */
  class Sprite {
    /** `__disabled`: the element is hidden. */
    var disabled: bool
    /** The coordinates last given to `moveTo`. */
    var point: Point
    /** Relative location within an axis cell (grid elements). */
    var location: real
    /** Whether the element's SVG `element` exists. */
    var hasElement: bool
    /** The `d` attribute of the SVG element. */
    var d: Path

    /** A visible element at the origin with an empty path. */
    constructor (location: real, hasElement: bool)
      ensures !disabled && point == Point(0.0, 0.0) && d == []
      ensures this.location == location && this.hasElement == hasElement
    {
      disabled := false;
      point := Point(0.0, 0.0);
      this.location := location;
      this.hasElement := hasElement;
      d := [];
    }
  }

  /**
   * The axis a renderer is attached to: its visible window `[start, end]`,
   * its full pixel length, its range-path generator and how often it was
   * asked to re-layout or re-evaluate its data items.
   */
  class Axis {
    var start: real
    var end: real
    var axisFullLength: real
    /** `getPositionRangePath(startPosition, endPosition)` of the axis. */
    const rangePath: (real, real) -> Path
    /** Number of `invalidateLayout()` calls received. */
    var layoutInvalidations: nat
    /** Number of `invalidateDataItems()` calls received. */
    var dataItemInvalidations: nat

    constructor (start: real, end: real, axisFullLength: real, rangePath: (real, real) -> Path)
      ensures this.start == start && this.end == end && this.axisFullLength == axisFullLength
      ensures this.rangePath == rangePath
      ensures layoutInvalidations == 0 && dataItemInvalidations == 0
    {
      this.start := start;
      this.end := end;
      this.axisFullLength := axisFullLength;
      this.rangePath := rangePath;
      layoutInvalidations := 0;
      dataItemInvalidations := 0;
    }
  }

  /** A 3D chart: the skew vector (`dx3D`, `dy3D`) that simulates depth. */
  class Chart {
    var dx3D: real
    var dy3D: real
  }

  /** An axis break: its two boundary lines with their points and positions. */
  class AxisBreak {
    const startLine: Sprite
    const endLine: Sprite
    var startPoint: Point
    var endPoint: Point
    var startPosition: real
    var endPosition: real

    constructor (startLine: Sprite, endLine: Sprite, startPoint: Point, endPoint: Point,
                 startPosition: real, endPosition: real)
      ensures this.startLine == startLine && this.endLine == endLine
      ensures this.startPoint == startPoint && this.endPoint == endPoint
      ensures this.startPosition == startPosition && this.endPosition == endPosition
    {
      this.startLine := startLine;
      this.endLine := endLine;
      this.startPoint := startPoint;
      this.endPoint := endPoint;
      this.startPosition := startPosition;
      this.endPosition := endPosition;
    }
  }
}
