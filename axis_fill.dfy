/**
 * A fill: a shaded band between two axis positions whose outline is asked
 * from the axis on every draw.
 */
module AxisFills {
  import opened Wrappers
  import opened Scene

  class AxisFill {
    var axis: Axis?
    /** `None` while the position is not a number (never set). */
    var startPosition: Option<real>
    var endPosition: Option<real>
    var location: real
    var isMeasured: bool
    var fillOpacity: real
    /** The last path computed by `Draw`, `None` until one is. */
    var fillPath: Option<Path>
    /** The `d` attribute of the fill's SVG path element. */
    var d: Option<Path>
    /** Number of explicit `invalidate()` calls in the fill's own setter bodies. */
    var invalidations: nat

    constructor (axis: Axis?)
      ensures this.axis == axis
      ensures !isMeasured && location == 0.0 && fillOpacity == 0.0
      ensures startPosition == None && endPosition == None
      ensures fillPath == None && d == None && invalidations == 0
    {
      this.axis := axis;
      isMeasured := false;
      location := 0.0;
      fillOpacity := 0.0;
      startPosition := None;
      endPosition := None;
      fillPath := None;
      d := None;
      invalidations := 0;
    }

    /**
     * Recomputes the outline, but only when an axis is attached and both
     * positions are numbers; otherwise the path and the element stay as they were.
     */
    method Draw()
      modifies this`fillPath, this`d
      ensures if axis != null && startPosition.Some? && endPosition.Some?
              then fillPath == Some(axis.rangePath(startPosition.value, endPosition.value)) && d == fillPath
              else fillPath == old(fillPath) && d == old(d)
    {
      if axis != null && startPosition.Some? && endPosition.Some? {
        fillPath := Some(axis.rangePath(startPosition.value, endPosition.value));
        d := fillPath;
      }
    }

    /** Stores the start position and always invalidates, even when the value is unchanged. */
    method SetStartPosition(value: real)
      modifies this`startPosition, this`invalidations
      ensures startPosition == Some(value)
      ensures invalidations == old(invalidations) + 1
    {
      startPosition := Some(value);
      invalidations := invalidations + 1;
    }

    /** Stores the end position and always invalidates, even when the value is unchanged. */
    method SetEndPosition(value: real)
      modifies this`endPosition, this`invalidations
      ensures endPosition == Some(value)
      ensures invalidations == old(invalidations) + 1
    {
      endPosition := Some(value);
      invalidations := invalidations + 1;
    }

    /** Stores the location; the setter itself makes no `invalidate()` call. */
    method SetLocation(value: real)
      modifies this`location
      ensures location == value
    {
      location := value;
    }
  }
}
