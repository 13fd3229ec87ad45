/**
 * The pure part of the base axis renderer: the linear position <-> coordinate
 * transforms, the windowed visibility test, the layout save/restore performed
 * around range changes, and the placeholder geometry of the base class.
 *
 * A position is a real number (0 and 1 are the ends of the axis's data domain);
 * a coordinate is a pixel offset along the axis.
 */
module AxisTransform {
  import opened Wrappers
  import opened AmMath
  import opened Scene

  /** What the transforms read from the axis: its visible window and its full pixel length. */
  datatype AxisWindow = AxisWindow(start: real, end: real, fullLength: real)

  // ---------------------------------------------------------------------------
  // Position <-> coordinate

  /** The coordinate of a position before rounding. */
  function RawCoordinate(w: AxisWindow, inversed: bool, position: real): real {
    if inversed then (w.end - position) * w.fullLength else (position - w.start) * w.fullLength
  }

  /** `positionToCoordinate`: the raw coordinate rounded to one decimal. */
  function PositionToCoordinate(w: AxisWindow, inversed: bool, position: real): (c: real)
    ensures Abs(c - RawCoordinate(w, inversed, position)) <= HalfUnit(1)
  {
    RoundError(RawCoordinate(w, inversed, position), 1);
    Round(RawCoordinate(w, inversed, position), 1)
  }

  /**
   * The position of a coordinate before rounding; `None` when the full length
   * is zero, where the division yields a non-finite number.
   */
  function RawPosition(w: AxisWindow, inversed: bool, coordinate: real): (r: Option<real>)
    ensures r.None? <==> w.fullLength == 0.0
  {
    if w.fullLength == 0.0 then None
    else if inversed then Some(w.end - coordinate / w.fullLength)
    else Some(coordinate / w.fullLength + w.start)
  }

  /** `coordinateToPosition`: the raw position rounded to five decimals. */
  function CoordinateToPosition(w: AxisWindow, inversed: bool, coordinate: real): (r: Option<real>)
    ensures r.None? <==> w.fullLength == 0.0
    ensures r.Some? ==> Abs(r.value - RawPosition(w, inversed, coordinate).value) <= HalfUnit(5)
  {
    match RawPosition(w, inversed, coordinate)
    case None => None
    case Some(p) => RoundError(p, 5); Some(Round(p, 5))
  }

  /** Before rounding, coordinateToPosition undoes positionToCoordinate, in both directions of the axis. */
  lemma PositionRoundTripExact(w: AxisWindow, inversed: bool, position: real)
    requires w.fullLength != 0.0
    ensures RawPosition(w, inversed, RawCoordinate(w, inversed, position)) == Some(position)
  {
    var l := w.fullLength;
    var offset := if inversed then w.end - position else position - w.start;
    var c := RawCoordinate(w, inversed, position);
    assert c == offset * l;
    CancelFactor(offset, l);
    assert c / l == offset;
  }

  /** Before rounding, positionToCoordinate undoes coordinateToPosition, in both directions of the axis. */
  lemma CoordinateRoundTripExact(w: AxisWindow, inversed: bool, coordinate: real)
    requires w.fullLength != 0.0
    ensures RawPosition(w, inversed, coordinate).Some?
    ensures RawCoordinate(w, inversed, RawPosition(w, inversed, coordinate).value) == coordinate
  {
    var l := w.fullLength;
    assert coordinate / l * l == coordinate;
  }

  /** The window's first edge is coordinate 0: `start` on a normal axis, `end` on an inversed one. */
  lemma WindowEdgeIsOrigin(w: AxisWindow)
    ensures PositionToCoordinate(w, false, w.start) == 0.0
    ensures PositionToCoordinate(w, true, w.end) == 0.0
    ensures w.fullLength != 0.0 ==> CoordinateToPosition(w, false, 0.0) == Some(Round(w.start, 5))
    ensures w.fullLength != 0.0 ==> CoordinateToPosition(w, true, 0.0) == Some(Round(w.end, 5))
  {
    assert RawCoordinate(w, false, w.start) == 0.0;
    assert RawCoordinate(w, true, w.end) == 0.0;
    assert Pow10(1) == 10;
    assert Round(0.0, 1) == RoundAt(0.0, 10.0) == 0.0;
  }

  /** On an axis of non-negative length the raw coordinate grows with the position, or shrinks when inversed. */
  lemma RawCoordinateMonotone(w: AxisWindow, inversed: bool, p: real, q: real)
    requires w.fullLength >= 0.0 && p <= q
    ensures !inversed ==> RawCoordinate(w, inversed, p) <= RawCoordinate(w, inversed, q)
    ensures inversed ==> RawCoordinate(w, inversed, p) >= RawCoordinate(w, inversed, q)
  {
    if inversed {
      MultiplyMonotone(w.end - q, w.end - p, w.fullLength);
    } else {
      MultiplyMonotone(p - w.start, q - w.start, w.fullLength);
    }
  }

  /** Rounding keeps that order: positionToCoordinate is monotone in the position. */
  lemma CoordinateMonotone(w: AxisWindow, inversed: bool, p: real, q: real)
    requires w.fullLength >= 0.0 && p <= q
    ensures !inversed ==> PositionToCoordinate(w, inversed, p) <= PositionToCoordinate(w, inversed, q)
    ensures inversed ==> PositionToCoordinate(w, inversed, p) >= PositionToCoordinate(w, inversed, q)
  {
    RawCoordinateMonotone(w, inversed, p, q);
    if inversed {
      RoundMonotone(RawCoordinate(w, inversed, q), RawCoordinate(w, inversed, p), 1);
    } else {
      RoundMonotone(RawCoordinate(w, inversed, p), RawCoordinate(w, inversed, q), 1);
    }
  }

  /** Before the final rounding, the position recovered from the rounded coordinate is off by the coordinate's rounding error, scaled back by the length. */
  lemma RawPositionAfterRounding(w: AxisWindow, inversed: bool, position: real)
    requires w.fullLength != 0.0
    ensures RawPosition(w, inversed, PositionToCoordinate(w, inversed, position)).Some?
    ensures Abs(RawPosition(w, inversed, PositionToCoordinate(w, inversed, position)).value - position)
            <= HalfUnit(1) / Abs(w.fullLength)
  {
    var l := w.fullLength;
    var offset := if inversed then w.end - position else position - w.start;
    var raw := RawCoordinate(w, inversed, position);
    assert raw == offset * l;
    var c := PositionToCoordinate(w, inversed, position);
    var delta := c - raw;
    DividedError(delta, l, HalfUnit(1));
    CancelFactor(offset, l);
    DivideSum(raw, delta, l);
    assert c / l == offset + delta / l;
  }

  /**
   * With rounding, a position survives the round trip through a coordinate up to
   * half a tenth of a pixel (scaled back by the axis length) plus half of the fifth decimal.
   */
  lemma PositionRoundTrip(w: AxisWindow, inversed: bool, position: real)
    requires w.fullLength != 0.0
    ensures CoordinateToPosition(w, inversed, PositionToCoordinate(w, inversed, position)).Some?
    ensures Abs(CoordinateToPosition(w, inversed, PositionToCoordinate(w, inversed, position)).value - position)
            <= HalfUnit(1) / Abs(w.fullLength) + HalfUnit(5)
  {
    RawPositionAfterRounding(w, inversed, position);
  }

  /**
   * On an axis at least 527 pixels long the round trip stays within 1e-4
   * (0.05 / 527 + 0.000005 is just under 0.0001).
   */
  lemma PositionRoundTripLongAxis(w: AxisWindow, inversed: bool, position: real)
    requires Abs(w.fullLength) >= 527.0
    ensures CoordinateToPosition(w, inversed, PositionToCoordinate(w, inversed, position)).Some?
    ensures Abs(CoordinateToPosition(w, inversed, PositionToCoordinate(w, inversed, position)).value - position)
            <= 0.0001
  {
    PositionRoundTrip(w, inversed, position);
    assert Pow10(1) == 10 && Pow10(5) == 100000;
    DivideByLarger(HalfUnit(1), Abs(w.fullLength), 527.0);
  }

  /** On a one-pixel axis the round trip of 0.33 lands on 0.3, a tenth of a pixel being a tenth of the axis. */
  lemma PositionRoundTripShortAxis()
    ensures CoordinateToPosition(AxisWindow(0.0, 1.0, 1.0), false,
              PositionToCoordinate(AxisWindow(0.0, 1.0, 1.0), false, 0.33)) == Some(0.3)
  {
    var w := AxisWindow(0.0, 1.0, 1.0);
    assert Pow10(1) == 10 && Pow10(5) == 100000;
    assert RawCoordinate(w, false, 0.33) == 0.33;
    assert (0.33 * 10.0 + 0.5).Floor == 3;
    assert PositionToCoordinate(w, false, 0.33) == 0.3;
    assert RawPosition(w, false, 0.3) == Some(0.3);
    assert (0.3 * 100000.0 + 0.5).Floor == 30000;
  }

  // ---------------------------------------------------------------------------
  // Windowed visibility

  /** The point at `fraction` of the visible window `[start, end]`. */
  function WindowBound(start: real, end: real, fraction: real): real {
    start + (end - start) * fraction
  }

  /**
   * `toggleVisibility`'s test: an element is disabled when its position lies
   * below the window's `minPosition` fraction or above its `maxPosition` fraction.
   */
  predicate OutsideWindow(start: real, end: real, position: real, minPosition: real, maxPosition: real) {
    position < WindowBound(start, end, minPosition) || position > WindowBound(start, end, maxPosition)
  }

  /**
   * With bounds 0 and 1 an element is hidden exactly when it lies outside
   * `[start, end]`; on a window with `start <= end` both ends stay visible.
   */
  lemma OutsideFullWindow(start: real, end: real, position: real)
    ensures OutsideWindow(start, end, position, 0.0, 1.0) <==> position < start || position > end
    ensures start <= end ==>
              !OutsideWindow(start, end, start, 0.0, 1.0) && !OutsideWindow(start, end, end, 0.0, 1.0)
  {
  }

  /**
   * The bounds are fractions of the current window: on a non-empty window, the
   * element at fraction `t` of it is hidden exactly when `t` lies outside `[minPosition, maxPosition]`.
   */
  lemma OutsideWindowAtFraction(start: real, end: real, t: real, minPosition: real, maxPosition: real)
    requires start < end
    ensures OutsideWindow(start, end, WindowBound(start, end, t), minPosition, maxPosition)
            <==> t < minPosition || t > maxPosition
  {
    ScaleOrder(end - start, t, minPosition);
    ScaleOrder(end - start, maxPosition, t);
  }

  /**
   * On the window [0.2, 0.8] with label bounds 0.1 and 0.9 the visible range is
   * [0.26, 0.74]: position 0.19 is hidden, while 0.26 and 0.74 themselves stay visible.
   */
  lemma LabelBoundsExample()
    ensures OutsideWindow(0.2, 0.8, 0.19, 0.1, 0.9)
    ensures !OutsideWindow(0.2, 0.8, 0.26, 0.1, 0.9) && !OutsideWindow(0.2, 0.8, 0.74, 0.1, 0.9)
    ensures OutsideWindow(0.2, 0.8, 0.75, 0.1, 0.9)
  {
  }

  // ---------------------------------------------------------------------------
  // Layout save/restore around range changes

  /** The renderer's `layout` and the layout saved by the first range change (`_originalLayout`). */
  datatype LayoutMemo = LayoutMemo(layout: Option<string>, saved: Option<string>)

  /** JavaScript falsiness of an optional string: undefined or empty. */
  predicate Falsy(s: Option<string>) {
    s.None? || s.value == ""
  }

  /** "rangechangestarted": save the layout unless one is saved already, then switch to "none". */
  function RangeChangeStarted(m: LayoutMemo): LayoutMemo {
    LayoutMemo(Some("none"), if Falsy(m.saved) then m.layout else m.saved)
  }

  /** "rangechangeended": restore the saved layout (the saved value is kept). */
  function RangeChangeEnded(m: LayoutMemo): LayoutMemo {
    LayoutMemo(m.saved, m.saved)
  }

  /** `count` consecutive "rangechangestarted" events. */
  function RangeChangesStarted(m: LayoutMemo, count: nat): LayoutMemo {
    if count == 0 then m else RangeChangeStarted(RangeChangesStarted(m, count - 1))
  }

  /** A start followed by an end brings back the layout from before the start, when nothing was saved yet. */
  lemma StartThenEndRestoresLayout(m: LayoutMemo)
    requires Falsy(m.saved)
    ensures RangeChangeStarted(m).layout == Some("none")
    ensures RangeChangeEnded(RangeChangeStarted(m)).layout == m.layout
  {
  }

  /** Once a truthy layout is saved, further starts keep it and keep the layout at "none". */
  lemma {:induction false} StartsKeepSavedLayout(m: LayoutMemo, count: nat)
    requires !Falsy(m.saved)
    ensures RangeChangesStarted(m, count).saved == m.saved
    ensures count > 0 ==> RangeChangesStarted(m, count).layout == Some("none")
  {
    if count > 0 {
      StartsKeepSavedLayout(m, count - 1);
    }
  }

  /**
   * Any number of starts (at least one) followed by an end restore a truthy
   * layout that was in force before the first start.
   */
  lemma {:induction false} StartsThenEndRestoreLayout(m: LayoutMemo, count: nat)
    requires Falsy(m.saved) && !Falsy(m.layout) && count >= 1
    ensures RangeChangeEnded(RangeChangesStarted(m, count)).layout == m.layout
  {
    var first := RangeChangeStarted(m);
    assert first.saved == m.layout;
    StartsKeepSavedLayout(first, count - 1);
    ShiftRangeChangesStarted(m, count - 1);
  }

  /** Starting `count + 1` times is starting once and then `count` times. */
  lemma {:induction false} ShiftRangeChangesStarted(m: LayoutMemo, count: nat)
    ensures RangeChangesStarted(m, count + 1) == RangeChangesStarted(RangeChangeStarted(m), count)
  {
    if count > 0 {
      ShiftRangeChangesStarted(m, count - 1);
    }
  }

  /**
   * The saved layout is never cleared: a layout set between two range changes is
   * replaced, at the end of the next one, by the layout saved by the first.
   */
  lemma SavedLayoutOverridesLaterLayout(m: LayoutMemo, later: Option<string>)
    requires !Falsy(m.saved)
    ensures RangeChangeEnded(RangeChangeStarted(LayoutMemo(later, m.saved))).layout == m.saved
  {
  }

  /**
   * An unset layout is not protected from a second start: it saves "none", and
   * the end then leaves the layout at "none" instead of unset.
   */
  lemma RepeatedStartLosesUnsetLayout()
    ensures RangeChangeEnded(RangeChangesStarted(LayoutMemo(None, None), 2)).layout == Some("none")
  {
  }

  // ---------------------------------------------------------------------------
  // Geometry placeholders of the base renderer (variants override them)

  function BasePositionToPoint(position: real): Point { Point(0.0, 0.0) }
  function BasePositionToAngle(position: real): real { 0.0 }
  function BasePointToPosition(point: Point): real { 0.0 }
  function BasePositionRangePath(startPosition: real, endPosition: real): Path { [] }
  function BaseAxisLength(): real { 0.0 }

  /** The base renderer maps every position to the origin and angle 0, every point to position 0, every range to an empty path, and has length 0. */
  lemma BaseGeometryIsPlaceholder(position: real, point: Point, startPosition: real, endPosition: real)
    ensures BasePositionToPoint(position) == Point(0.0, 0.0)
    ensures BasePositionToAngle(position) == 0.0
    ensures BasePointToPosition(point) == 0.0
    ensures BasePointToPosition(BasePositionToPoint(position)) == 0.0
    ensures BasePositionRangePath(startPosition, endPosition) == []
    ensures BaseAxisLength() == 0.0
  {
  }
}
