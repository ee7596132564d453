/**
 * A draggable point of the calibration page
 * (services/controllers/calibration/js/Handle.js), without its DOM parts.
 *
 * The `x` and `y` setters store the new coordinate when it differs from the
 * stored one. Without bounds they store it as given. With bounds, a value in
 * the half-open span [low, low + size) is stored as given, and any other
 * value is clamped to the closed span. Mouse moves shift the handle through
 * these setters by the pointer's delta. The drag point moves by the raw delta.
 */
module CalibrationHandle {
  import opened Wrappers

  /** `this.bounds`: a rectangle given by its corner and its size. */
  datatype Bounds = Bounds(x: real, y: real, width: real, height: real)

  /** The coordinates one setter may store: from `low` to `high`. */
  datatype Span = Span(low: real, high: real)

  /** The horizontal span of the bounds, if any. */
  function XSpan(bounds: Option<Bounds>): Option<Span>
  {
    match bounds
    case None => None
    case Some(b) => Some(Span(b.x, b.x + b.width))
  }

  /** The vertical span of the bounds, if any. */
  function YSpan(bounds: Option<Bounds>): Option<Span>
  {
    match bounds
    case None => None
    case Some(b) => Some(Span(b.y, b.y + b.height))
  }

  function Max(a: real, b: real): real
  {
    if a >= b then a else b
  }

  function Min(a: real, b: real): real
  {
    if a <= b then a else b
  }

  /** Whether `v` lies in the closed span. */
  predicate Within(v: real, span: Span)
  {
    span.low <= v <= span.high
  }

  /**
   * The coordinate a setter leaves stored, from the current one and the new
   * value: unchanged for an equal value, the value itself without bounds or
   * inside [low, high), else `Math.max(low, Math.min(value, high))`.
   */
  function Assign(current: real, value: real, span: Option<Span>): (r: real)
    ensures value == current ==> r == current
    ensures span.None? ==> r == value
    ensures span.Some? && span.value.low <= value < span.value.high ==> r == value
    ensures span.Some? && value != current && span.value.low <= span.value.high ==> Within(r, span.value)
    ensures span.Some? && value != current && value < span.value.low ==> r == span.value.low
    ensures span.Some? && value != current && span.value.high <= value ==> r == Max(span.value.low, span.value.high)
  {
    if value == current then current
    else
      match span
      case None => value
      case Some(s) =>
        if s.low <= value < s.high then value
        else Max(s.low, Min(value, s.high))
  }

  /** Setting the same value a second time changes nothing. */
  lemma AssignIdempotent(current: real, value: real, span: Option<Span>)
    ensures Assign(Assign(current, value, span), value, span) == Assign(current, value, span)
  {
  }

  /** A value set inside the bounds is stored exactly; one set outside lands on the nearer edge. */
  lemma AssignNearestEdge(current: real, value: real, span: Span)
    requires span.low <= span.high && value != current
    ensures Within(value, span) ==> Assign(current, value, Some(span)) == value
    ensures !Within(value, span) ==>
      && Within(Assign(current, value, Some(span)), span)
      && (value < span.low ==> Assign(current, value, Some(span)) == span.low)
      && (value > span.high ==> Assign(current, value, Some(span)) == span.high)
  {
  }

  /** The fields of a handle, as a value. */
  datatype HandleState = HandleState(
    x: real, y: real,
    bounds: Option<Bounds>,
    lastX: Option<real>, lastY: Option<real>,
    dragX: real, dragY: real)

  /** The handle's coordinates lie within its bounds, if it has any. */
  predicate Inside(s: HandleState)
  {
    s.bounds.Some? ==> Within(s.x, XSpan(s.bounds).value) && Within(s.y, YSpan(s.bounds).value)
  }

  /** Bounds of non-negative size. */
  predicate ProperBounds(bounds: Option<Bounds>)
  {
    bounds.Some? ==> bounds.value.width >= 0.0 && bounds.value.height >= 0.0
  }

  /** `mousemove` at pointer (ex, ey): both coordinates and the drag point shift by the pointer's delta. */
  function Moved(s: HandleState, ex: real, ey: real): (r: HandleState)
    requires s.lastX.Some? && s.lastY.Some?
    ensures r.lastX == Some(ex) && r.lastY == Some(ey) && r.bounds == s.bounds
  {
    var dx := ex - s.lastX.value;
    var dy := ey - s.lastY.value;
    HandleState(
      Assign(s.x, s.x + dx, XSpan(s.bounds)),
      Assign(s.y, s.y + dy, YSpan(s.bounds)),
      s.bounds, Some(ex), Some(ey),
      s.dragX + dx, s.dragY + dy)
  }

  /** `mouseup` at (ex, ey): the drag point first snaps back to the handle, then a final move. */
  function Released(s: HandleState, ex: real, ey: real): (r: HandleState)
    requires s.lastX.Some? && s.lastY.Some?
    ensures r.lastX == Some(ex) && r.lastY == Some(ey) && r.bounds == s.bounds
    ensures ProperBounds(s.bounds) && Inside(s) ==> Inside(r)
  {
    Moved(s.(dragX := s.x, dragY := s.y), ex, ey)
  }

  /** A move keeps a handle within proper bounds. */
  lemma MovedStaysInside(s: HandleState, ex: real, ey: real)
    requires s.lastX.Some? && s.lastY.Some?
    requires ProperBounds(s.bounds) && Inside(s)
    ensures Inside(Moved(s, ex, ey))
  {
  }

  /** A move keeps the offset between the drag point and the last pointer position. */
  lemma MovedKeepsDragOffset(s: HandleState, ex: real, ey: real)
    requires s.lastX.Some? && s.lastY.Some?
    ensures Moved(s, ex, ey).dragX - ex == s.dragX - s.lastX.value
    ensures Moved(s, ex, ey).dragY - ey == s.dragY - s.lastY.value
  {
  }

  /** Without bounds the handle follows the pointer exactly, and so does the drag point. */
  lemma UnboundedFollowsPointer(s: HandleState, ex: real, ey: real)
    requires s.lastX.Some? && s.lastY.Some? && s.bounds.None?
    ensures Moved(s, ex, ey).x - ex == s.x - s.lastX.value
    ensures Moved(s, ex, ey).y - ey == s.y - s.lastY.value
    ensures Moved(s, ex, ey).x - Moved(s, ex, ey).dragX == s.x - s.dragX
  {
  }

  /**
   * After `mouseup` the drag point sits where the pointer took the handle,
   * before clamping: on the handle itself when that target is not clamped.
   */
  lemma ReleasedDragPoint(s: HandleState, ex: real, ey: real)
    requires s.lastX.Some? && s.lastY.Some?
    ensures Released(s, ex, ey).dragX == s.x + (ex - s.lastX.value)
    ensures Released(s, ex, ey).dragY == s.y + (ey - s.lastY.value)
    ensures s.bounds.None? ==>
      Released(s, ex, ey).dragX == Released(s, ex, ey).x && Released(s, ex, ey).dragY == Released(s, ex, ey).y
  {
  }

  /** `Handle`: the coordinates, bounds and drag bookkeeping, updated in place. */
  class Handle {
    /** `_x` and `_y`, read through the `x` and `y` getters. */
    var x: real
    var y: real
    var bounds: Option<Bounds>
    /** Undefined until the first `mousedown`. */
    var lastX: Option<real>
    var lastY: Option<real>
    var dragX: real
    var dragY: real

    function State(): HandleState
      reads this
    {
      HandleState(x, y, bounds, lastX, lastY, dragX, dragY)
    }

    /** The constructor: at (x, y), unbounded, the drag point on the handle. */
    constructor (x: real, y: real)
      ensures State() == HandleState(x, y, None, None, None, x, y)
    {
      this.x := x;
      this.y := y;
      bounds := None;
      lastX := None;
      lastY := None;
      dragX := x;
      dragY := y;
    }

    /** The `x` setter: only `x` changes. */
    method SetX(value: real)
      modifies this`x
      ensures State() == old(State()).(x := Assign(old(x), value, XSpan(bounds)))
    {
      if value != x {
        if bounds.Some? {
          var right := bounds.value.x + bounds.value.width;
          if bounds.value.x <= value && value < right {
            x := value;
          } else {
            x := Max(bounds.value.x, Min(value, right));
          }
        } else {
          x := value;
        }
      }
    }

    /** The `y` setter: only `y` changes. */
    method SetY(value: real)
      modifies this`y
      ensures State() == old(State()).(y := Assign(old(y), value, YSpan(bounds)))
    {
      if value != y {
        if bounds.Some? {
          var bottom := bounds.value.y + bounds.value.height;
          if bounds.value.y <= value && value < bottom {
            y := value;
          } else {
            y := Max(bounds.value.y, Min(value, bottom));
          }
        } else {
          y := value;
        }
      }
    }

    /** `mousedown`: remember the pointer position. */
    method MouseDown(ex: real, ey: real)
      modifies this`lastX, this`lastY
      ensures State() == old(State()).(lastX := Some(ex), lastY := Some(ey))
    {
      lastX := Some(ex);
      lastY := Some(ey);
    }

    /**
     * `mousemove`: only registered after `mousedown`, so the last pointer
     * position is known.
     */
    method MouseMove(ex: real, ey: real)
      requires lastX.Some? && lastY.Some?
      modifies this
      ensures State() == Moved(old(State()), ex, ey)
    {
      var dx := ex - lastX.value;
      var dy := ey - lastY.value;
      lastX := Some(ex);
      lastY := Some(ey);
      SetX(x + dx);
      SetY(y + dy);
      dragX := dragX + dx;
      dragY := dragY + dy;
    }

    /** `mouseup`: the drag point snaps back to the handle, then the final move. */
    method MouseUp(ex: real, ey: real)
      requires lastX.Some? && lastY.Some?
      modifies this
      ensures State() == Released(old(State()), ex, ey)
    {
      dragX := x;
      dragY := y;
      MouseMove(ex, ey);
    }
  }
}
