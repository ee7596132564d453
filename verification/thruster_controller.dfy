/**
 * The thrust-allocation engine (services/controllers/thruster_controller.py).
 *
 * Two joystick vectors, an ascent and a descent scalar and five PWM devices
 * make up the engine's state. An axis event rounds its value to three
 * decimals, stores it in the field its axis number selects and, when the
 * stored value changed, recomputes either the horizontal pair (HL, HR) from
 * joystick 1 or the vertical trio (VC, VL, VR) from joystick 2 and the
 * ascent/descent scalars, through angle-indexed interpolation tables.
 *
 * Thrust is modelled with reals, not floats. The unseen helpers are given
 * as follows: `Vector2D` by a `Geometry` (angle and length functions with
 * their contracts), `utils.map_range` as the linear rescale, and the PWM
 * controller's device table as a map from channel to `Device`.
 */
module ThrusterControl {
  import opened Wrappers
  import opened Interpolation
  import opened RealArith

  /** Decimal places kept by `update_axis`. */
  const PRECISION: nat := 3

  /** Channel numbers of the five thrusters. */
  const HL: int := 0  // horizontal left
  const VL: int := 1  // vertical left
  const VC: int := 2  // vertical center
  const VR: int := 3  // vertical right
  const HR: int := 4  // horizontal right

  /** PWM off ticks for full reverse, neutral and full forward. */
  const FULL_REVERSE: int := 246
  const NEUTRAL: int := 369
  const FULL_FORWARD: int := 496

  /** The "inactive" value of ascent and descent. */
  const INACTIVE: real := -1.0

  // ---------------------------------------------------------------------
  // Rounding to PRECISION decimals

  /** The nearest integer, ties to the even one (Python's `round`). */
  function RoundHalfEven(r: real): (n: int)
    ensures r - 0.5 <= n as real <= r + 0.5
    ensures r == r.Floor as real ==> n == r.Floor
  {
    var f := r.Floor;
    var frac := r - f as real;
    if frac < 0.5 then f
    else if frac > 0.5 then f + 1
    else if f % 2 == 0 then f
    else f + 1
  }

  /** 10^n: a value rounded to n decimals is a multiple of 1 / 10^n. */
  function Pow10(n: nat): (p: nat)
    ensures p >= 1
  {
    if n == 0 then 1 else 10 * Pow10(n - 1)
  }

  /**
   * `round(value, PRECISION)`: the nearest multiple of 10^-PRECISION, ties
   * to even. With PRECISION = 3 that is the nearest multiple of 0.001.
   */
  function Round3(value: real): (r: real)
    ensures -0.0005 <= r - value <= 0.0005
    ensures (r * 1000.0).Floor as real == r * 1000.0
  {
    var scale := Pow10(PRECISION) as real;
    assert scale == 1000.0;
    RoundHalfEven(value * scale) as real / scale
  }

  /** Rounding an already rounded value changes nothing. */
  lemma Round3Idempotent(value: real)
    ensures Round3(Round3(value)) == Round3(value)
  {
    var r := Round3(value);
    var n := RoundHalfEven(r * 1000.0);
    assert n == (r * 1000.0).Floor;
    assert n as real == r * 1000.0;
  }

  /** Rounding keeps an axis value inside [-1, 1]. */
  lemma Round3Within(value: real)
    requires -1.0 <= value <= 1.0
    ensures -1.0 <= Round3(value) <= 1.0
  {
    var n := RoundHalfEven(value * 1000.0);
    assert -1000.5 <= n as real <= 1000.5;
    assert -1000 <= n <= 1000;
  }

  /** Noise below the precision is filtered: 0.12345 is stored as 0.123. */
  lemma Round3Example()
    ensures Round3(0.12345) == 0.123
  {
    assert RoundHalfEven(123.45) == 123;
  }

  // ---------------------------------------------------------------------
  // From thrust to PWM tick

  /** `utils.map_range`, taken to be the linear rescale of one interval onto another. */
  function MapRange(value: real, inMin: real, inMax: real, outMin: real, outMax: real): (r: real)
    requires inMin != inMax
    ensures value == inMin ==> r == outMin
    ensures value == inMax ==> r == outMax
  {
    QuotientCancels(inMax - inMin, outMax - outMin);
    outMin + (value - inMin) * (outMax - outMin) / (inMax - inMin)
  }

  /** Python's `int()` on a float: truncation toward zero. */
  function TruncToInt(r: real): (n: int)
    ensures 0.0 <= r ==> n as real <= r < n as real + 1.0
    ensures r < 0.0 ==> n as real - 1.0 < r <= n as real
  {
    if r >= 0.0 then r.Floor else -((-r).Floor)
  }

  /** The off tick `set_motor` writes for a thrust value. */
  function PwmTick(value: real): (tick: int)
    ensures -1.0 <= value <= 1.0 ==> FULL_REVERSE <= tick <= FULL_FORWARD
  {
    TruncToInt(MapRange(value, -1.0, 1.0, FULL_REVERSE as real, FULL_FORWARD as real))
  }

  /** A thrust in [-1, 1] gives a tick in [FULL_REVERSE, FULL_FORWARD]; the ends map to the ends. */
  lemma PwmTickWithin(value: real)
    requires -1.0 <= value <= 1.0
    ensures FULL_REVERSE <= PwmTick(value) <= FULL_FORWARD
    ensures value == -1.0 ==> PwmTick(value) == FULL_REVERSE
    ensures value == 1.0 ==> PwmTick(value) == FULL_FORWARD
  {
  }

  /**
   * There is no clamp: thrust outside [-1, 1], which a direct motor message
   * can carry, yields ticks outside the PWM range.
   */
  lemma PwmTickUnclamped()
    ensures PwmTick(3.0) == 746 && PwmTick(3.0) > FULL_FORWARD
    ensures PwmTick(-4.0) == -129 && PwmTick(-4.0) < FULL_REVERSE
  {
  }

  /** Zero thrust is tick 371, two ticks above NEUTRAL. */
  lemma PwmTickOfZero()
    ensures PwmTick(0.0) == 371 && PwmTick(0.0) != NEUTRAL
  {
  }

  // ---------------------------------------------------------------------
  // Interpolation tables

  /** The five thrust tables of the engine, by the attribute that holds each. */
  datatype Role = LeftThruster | RightThruster | VFrontThruster | VBackLeftThruster | VBackRightThruster

  /** Control points at 0, 90, 180, 270 and 360 degrees, values in [-1, 1], closing on the 0-degree value. */
  ghost predicate WellFormedTable(t: seq<Point>)
  {
    && |t| == 5
    && t[0].index == 0.0 && t[1].index == 90.0 && t[2].index == 180.0
    && t[3].index == 270.0 && t[4].index == 360.0
    && ValuesWithin(t, -1.0, 1.0)
    && t[4].value == t[0].value
  }

  /** The table each role is given by the constructor. */
  function Table(role: Role): (t: seq<Point>)
    ensures WellFormedTable(t)
  {
    match role
    case LeftThruster =>
      [Point(0.0, -1.0), Point(90.0, 1.0), Point(180.0, 1.0), Point(270.0, -1.0), Point(360.0, -1.0)]
    case RightThruster =>
      [Point(0.0, 1.0), Point(90.0, 1.0), Point(180.0, -1.0), Point(270.0, -1.0), Point(360.0, 1.0)]
    case VFrontThruster =>
      [Point(0.0, 0.0), Point(90.0, -1.0), Point(180.0, 0.0), Point(270.0, 1.0), Point(360.0, 0.0)]
    case VBackLeftThruster =>
      [Point(0.0, 1.0), Point(90.0, 1.0), Point(180.0, -1.0), Point(270.0, -1.0), Point(360.0, 1.0)]
    case VBackRightThruster =>
      [Point(0.0, -1.0), Point(90.0, 1.0), Point(180.0, 1.0), Point(270.0, -1.0), Point(360.0, -1.0)]
  }

  /** A well-formed table has strictly increasing indices. */
  lemma WellFormedTableIncreasing(t: seq<Point>)
    requires WellFormedTable(t)
    ensures StrictlyIncreasing(t)
  {
  }

  /** `valueAtIndex` on a table for an angle in [0, 360]: always defined, always in [-1, 1]. */
  function TableValue(role: Role, angle: real): (v: real)
    requires 0.0 <= angle <= 360.0
    ensures -1.0 <= v <= 1.0
  {
    var t := Table(role);
    ValueAtWithin(t, angle, -1.0, 1.0);
    ValueAt(t, angle).value
  }

  /** The left table at 0, 45 and 90 degrees. */
  lemma LeftTableExamples()
    ensures TableValue(LeftThruster, 0.0) == -1.0
    ensures TableValue(LeftThruster, 90.0) == 1.0
    ensures TableValue(LeftThruster, 45.0) == 0.0
  {
    var t := Table(LeftThruster);
    WellFormedTableIncreasing(t);
    ValueAtStoredIndex(t, 0);
    ValueAtStoredIndex(t, 1);
    ValueAtBetween(t, 0, 45.0);
  }

  // ---------------------------------------------------------------------
  // Joysticks and the geometry of Vector2D

  datatype Vector2D = Vector2D(x: real, y: real)

  /**
   * What the engine uses of `Vector2D`: the angle in degrees and the length
   * of (x, y). Both are computed by code outside this model, so they are
   * parameters constrained by `ValidGeometry`.
   */
  datatype Geometry = Geometry(angle: (real, real) -> real, length: (real, real) -> real)

  /** Angles lie in [0, 360) and lengths are non-negative. */
  ghost predicate ValidGeometry(g: Geometry)
  {
    && (forall x, y :: 0.0 <= g.angle(x, y) < 360.0)
    && (forall x, y :: 0.0 <= g.length(x, y))
  }

  /** The length is the Euclidean norm of (x, y). */
  ghost predicate EuclideanLength(g: Geometry)
  {
    forall x, y :: g.length(x, y) * g.length(x, y) == x * x + y * y
  }

  /** `min(1.0, length)`: the share of full thrust a joystick asks for. */
  function Power(length: real): (p: real)
    requires 0.0 <= length
    ensures 0.0 <= p <= 1.0
    ensures p == length || (p == 1.0 && 1.0 <= length)
  {
    if 1.0 <= length then 1.0 else length
  }

  // ---------------------------------------------------------------------
  // Horizontal pair

  datatype HorizontalThrust = HorizontalThrust(left: real, right: real)

  /** HL and HR for joystick 1 at `angle` with `length`: table value times power. */
  function Horizontal(angle: real, length: real): (h: HorizontalThrust)
    requires 0.0 <= angle < 360.0 && 0.0 <= length
    ensures -1.0 <= h.left <= 1.0 && -1.0 <= h.right <= 1.0
  {
    var left := TableValue(LeftThruster, angle);
    var right := TableValue(RightThruster, angle);
    var power := Power(length);
    ScaledWithinUnit(left, power);
    ScaledWithinUnit(right, power);
    HorizontalThrust(Scale(left, power), Scale(right, power))
  }

  // ---------------------------------------------------------------------
  // Vertical trio

  /** VC, VL and VR, named as in the source: back, front left, front right. */
  datatype VerticalThrust = VerticalThrust(back: real, frontLeft: real, frontRight: real)

  predicate WithinUnit(v: VerticalThrust)
  {
    -1.0 <= v.back <= 1.0 && -1.0 <= v.frontLeft <= 1.0 && -1.0 <= v.frontRight <= 1.0
  }

  /** `max(a, b, c)`. */
  function Max3(a: real, b: real, c: real): (m: real)
    ensures a <= m && b <= m && c <= m
    ensures m == a || m == b || m == c
  {
    if a >= b && a >= c then a else if b >= c then b else c
  }

  /** `min(a, b, c)`. */
  function Min3(a: real, b: real, c: real): (m: real)
    ensures m <= a && m <= b && m <= c
    ensures m == a || m == b || m == c
  {
    if a <= b && a <= c then a else if b <= c then b else c
  }

  /** Pitch and roll from joystick 2: each table value times power. */
  function Pitched(angle: real, length: real): (v: VerticalThrust)
    requires 0.0 <= angle < 360.0 && 0.0 <= length
    ensures WithinUnit(v)
  {
    var power := Power(length);
    var back := TableValue(VFrontThruster, angle);
    var frontLeft := TableValue(VBackLeftThruster, angle);
    var frontRight := TableValue(VBackRightThruster, angle);
    ScaledWithinUnit(back, power);
    ScaledWithinUnit(frontLeft, power);
    ScaledWithinUnit(frontRight, power);
    VerticalThrust(Scale(back, power), Scale(frontLeft, power), Scale(frontRight, power))
  }

  /** Pitched's three thrusts, term by term. */
  lemma PitchedParts(angle: real, length: real)
    requires 0.0 <= angle < 360.0 && 0.0 <= length
    ensures Pitched(angle, length) == VerticalThrust(
      Scale(TableValue(VFrontThruster, angle), Power(length)),
      Scale(TableValue(VBackLeftThruster, angle), Power(length)),
      Scale(TableValue(VBackRightThruster, angle), Power(length)))
  {
  }

  /** The ascent adjustment: add the share `(1 + ascent) / 2` of the headroom below 1. */
  function Raised(v: VerticalThrust, ascent: real): (r: VerticalThrust)
    ensures SameDifferences(r, v)
  {
    var percent := (1.0 + ascent) / 2.0;
    var maxThrust := Max3(v.back, v.frontLeft, v.frontRight);
    var maxAdjust := Scale(1.0 - maxThrust, percent);
    VerticalThrust(v.back + maxAdjust, v.frontLeft + maxAdjust, v.frontRight + maxAdjust)
  }

  /** The descent adjustment: subtract the share `(1 + descent) / 2` of the headroom above -1. */
  function Lowered(v: VerticalThrust, descent: real): (r: VerticalThrust)
    ensures SameDifferences(r, v)
  {
    var percent := (1.0 + descent) / 2.0;
    var minThrust := Min3(v.back, v.frontLeft, v.frontRight);
    var maxAdjust := Scale(minThrust - -1.0, percent);
    VerticalThrust(v.back - maxAdjust, v.frontLeft - maxAdjust, v.frontRight - maxAdjust)
  }

  /** Ascent if active, else descent if active, else no adjustment. */
  function Adjusted(v: VerticalThrust, ascent: real, descent: real): (r: VerticalThrust)
    ensures SameDifferences(r, v)
    ensures ascent == INACTIVE && descent == INACTIVE ==> r == v
  {
    if ascent != INACTIVE then Raised(v, ascent)
    else if descent != INACTIVE then Lowered(v, descent)
    else v
  }

  /** The three vertical thrusts: pitch and roll, then the ascent or descent adjustment. */
  function Vertical(angle: real, length: real, ascent: real, descent: real): (r: VerticalThrust)
    requires 0.0 <= angle < 360.0 && 0.0 <= length
    ensures SameDifferences(r, Pitched(angle, length))
  {
    Adjusted(Pitched(angle, length), ascent, descent)
  }

  /** Both adjustments move all three thrusts by the same amount. */
  predicate SameDifferences(a: VerticalThrust, b: VerticalThrust)
  {
    && a.back - a.frontLeft == b.back - b.frontLeft
    && a.frontLeft - a.frontRight == b.frontLeft - b.frontRight
  }

  /**
   * With ascent in [-1, 1] the ascent adjustment raises every thrust, keeps
   * every thrust in [-1, 1] and keeps their pairwise differences.
   */
  lemma RaisedWithin(v: VerticalThrust, ascent: real)
    requires WithinUnit(v) && -1.0 <= ascent <= 1.0
    ensures WithinUnit(Raised(v, ascent))
    ensures SameDifferences(Raised(v, ascent), v)
    ensures Raised(v, ascent).back >= v.back
    ensures ascent == 1.0 ==> Max3(Raised(v, ascent).back, Raised(v, ascent).frontLeft, Raised(v, ascent).frontRight) == 1.0
  {
    var percent := (1.0 + ascent) / 2.0;
    var maxThrust := Max3(v.back, v.frontLeft, v.frontRight);
    ScaledBetween(1.0 - maxThrust, percent);
  }

  /** The mirror image of RaisedWithin for descent. */
  lemma LoweredWithin(v: VerticalThrust, descent: real)
    requires WithinUnit(v) && -1.0 <= descent <= 1.0
    ensures WithinUnit(Lowered(v, descent))
    ensures SameDifferences(Lowered(v, descent), v)
    ensures Lowered(v, descent).back <= v.back
    ensures descent == 1.0 ==> Min3(Lowered(v, descent).back, Lowered(v, descent).frontLeft, Lowered(v, descent).frontRight) == -1.0
  {
    var percent := (1.0 + descent) / 2.0;
    var minThrust := Min3(v.back, v.frontLeft, v.frontRight);
    ScaledBetween(minThrust - -1.0, percent);
  }

  /** With ascent and descent in [-1, 1] every vertical thrust is in [-1, 1]. */
  lemma VerticalWithin(angle: real, length: real, ascent: real, descent: real)
    requires 0.0 <= angle < 360.0 && 0.0 <= length
    requires -1.0 <= ascent <= 1.0 && -1.0 <= descent <= 1.0
    ensures WithinUnit(Vertical(angle, length, ascent, descent))
  {
    var v := Pitched(angle, length);
    if ascent != INACTIVE {
      RaisedWithin(v, ascent);
    } else if descent != INACTIVE {
      LoweredWithin(v, descent);
    }
  }

  /** When both are active, ascent wins and descent is ignored. */
  lemma AscentTakesPrecedence(angle: real, length: real, ascent: real, descent: real, otherDescent: real)
    requires 0.0 <= angle < 360.0 && 0.0 <= length
    requires ascent != INACTIVE
    ensures Vertical(angle, length, ascent, descent) == Raised(Pitched(angle, length), ascent)
    ensures Vertical(angle, length, ascent, descent) == Vertical(angle, length, ascent, otherDescent)
  {
  }

  /** Joystick 2 at rest with full ascent drives all three vertical thrusters to +1. */
  lemma FullAscentAtRest(angle: real)
    requires 0.0 <= angle < 360.0
    ensures Vertical(angle, 0.0, 1.0, INACTIVE) == VerticalThrust(1.0, 1.0, 1.0)
  {
    var v := Pitched(angle, 0.0);
    assert v == VerticalThrust(0.0, 0.0, 0.0);
  }

  // ---------------------------------------------------------------------
  // The device table and the engine's state

  /** One PWM device as registered by `add_device`: name, channel, on and off ticks. */
  datatype Device = Device(name: string, channel: int, on: int, off: int)

  /** The five thruster channels are exactly the registered devices. */
  predicate Registered(devices: map<int, Device>)
  {
    devices.Keys == {HL, VL, VC, VR, HR}
  }

  /** `motor_controller.add_device(name, channel, on, off)`. */
  function AddDevice(devices: map<int, Device>, name: string, channel: int, on: int, off: int): map<int, Device>
  {
    devices[channel := Device(name, channel, on, off)]
  }

  /** The device table the constructor builds: every channel at NEUTRAL. */
  function InitialDevices(): (d: map<int, Device>)
    ensures Registered(d)
    ensures forall c :: c in d ==> d[c].on == 0 && d[c].off == NEUTRAL && d[c].channel == c
  {
    var d := AddDevice(map[], "HL", HL, 0, NEUTRAL);
    var d := AddDevice(d, "VL", VL, 0, NEUTRAL);
    var d := AddDevice(d, "VC", VC, 0, NEUTRAL);
    var d := AddDevice(d, "VR", VR, 0, NEUTRAL);
    AddDevice(d, "HR", HR, 0, NEUTRAL)
  }

  /** The body of `set_motor` on a registered channel: only that device's off tick changes. */
  function WriteMotor(devices: map<int, Device>, motor: int, value: real): (r: map<int, Device>)
    requires motor in devices
    ensures r.Keys == devices.Keys
    ensures r[motor] == devices[motor].(off := PwmTick(value))
    ensures forall c :: c in devices && c != motor ==> r[c] == devices[c]
  {
    devices[motor := devices[motor].(off := PwmTick(value))]
  }

  /** The engine's state, as the fields of ThrusterController hold it. */
  datatype Engine = Engine(j1: Vector2D, j2: Vector2D, ascent: real, descent: real, devices: map<int, Device>)

  /** The state right after construction. */
  function Initial(): (e: Engine)
    ensures Registered(e.devices)
    ensures forall c :: c in e.devices ==> e.devices[c].off == NEUTRAL
    ensures e.ascent == INACTIVE && e.descent == INACTIVE
    ensures e.j1 == Vector2D(0.0, 0.0) && e.j2 == Vector2D(0.0, 0.0)
  {
    Engine(Vector2D(0.0, 0.0), Vector2D(0.0, 0.0), INACTIVE, INACTIVE, InitialDevices())
  }

  /** The engine's safety invariant: all ticks in range, ascent and descent in [-1, 1]. */
  ghost predicate Safe(s: Engine)
  {
    && Registered(s.devices)
    && (forall c :: c in s.devices ==> FULL_REVERSE <= s.devices[c].off <= FULL_FORWARD)
    && -1.0 <= s.ascent <= 1.0
    && -1.0 <= s.descent <= 1.0
  }

  /** After construction ascent and descent are inactive and every device is at NEUTRAL. */
  lemma InitialIsSafe()
    ensures Safe(Initial())
    ensures Initial().ascent == INACTIVE && Initial().descent == INACTIVE
  {
  }

  /** Why `set_motor` raises: the channel has no registered device. */
  datatype EngineError = NoSuchDevice(motor: int)

  /** `set_motor(motor, value)`: an unknown channel raises before anything is written. */
  function MotorSet(s: Engine, motor: int, value: real): (r: Result<Engine, EngineError>)
    ensures r.Success? <==> motor in s.devices
    ensures r.Success? ==> r.value == s.(devices := WriteMotor(s.devices, motor, value))
  {
    if motor in s.devices then Success(s.(devices := WriteMotor(s.devices, motor, value)))
    else Failure(NoSuchDevice(motor))
  }

  /** A direct motor write with thrust in [-1, 1] keeps the engine safe. */
  lemma MotorSetKeepsSafe(s: Engine, motor: int, value: real)
    requires Safe(s) && -1.0 <= value <= 1.0 && motor in s.devices
    ensures Safe(MotorSet(s, motor, value).value)
  {
    PwmTickWithin(value);
  }

  /** Recompute HL and HR from joystick 1. */
  function Steered(g: Geometry, s: Engine): (r: Engine)
    requires ValidGeometry(g) && Registered(s.devices)
    ensures Registered(r.devices)
  {
    var h := Horizontal(g.angle(s.j1.x, s.j1.y), g.length(s.j1.x, s.j1.y));
    s.(devices := WriteMotor(WriteMotor(s.devices, HL, h.left), HR, h.right))
  }

  /** Recompute VC, VL and VR from joystick 2, ascent and descent. */
  function Trimmed(g: Geometry, s: Engine): (r: Engine)
    requires ValidGeometry(g) && Registered(s.devices)
    ensures Registered(r.devices)
  {
    var v := Vertical(g.angle(s.j2.x, s.j2.y), g.length(s.j2.x, s.j2.y), s.ascent, s.descent);
    s.(devices := WriteMotor(WriteMotor(WriteMotor(s.devices, VC, v.back), VL, v.frontLeft), VR, v.frontRight))
  }

  /**
   * `update_axis(axis, value)`: round, store in the routed field, and when
   * the field changed recompute the thrusters that depend on it.
   */
  function AxisUpdated(g: Geometry, s: Engine, axis: int, value: real): (r: Engine)
    requires ValidGeometry(g) && Registered(s.devices)
    ensures Registered(r.devices)
  {
    var v := Round3(value);
    if axis == 0 then
      if s.j1.x != v then Steered(g, s.(j1 := s.j1.(x := v))) else s
    else if axis == 1 then
      if s.j1.y != v then Steered(g, s.(j1 := s.j1.(y := v))) else s
    else if axis == 2 then
      if s.j2.x != v then Trimmed(g, s.(j2 := s.j2.(x := v))) else s
    else if axis == 5 then
      if s.j2.y != v then Trimmed(g, s.(j2 := s.j2.(y := v))) else s
    else if axis == 3 then
      if s.descent != v then Trimmed(g, s.(descent := v)) else s
    else if axis == 4 then
      if s.ascent != v then Trimmed(g, s.(ascent := v)) else s
    else s
  }

  /** The field an axis number is routed to, if any. */
  function RoutedField(s: Engine, axis: int): Option<real>
  {
    match axis
    case 0 => Some(s.j1.x)
    case 1 => Some(s.j1.y)
    case 2 => Some(s.j2.x)
    case 5 => Some(s.j2.y)
    case 3 => Some(s.descent)
    case 4 => Some(s.ascent)
    case _ => None
  }

  /**
   * The routing table: 0 -> j1.x, 1 -> j1.y, 2 -> j2.x, 5 -> j2.y,
   * 3 -> descent, 4 -> ascent; the rounded value lands in exactly that field,
   * and any other axis changes nothing at all.
   */
  lemma AxisRouting(g: Geometry, s: Engine, axis: int, value: real)
    requires ValidGeometry(g) && Registered(s.devices)
    ensures var r := AxisUpdated(g, s, axis, value);
      && r.j1.x == (if axis == 0 then Round3(value) else s.j1.x)
      && r.j1.y == (if axis == 1 then Round3(value) else s.j1.y)
      && r.j2.x == (if axis == 2 then Round3(value) else s.j2.x)
      && r.j2.y == (if axis == 5 then Round3(value) else s.j2.y)
      && r.descent == (if axis == 3 then Round3(value) else s.descent)
      && r.ascent == (if axis == 4 then Round3(value) else s.ascent)
      && (RoutedField(s, axis).None? ==> r == s)
  {
  }

  /** A rounded value equal to the stored one changes nothing: no field, no motor. */
  lemma AxisSuppressed(g: Geometry, s: Engine, axis: int, value: real)
    requires ValidGeometry(g) && Registered(s.devices)
    requires RoutedField(s, axis) == Some(Round3(value))
    ensures AxisUpdated(g, s, axis, value) == s
  {
  }

  /** Repeating an axis update is a no-op. */
  lemma AxisIdempotent(g: Geometry, s: Engine, axis: int, value: real)
    requires ValidGeometry(g) && Registered(s.devices)
    ensures var r := AxisUpdated(g, s, axis, value);
      AxisUpdated(g, r, axis, value) == r
  {
    var r := AxisUpdated(g, s, axis, value);
    AxisRouting(g, s, axis, value);
    if RoutedField(s, axis).Some? {
      AxisSuppressed(g, r, axis, value);
    }
  }

  /** A horizontal recompute writes only the off ticks of HL and HR. */
  lemma SteeredFrame(g: Geometry, s: Engine)
    requires ValidGeometry(g) && Registered(s.devices)
    ensures var r := Steered(g, s);
      && r.(devices := s.devices) == s
      && (forall c :: c in s.devices ==> r.devices[c] == s.devices[c].(off := r.devices[c].off))
      && (forall c :: c in s.devices && c != HL && c != HR ==> r.devices[c] == s.devices[c])
  {
  }

  /** A vertical recompute writes only the off ticks of VC, VL and VR. */
  lemma TrimmedFrame(g: Geometry, s: Engine)
    requires ValidGeometry(g) && Registered(s.devices)
    ensures var r := Trimmed(g, s);
      && r.(devices := s.devices) == s
      && (forall c :: c in s.devices ==> r.devices[c] == s.devices[c].(off := r.devices[c].off))
      && (forall c :: c in s.devices && c != VC && c != VL && c != VR ==> r.devices[c] == s.devices[c])
  {
  }

  /**
   * Frames: a joystick-1 axis writes only HL and HR, the other routed axes
   * write only VC, VL and VR, and a write changes only a device's off tick.
   */
  lemma AxisFrames(g: Geometry, s: Engine, axis: int, value: real)
    requires ValidGeometry(g) && Registered(s.devices)
    ensures var r := AxisUpdated(g, s, axis, value);
      && (forall c :: c in s.devices ==> r.devices[c] == s.devices[c].(off := r.devices[c].off))
      && (axis == 0 || axis == 1 ==> forall c :: c in s.devices && c != HL && c != HR ==> r.devices[c] == s.devices[c])
      && (axis != 0 && axis != 1 ==> forall c :: c in s.devices && c != VC && c != VL && c != VR ==> r.devices[c] == s.devices[c])
  {
    var v := Round3(value);
    if axis == 0 && s.j1.x != v {
      SteeredFrame(g, s.(j1 := s.j1.(x := v)));
    } else if axis == 1 && s.j1.y != v {
      SteeredFrame(g, s.(j1 := s.j1.(y := v)));
    } else if axis == 2 && s.j2.x != v {
      TrimmedFrame(g, s.(j2 := s.j2.(x := v)));
    } else if axis == 5 && s.j2.y != v {
      TrimmedFrame(g, s.(j2 := s.j2.(y := v)));
    } else if axis == 3 && s.descent != v {
      TrimmedFrame(g, s.(descent := v));
    } else if axis == 4 && s.ascent != v {
      TrimmedFrame(g, s.(ascent := v));
    }
  }

  /** A horizontal recompute keeps the engine safe. */
  lemma SteeredKeepsSafe(g: Geometry, s: Engine)
    requires ValidGeometry(g) && Safe(s)
    ensures Safe(Steered(g, s))
  {
    var h := Horizontal(g.angle(s.j1.x, s.j1.y), g.length(s.j1.x, s.j1.y));
    PwmTickWithin(h.left);
    PwmTickWithin(h.right);
  }

  /** A vertical recompute keeps the engine safe. */
  lemma TrimmedKeepsSafe(g: Geometry, s: Engine)
    requires ValidGeometry(g) && Safe(s)
    ensures Safe(Trimmed(g, s))
  {
    var angle, length := g.angle(s.j2.x, s.j2.y), g.length(s.j2.x, s.j2.y);
    VerticalWithin(angle, length, s.ascent, s.descent);
    var v := Vertical(angle, length, s.ascent, s.descent);
    PwmTickWithin(v.back);
    PwmTickWithin(v.frontLeft);
    PwmTickWithin(v.frontRight);
  }

  /** Axis values in [-1, 1] keep every tick in [FULL_REVERSE, FULL_FORWARD]. */
  lemma AxisKeepsSafe(g: Geometry, s: Engine, axis: int, value: real)
    requires ValidGeometry(g) && Safe(s) && -1.0 <= value <= 1.0
    ensures Safe(AxisUpdated(g, s, axis, value))
  {
    var v := Round3(value);
    Round3Within(value);
    if axis == 0 && s.j1.x != v {
      SteeredKeepsSafe(g, s.(j1 := s.j1.(x := v)));
    } else if axis == 1 && s.j1.y != v {
      SteeredKeepsSafe(g, s.(j1 := s.j1.(y := v)));
    } else if axis == 2 && s.j2.x != v {
      TrimmedKeepsSafe(g, s.(j2 := s.j2.(x := v)));
    } else if axis == 5 && s.j2.y != v {
      TrimmedKeepsSafe(g, s.(j2 := s.j2.(y := v)));
    } else if axis == 3 && s.descent != v {
      TrimmedKeepsSafe(g, s.(descent := v));
    } else if axis == 4 && s.ascent != v {
      TrimmedKeepsSafe(g, s.(ascent := v));
    }
  }

  /** 0.5 and 0.0 are already multiples of 0.001. */
  lemma RoundedExactly()
    ensures Round3(0.5) == 0.5 && Round3(0.0) == 0.0
  {
    assert RoundHalfEven(500.0) == 500;
    assert RoundHalfEven(0.0) == 0;
  }

  /** With joystick 1 at rest (length 0) the horizontal pair gets zero thrust, tick 371. */
  lemma SteeredAtRest(g: Geometry, s: Engine)
    requires ValidGeometry(g) && EuclideanLength(g) && Registered(s.devices)
    requires s.j1 == Vector2D(0.0, 0.0)
    ensures Steered(g, s).devices[HL].off == 371 && Steered(g, s).devices[HR].off == 371
  {
    var length := g.length(0.0, 0.0);
    ProductZero(length, length);
    var h := Horizontal(g.angle(0.0, 0.0), length);
    assert h.left == 0.0 && h.right == 0.0;
    PwmTickOfZero();
  }

  /** One axis event `(axis, value)`. */
  datatype AxisEvent = AxisEvent(axis: int, value: real)

  /** The state after a sequence of axis events, applied in order. */
  function Replay(g: Geometry, s: Engine, events: seq<AxisEvent>): (r: Engine)
    requires ValidGeometry(g) && Registered(s.devices)
    ensures Registered(r.devices)
    decreases |events|
  {
    if events == [] then s
    else Replay(g, AxisUpdated(g, s, events[0].axis, events[0].value), events[1..])
  }

  /**
   * From construction, any sequence of axis events with values in [-1, 1]
   * leaves every channel's tick within [FULL_REVERSE, FULL_FORWARD].
   */
  lemma {:induction false} ReplayKeepsSafe(g: Geometry, s: Engine, events: seq<AxisEvent>)
    requires ValidGeometry(g) && Safe(s)
    requires forall i :: 0 <= i < |events| ==> -1.0 <= events[i].value <= 1.0
    ensures Safe(Replay(g, s, events))
    ensures forall c :: c in Replay(g, s, events).devices ==>
      FULL_REVERSE <= Replay(g, s, events).devices[c].off <= FULL_FORWARD
    decreases |events|
  {
    if events != [] {
      AxisKeepsSafe(g, s, events[0].axis, events[0].value);
      ReplayKeepsSafe(g, AxisUpdated(g, s, events[0].axis, events[0].value), events[1..]);
    }
  }

  // ---------------------------------------------------------------------
  // Teardown

  /** `__del__` as written: HL, VL, VC, VL again and HR are set to 0.0; VR is never written. */
  function ShutDown(s: Engine): (r: Engine)
    requires Registered(s.devices)
    ensures Registered(r.devices)
    ensures r.devices[VR] == s.devices[VR]
    ensures r.(devices := s.devices) == s
  {
    var d := WriteMotor(s.devices, HL, 0.0);
    var d := WriteMotor(d, VL, 0.0);
    var d := WriteMotor(d, VC, 0.0);
    var d := WriteMotor(d, VL, 0.0);
    s.(devices := WriteMotor(d, HR, 0.0))
  }

  /** Teardown as written leaves VR at its last tick and the others at tick 371. */
  lemma ShutDownSkipsVR(s: Engine)
    requires Registered(s.devices)
    ensures ShutDown(s).devices[VR] == s.devices[VR]
    ensures forall c :: c in s.devices && c != VR ==> ShutDown(s).devices[c].off == PwmTick(0.0) == 371
  {
  }

  /** A concrete case: VR left at full forward keeps running after teardown. */
  lemma ShutDownLeavesVRRunning()
    ensures var s := Initial().(devices := WriteMotor(InitialDevices(), VR, 1.0));
      ShutDown(s).devices[VR].off == FULL_FORWARD
  {
  }

  /** Teardown as intended: every one of the five channels set to 0.0. */
  function ShutDownAll(s: Engine): (r: Engine)
    requires Registered(s.devices)
    ensures Registered(r.devices)
    ensures forall c :: c in r.devices ==> r.devices[c].off == PwmTick(0.0)
  {
    var d := WriteMotor(s.devices, HL, 0.0);
    var d := WriteMotor(d, VL, 0.0);
    var d := WriteMotor(d, VC, 0.0);
    var d := WriteMotor(d, VR, 0.0);
    s.(devices := WriteMotor(d, HR, 0.0))
  }

  /** The intended teardown stops every motor at the zero-thrust tick and touches nothing else. */
  lemma ShutDownAllStopsEveryMotor(s: Engine)
    requires Registered(s.devices)
    ensures Registered(ShutDownAll(s).devices)
    ensures forall c :: c in s.devices ==>
      ShutDownAll(s).devices[c] == s.devices[c].(off := PwmTick(0.0))
    ensures ShutDownAll(s).(devices := s.devices) == s
  {
  }

  // ---------------------------------------------------------------------
  // The controller object

  /** `ThrusterController`: the engine's fields, updated in place. */
  class ThrusterController {
    /** How `Vector2D` computes angle and length. */
    const geometry: Geometry
    var j1: Vector2D
    var j2: Vector2D
    var ascent: real
    var descent: real
    /** `motor_controller.devices`. */
    var devices: map<int, Device>

    ghost predicate Valid()
      reads this
    {
      ValidGeometry(geometry) && Registered(devices)
    }

    function State(): Engine
      reads this
    {
      Engine(j1, j2, ascent, descent, devices)
    }

    /** `__init__`: register the five devices at NEUTRAL, joysticks at rest, ascent and descent inactive. */
    constructor (geometry: Geometry)
      requires ValidGeometry(geometry)
      ensures Valid() && this.geometry == geometry
      ensures State() == Initial()
    {
      this.geometry := geometry;
      var d := AddDevice(map[], "HL", HL, 0, NEUTRAL);
      d := AddDevice(d, "VL", VL, 0, NEUTRAL);
      d := AddDevice(d, "VC", VC, 0, NEUTRAL);
      d := AddDevice(d, "VR", VR, 0, NEUTRAL);
      d := AddDevice(d, "HR", HR, 0, NEUTRAL);
      devices := d;
      j1 := Vector2D(0.0, 0.0);
      j2 := Vector2D(0.0, 0.0);
      ascent := INACTIVE;
      descent := INACTIVE;
    }

    /** `set_motor`: `ok` is false when the lookup of the device raises. */
    method SetMotor(motor: int, value: real) returns (ok: bool)
      modifies this`devices
      ensures ok <==> motor in old(devices)
      ensures ok ==> devices == WriteMotor(old(devices), motor, value)
      ensures !ok ==> devices == old(devices)
    {
      if motor !in devices {
        return false;
      }
      var motorDevice := devices[motor];
      var pwmValue := PwmTick(value);
      devices := devices[motor := motorDevice.(off := pwmValue)];
      return true;
    }

    /** `update_button`: accepted, no effect on the engine. */
    method UpdateButton(button: int, value: real)
      ensures State() == old(State())
    {
    }

    /** `update_axis`. */
    method UpdateAxis(axis: int, value: real)
      requires Valid()
      modifies this
      ensures Valid()
      ensures State() == AxisUpdated(geometry, old(State()), axis, value)
    {
      var updateHorizontalThrusters := false;
      var updateVerticalThrusters := false;
      var v := Round3(value);

      if axis == 0 {
        if j1.x != v {
          j1 := j1.(x := v);
          updateHorizontalThrusters := true;
        }
      } else if axis == 1 {
        if j1.y != v {
          j1 := j1.(y := v);
          updateHorizontalThrusters := true;
        }
      } else if axis == 2 {
        if j2.x != v {
          j2 := j2.(x := v);
          updateVerticalThrusters := true;
        }
      } else if axis == 5 {
        if j2.y != v {
          j2 := j2.(y := v);
          updateVerticalThrusters := true;
        }
      } else if axis == 3 {
        if descent != v {
          descent := v;
          updateVerticalThrusters := true;
        }
      } else if axis == 4 {
        if ascent != v {
          ascent := v;
          updateVerticalThrusters := true;
        }
      }

      if updateHorizontalThrusters {
        UpdateHorizontalThrusters();
      }
      if updateVerticalThrusters {
        UpdateVerticalThrusters();
      }
    }

    /** The `update_horizontal_thrusters` branch of `update_axis`. */
    method UpdateHorizontalThrusters()
      requires Valid()
      modifies this`devices
      ensures Valid()
      ensures State() == Steered(geometry, old(State()))
    {
      var angle := geometry.angle(j1.x, j1.y);
      var length := geometry.length(j1.x, j1.y);
      var leftValue := TableValue(LeftThruster, angle);
      var rightValue := TableValue(RightThruster, angle);
      var power := Power(length);
      var _ := SetMotor(HL, Scale(leftValue, power));
      var _ := SetMotor(HR, Scale(rightValue, power));
    }

    /** The `update_vertical_thrusters` branch of `update_axis`. */
    method UpdateVerticalThrusters()
      requires Valid()
      modifies this`devices
      ensures Valid()
      ensures State() == Trimmed(geometry, old(State()))
    {
      var angle := geometry.angle(j2.x, j2.y);
      var length := geometry.length(j2.x, j2.y);
      var power := Power(length);
      var backValue := Scale(TableValue(VFrontThruster, angle), power);
      var frontLeftValue := Scale(TableValue(VBackLeftThruster, angle), power);
      var frontRightValue := Scale(TableValue(VBackRightThruster, angle), power);
      PitchedParts(angle, length);
      backValue, frontLeftValue, frontRightValue := AdjustVertical(backValue, frontLeftValue, frontRightValue);
      ghost var d0 := devices;
      var _ := SetMotor(VC, backValue);
      var _ := SetMotor(VL, frontLeftValue);
      var _ := SetMotor(VR, frontRightValue);
      assert devices == WriteMotor(WriteMotor(WriteMotor(d0, VC, backValue), VL, frontLeftValue), VR, frontRightValue);
    }

    /** The ascent and descent step of `update_vertical_thrusters`. */
    method AdjustVertical(back: real, frontLeft: real, frontRight: real)
      returns (backValue: real, frontLeftValue: real, frontRightValue: real)
      ensures VerticalThrust(backValue, frontLeftValue, frontRightValue)
        == Adjusted(VerticalThrust(back, frontLeft, frontRight), ascent, descent)
    {
      backValue, frontLeftValue, frontRightValue := back, frontLeft, frontRight;
      if ascent != INACTIVE {
        var percent := (1.0 + ascent) / 2.0;
        var maxThrust := Max3(backValue, frontLeftValue, frontRightValue);
        var maxAdjust := Scale(1.0 - maxThrust, percent);
        backValue := backValue + maxAdjust;
        frontLeftValue := frontLeftValue + maxAdjust;
        frontRightValue := frontRightValue + maxAdjust;
      } else if descent != INACTIVE {
        var percent := (1.0 + descent) / 2.0;
        var minThrust := Min3(backValue, frontLeftValue, frontRightValue);
        var maxAdjust := Scale(minThrust - -1.0, percent);
        backValue := backValue - maxAdjust;
        frontLeftValue := frontLeftValue - maxAdjust;
        frontRightValue := frontRightValue - maxAdjust;
      }
    }

    /** `__del__` as written (see ShutDown). */
    method Teardown()
      requires Valid()
      modifies this`devices
      ensures Valid()
      ensures State() == ShutDown(old(State()))
    {
      var _ := SetMotor(HL, 0.0);
      var _ := SetMotor(VL, 0.0);
      var _ := SetMotor(VC, 0.0);
      var _ := SetMotor(VL, 0.0);
      var _ := SetMotor(HR, 0.0);
    }

    /** Teardown as intended (see ShutDownAll): all five channels, VR included. */
    method TeardownAll()
      requires Valid()
      modifies this`devices
      ensures Valid()
      ensures State() == ShutDownAll(old(State()))
    {
      var _ := SetMotor(HL, 0.0);
      var _ := SetMotor(VL, 0.0);
      var _ := SetMotor(VC, 0.0);
      var _ := SetMotor(VR, 0.0);
      var _ := SetMotor(HR, 0.0);
    }
  }
}
