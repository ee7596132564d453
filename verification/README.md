# Thruster control core, modelled in Dafny

This project models the part of the vehicle software that turns 5-byte input
messages into thruster pulse widths. It also models the two calibration-page
helpers that share the interpolation and clamping logic.

- `message.dfy` (module `MessageCodec`): the wire message. A header byte
  packs a 2-bit controller index, a 2-bit input type and a 4-bit input index.
  Four value bytes follow. Decoding and encoding are pure functions, with
  bit-level round trips in both directions and the masking of out-of-range
  fields.
- `thruster_controller.dfy` (module `ThrusterControl`): the thrust-allocation
  engine. The class `ThrusterController` holds two joystick vectors, the
  ascent and descent scalars and the PWM device table. Each method is proved
  against a function on the engine's state (`Engine`).
  - An axis event rounds its value to three decimals and stores it in the
    field its axis selects.
  - When that field changed, the horizontal pair (HL, HR) or the vertical
    trio (VC, VL, VR) is recomputed. The recompute goes through the
    angle-indexed tables, scales by the joystick's length capped at 1, and
    applies the ascent/descent "headroom" adjustment.
  - `set_motor` maps thrust onto the tick range 246..496.
- `thruster_server.dfy` (module `ThrusterServer`): the per-connection loop of
  the server. The socket is a sequence of received chunks. Each chunk is
  decoded and dispatched by its input type, then answered with "OK". The
  loop's effect is a trace of engine calls and replies, plus how it ended.
- `interpolator.dfy` (module `Interpolation`): the piecewise-linear
  `Interpolator`, a list of control points that is appended to without
  sorting. Its `valueAtIndex` scan is proved equal to a functional reference.
- `sensitivity.dfy` (module `SensitivityCurve`): the response curve
  `t * x^power + (1 - t) * x` on the input clamped to [-1, 1].
- `handle.dfy` (module `CalibrationHandle`): the draggable handle. Covers its
  clamping `x`/`y` setters and the field arithmetic of `mousemove` and
  `mouseup`.
- `wrappers.dfy` and `arith.dfy`: `Option`/`Result`, and small facts about
  real products.

Thrust is modelled with real numbers. Three helpers are outside this model:
`Vector2D`, `PWMController` and `utils.map_range`.

- `Vector2D` is not part of this model. The engine receives a `Geometry`: an
  angle function and a length function. `ValidGeometry` constrains them
  (angle in [0, 360), length >= 0) and `EuclideanLength` fixes the length to
  the norm.
- `PWMController` is not part of this model. Its device table is a map from
  channel to `Device`.
- `utils.map_range` is not part of this model. It is taken to be the linear
  rescale (`MapRange`).
- The Python `Interpolator` the engine imports is not part of this model.
  The engine's tables use the JavaScript `Interpolator`'s lookup.

## Model

| member | source | states |
|---|---|---|
| MessageCodec.ControllerBits | services/controllers/message.py:10 | the controller index is the header's bits 7-6, a number in [0, 3] |
| MessageCodec.TypeBits | services/controllers/message.py:11 | the input type is bits 5-4, a number in [0, 3] |
| MessageCodec.IndexBits | services/controllers/message.py:12 | the input index is bits 3-0, a number in [0, 15] |
| MessageCodec.Decode | services/controllers/message.py:6-13 | decoding succeeds exactly on 5-byte buffers; an empty buffer fails at `buffer[0]`, any other length fails in `struct.unpack`; on success every field is within its bit width and the value bytes are bytes 1-4 |
| MessageCodec.EncodeHeader | services/controllers/message.py:18 | each field read back from the packed header equals that field masked to its width |
| MessageCodec.Encode | services/controllers/message.py:17-24 | the encoding is exactly 5 bytes; the value bytes pass through unchanged; the header carries the three masked fields |
| MessageCodec.DecodeEncode | services/controllers/message.py:10-18 | decoding the encoding of an in-range message returns that message |
| MessageCodec.EncodeDecode | services/controllers/message.py:10-18 | encoding a decoded 5-byte buffer reproduces the buffer byte for byte |
| MessageCodec.HeaderFromFields | services/controllers/message.py:10-18 | every header byte is recovered from its three fields, since the masks cover all 8 bits |
| MessageCodec.EncodeMasks | services/controllers/message.py:18 | out-of-range fields are truncated, not rejected: an encode/decode round trip keeps each field modulo 2^width |
| MessageCodec.ControllerFiveEncodesAsOne | services/controllers/message.py:18 | controller index 5 arrives as controller 1 |
| MessageCodec.DecodeExample | services/controllers/message.py:35-36 | header 0x63 decodes to controller 1, type 2, index 3 |
| MessageCodec.EncodeExample | services/controllers/message.py:18 | an axis-0 message from controller 1 has header 0x40 |
| MessageCodec.DefaultMessage | services/controllers/message.py:6 | the default `bytearray(5)` buffer decodes successfully, to in-range fields that encode back to five zero bytes |
| MessageCodec.DefaultMessageIsZero | services/controllers/message.py:6-13 | the default all-zero buffer decodes to all-zero fields |
| Interpolation.Lerp | scripts/calibration/lib/Interpolator.js:38-42 | the line through two control points passes through both: it gives the start's value at the start's index and the end's value at the end's index |
| Interpolation.LerpBetween | scripts/calibration/lib/Interpolator.js:38-42 | between two control points the interpolated value lies between their values |
| Interpolation.FirstAtOrAbove | scripts/calibration/lib/Interpolator.js:21-34 | the scan stops at the first point whose index is at or above the target; every point before it is below the target |
| Interpolation.ValueAt | scripts/calibration/lib/Interpolator.js:13-44 | the lookup is null exactly when the target is below the first index or above the last |
| Interpolation.ValueAtStoredIndex | scripts/calibration/lib/Interpolator.js:24-25 | with increasing indices, a target equal to a stored index returns that point's value |
| Interpolation.ValueAtBetween | scripts/calibration/lib/Interpolator.js:28-42 | strictly between neighbouring points the result is the line through them and lies between their values |
| Interpolation.ValueAtWithin | scripts/calibration/lib/Interpolator.js:14-42 | when all stored values lie in [lo, hi], every in-range lookup is defined and lies in [lo, hi], even for unsorted indices |
| Interpolation.SampleMidpoint | scripts/calibration/lib/Interpolator.js:38-42 | the points (0, -1) and (90, 1) give 0 at 45 |
| Interpolation.Interpolator.constructor | scripts/calibration/lib/Interpolator.js:2-4 | a new interpolator holds no points |
| Interpolation.Interpolator.AddIndexValue | scripts/calibration/lib/Interpolator.js:6-11 | the point is appended at the end and the list is not re-sorted |
| Interpolation.Interpolator.ValueAtIndex | scripts/calibration/lib/Interpolator.js:13-44 | the `for` scan with its early return and `break` computes exactly `ValueAt` on the stored points |
| SensitivityCurve.Clamp | scripts/calibration/lib/Sensitivity.js:9 | the clamped input lies in [-1, 1]; it equals the input inside that range and the nearer end outside it |
| SensitivityCurve.PowWithinUnit | scripts/calibration/lib/Sensitivity.js:14 | a power of a number in [-1, 1] stays in [-1, 1] |
| SensitivityCurve.PowOdd | scripts/calibration/lib/Sensitivity.js:11-14 | an odd power keeps the sign: (-x)^n = -(x^n) |
| SensitivityCurve.Pow | scripts/calibration/lib/Sensitivity.js:14 | 1^n = 1 for every exponent, and 0^n = 0 for every positive exponent |
| SensitivityCurve.ValueAtIndex | scripts/calibration/lib/Sensitivity.js:7-16 | every input at or above 1 is clamped to 1 and gives exactly 1, whatever the blend weight; for a positive exponent f(0) = 0 |
| SensitivityCurve.ClampedInputs | scripts/calibration/lib/Sensitivity.js:9 | every input >= 1 gives f(1), and every input <= -1 gives f(-1) |
| SensitivityCurve.OddSymmetry | scripts/calibration/lib/Sensitivity.js:11-16 | for an odd exponent f(-x) = -f(x), and f(-1) = -1 |
| SensitivityCurve.ValueWithinUnit | scripts/calibration/lib/Sensitivity.js:9-16 | for t in [0, 1] every result lies in [-1, 1] |
| SensitivityCurve.BlendWithin | scripts/calibration/lib/Sensitivity.js:14-15 | a convex blend of two numbers in [-1, 1] lies in [-1, 1] |
| SensitivityCurve.DefaultCurve | scripts/calibration/lib/Sensitivity.js:2-5 | with the constructor's t = 0.7 and power 3, the curve is odd and bounded by [-1, 1] |
| SensitivityCurve.DefaultAtHalf | scripts/calibration/lib/Sensitivity.js:2-16 | with the constructor's settings, f(0.5) = 0.7 * 0.125 + 0.3 * 0.5 = 0.2375 |
| ThrusterControl.RoundHalfEven | services/controllers/thruster_controller.py:173 | the result is within 0.5 of the input and an integral input is kept |
| ThrusterControl.Round3 | services/controllers/thruster_controller.py:173 | the rounded value is within 0.0005 of the input and is a whole number of thousandths |
| ThrusterControl.Round3Idempotent | services/controllers/thruster_controller.py:173 | rounding a rounded value changes nothing |
| ThrusterControl.Round3Within | services/controllers/thruster_controller.py:173 | rounding keeps an axis value in [-1, 1] |
| ThrusterControl.Round3Example | services/controllers/thruster_controller.py:173 | noise below the precision is filtered out: 0.12345 is stored as 0.123 |
| ThrusterControl.RoundedExactly | services/controllers/thruster_controller.py:173 | 0.5 and 0.0 are stored as given |
| ThrusterControl.TruncToInt | services/controllers/thruster_controller.py:248 | `int()` truncates toward zero |
| ThrusterControl.MapRange | services/controllers/thruster_controller.py:248 | the rescale sends the ends of the input range to the ends of the output range |
| ThrusterControl.PwmTick | services/controllers/thruster_controller.py:247-248 | thrust in [-1, 1] gives an off tick in [FULL_REVERSE, FULL_FORWARD] = [246, 496] |
| ThrusterControl.PwmTickWithin | services/controllers/thruster_controller.py:248 | thrust in [-1, 1] gives a tick in [246, 496], and -1 and 1 give the two ends |
| ThrusterControl.PwmTickUnclamped | services/controllers/thruster_controller.py:248 | there is no clamp: thrust 3 gives tick 746 and thrust -4 gives tick -129 |
| ThrusterControl.PwmTickOfZero | services/controllers/thruster_controller.py:248 | zero thrust gives tick 371, not NEUTRAL (369) |
| ThrusterControl.Table | services/controllers/thruster_controller.py:76-109 | each built-in table has points at 0, 90, 180, 270 and 360 degrees, values in [-1, 1], and a 360-degree value equal to its 0-degree value |
| ThrusterControl.WellFormedTableIncreasing | services/controllers/thruster_controller.py:76-109 | the built-in tables have strictly increasing indices |
| ThrusterControl.TableValue | services/controllers/thruster_controller.py:213-214 | a table lookup at an angle in [0, 360] is always defined and lies in [-1, 1] |
| ThrusterControl.LeftTableExamples | services/controllers/thruster_controller.py:76-81 | the left table gives -1 at 0 degrees, 1 at 90 degrees and 0 at 45 degrees |
| ThrusterControl.Power | services/controllers/thruster_controller.py:215 | `min(1.0, length)` lies in [0, 1] and equals the length unless the length is at least 1 |
| ThrusterControl.Horizontal | services/controllers/thruster_controller.py:212-217 | both horizontal thrusts lie in [-1, 1] |
| ThrusterControl.Max3 | services/controllers/thruster_controller.py:230 | the maximum bounds all three values and is one of them |
| ThrusterControl.Min3 | services/controllers/thruster_controller.py:237 | the minimum is bounded by all three values and is one of them |
| ThrusterControl.Pitched | services/controllers/thruster_controller.py:224-227 | every pre-adjust vertical thrust lies in [-1, 1] |
| ThrusterControl.Raised | services/controllers/thruster_controller.py:228-234 | the ascent adjustment adds one amount to all three thrusts, so their pairwise differences are kept |
| ThrusterControl.Lowered | services/controllers/thruster_controller.py:235-241 | the descent adjustment subtracts one amount from all three thrusts, so their pairwise differences are kept |
| ThrusterControl.Adjusted | services/controllers/thruster_controller.py:228-241 | whichever branch runs, the pairwise differences are kept; with ascent and descent both inactive (-1.0) the thrusts are unchanged |
| ThrusterControl.Vertical | services/controllers/thruster_controller.py:223-241 | the vertical trio keeps the pitch-and-roll shape: its pairwise differences are those of the table values scaled by power |
| ThrusterControl.RaisedWithin | services/controllers/thruster_controller.py:228-234 | with ascent in [-1, 1] the ascent adjustment keeps all three thrusts in [-1, 1], raises them, keeps their pairwise differences, and at full ascent brings the largest to exactly 1 |
| ThrusterControl.LoweredWithin | services/controllers/thruster_controller.py:235-241 | the mirror image for descent: thrusts stay in [-1, 1], are lowered, keep their differences, and at full descent the smallest is exactly -1 |
| ThrusterControl.VerticalWithin | services/controllers/thruster_controller.py:223-241 | with ascent and descent in [-1, 1] the three vertical thrusts lie in [-1, 1] |
| ThrusterControl.AscentTakesPrecedence | services/controllers/thruster_controller.py:228-241 | when ascent is active only the ascent branch runs, whatever the descent |
| ThrusterControl.FullAscentAtRest | services/controllers/thruster_controller.py:224-234 | joystick 2 at rest with full ascent drives all three vertical thrusts to 1 |
| ThrusterControl.InitialDevices | services/controllers/thruster_controller.py:57-61 | exactly the five channels are registered, each on its own channel, with on tick 0 and off tick NEUTRAL |
| ThrusterControl.WriteMotor | services/controllers/thruster_controller.py:247-251 | writing a motor changes only that device's off tick, to the mapped tick; every other device is unchanged |
| ThrusterControl.Initial | services/controllers/thruster_controller.py:43-113 | after construction the five channels are registered, every off tick is NEUTRAL, both joysticks are at rest and ascent and descent are the inactive -1.0 |
| ThrusterControl.InitialIsSafe | services/controllers/thruster_controller.py:57-113 | after construction every tick is in range and ascent and descent are the inactive -1.0 |
| ThrusterControl.MotorSet | services/controllers/thruster_controller.py:246-251 | `set_motor` fails exactly on an unregistered channel, and then writes nothing |
| ThrusterControl.MotorSetKeepsSafe | services/controllers/thruster_controller.py:246-251 | a direct motor write with thrust in [-1, 1] keeps every tick in range |
| ThrusterControl.Steered | services/controllers/thruster_controller.py:212-217 | a horizontal recompute keeps the five channels registered |
| ThrusterControl.Trimmed | services/controllers/thruster_controller.py:223-244 | a vertical recompute keeps the five channels registered |
| ThrusterControl.AxisUpdated | services/controllers/thruster_controller.py:168-244 | an axis update keeps the five channels registered |
| ThrusterControl.AxisRouting | services/controllers/thruster_controller.py:182-207 | axis 0 goes to j1.x, 1 to j1.y, 2 to j2.x, 5 to j2.y, 3 to descent and 4 to ascent, as the rounded value; every other field keeps its value; any other axis changes nothing at all |
| ThrusterControl.AxisSuppressed | services/controllers/thruster_controller.py:173-205 | when the rounded value equals the stored field, nothing changes and no motor is written |
| ThrusterControl.AxisIdempotent | services/controllers/thruster_controller.py:173-223 | a second identical axis update is a no-op |
| ThrusterControl.SteeredFrame | services/controllers/thruster_controller.py:212-217 | a horizontal recompute writes only the off ticks of HL and HR and no other field |
| ThrusterControl.TrimmedFrame | services/controllers/thruster_controller.py:242-244 | a vertical recompute writes only the off ticks of VC, VL and VR and no other field |
| ThrusterControl.AxisFrames | services/controllers/thruster_controller.py:182-244 | a joystick-1 axis writes only HL and HR; any other axis writes only VC, VL and VR; a write changes only a device's off tick |
| ThrusterControl.SteeredKeepsSafe | services/controllers/thruster_controller.py:212-217 | a horizontal recompute keeps every tick in [246, 496] |
| ThrusterControl.TrimmedKeepsSafe | services/controllers/thruster_controller.py:223-244 | a vertical recompute keeps every tick in [246, 496] |
| ThrusterControl.AxisKeepsSafe | services/controllers/thruster_controller.py:128-251 | an axis value in [-1, 1] keeps every tick in [246, 496] and ascent and descent in [-1, 1] |
| ThrusterControl.SteeredAtRest | services/controllers/thruster_controller.py:212-217 | with joystick 1 at rest, HL and HR get zero thrust, tick 371 |
| ThrusterControl.Replay | services/controllers/thruster_controller.py:128-244 | any sequence of axis events keeps the five channels registered |
| ThrusterControl.ReplayKeepsSafe | services/controllers/thruster_controller.py:128-251 | from a safe state, every sequence of axis events with values in [-1, 1] leaves every tick in [246, 496] |
| ThrusterControl.ShutDown | services/controllers/thruster_controller.py:115-126 | teardown as written keeps the five channels registered, leaves VR's device as it was, and changes nothing but the device table |
| ThrusterControl.ShutDownSkipsVR | services/controllers/thruster_controller.py:122-126 | teardown as written leaves VR untouched and sets the other four to tick 371 |
| ThrusterControl.ShutDownLeavesVRRunning | services/controllers/thruster_controller.py:122-126 | VR left at full forward is still at full forward after teardown |
| ThrusterControl.ShutDownAll | services/controllers/thruster_controller.py:115-126 | the intended teardown keeps the five channels registered and leaves every one at the zero-thrust tick |
| ThrusterControl.ShutDownAllStopsEveryMotor | services/controllers/thruster_controller.py:115-126 | the intended teardown sets all five channels to the zero-thrust tick and changes nothing else |
| ThrusterControl.ThrusterController.constructor | services/controllers/thruster_controller.py:43-113 | the new controller's state is the initial engine: five devices at NEUTRAL, joysticks at rest, ascent and descent inactive |
| ThrusterControl.ThrusterController.SetMotor | services/controllers/thruster_controller.py:246-251 | it succeeds exactly on a registered channel and then writes that device's off tick; otherwise the table is unchanged |
| ThrusterControl.ThrusterController.UpdateButton | services/controllers/thruster_server.py:100 | a button event changes nothing in the engine |
| ThrusterControl.ThrusterController.UpdateAxis | services/controllers/thruster_controller.py:128-244 | the in-place update, with its flags, leaves the state `AxisUpdated` describes |
| ThrusterControl.ThrusterController.UpdateHorizontalThrusters | services/controllers/thruster_controller.py:212-217 | the two motor writes leave the state `Steered` describes |
| ThrusterControl.ThrusterController.UpdateVerticalThrusters | services/controllers/thruster_controller.py:223-244 | the three thrusts, adjusted in place and written, leave the state `Trimmed` describes |
| ThrusterControl.ThrusterController.AdjustVertical | services/controllers/thruster_controller.py:228-241 | the `+=`/`-=` steps give exactly the ascent or descent adjustment, ascent first |
| ThrusterControl.ThrusterController.Teardown | services/controllers/thruster_controller.py:115-126 | the five writes of `__del__` leave the state `ShutDown` describes |
| ThrusterControl.ThrusterController.TeardownAll | services/controllers/thruster_controller.py:115-126 | teardown with VR written leaves every motor stopped, as `ShutDownAll` describes |
| ThrusterServer.CallFor | services/controllers/thruster_server.py:93-104 | input type 0 calls `update_axis`, 1 calls `update_button` and 2 calls `set_motor`, each with the input index and value; type 3 calls nothing |
| ThrusterServer.Apply | services/controllers/thruster_server.py:93-104 | a call fails exactly when it is a motor call for an unregistered channel; otherwise the channels stay registered |
| ThrusterServer.Step | services/controllers/thruster_server.py:85-109 | going on after a chunk keeps the channels registered |
| ThrusterServer.Session | services/controllers/thruster_server.py:84-111 | a run of the loop keeps the channels registered |
| ThrusterServer.OnNewClient | services/controllers/thruster_server.py:84-111 | the `while True` loop over the chunks, acting on the shared controller, produces the trace, the ending and the engine state `Session` describes |
| ThrusterServer.HandleChunk | services/controllers/thruster_server.py:85-109 | one pass of the loop body either goes on from the controller's new state or stops with the controller unchanged, as `Step` describes |
| ThrusterServer.EmptyChunkCloses | services/controllers/thruster_server.py:87-89 | an empty chunk ends the session with no call and no reply, and the socket is closed |
| ThrusterServer.MalformedChunkRaises | services/controllers/thruster_server.py:91 | a non-empty chunk of other than five bytes raises before any call or reply |
| ThrusterServer.TypeThreeAcked | services/controllers/thruster_server.py:93-109 | a type-3 message makes no call and is still answered "OK" |
| ThrusterServer.SessionSplits | services/controllers/thruster_server.py:84-111 | chunks are handled strictly in order: a run on two sequences is a run on the first, then, if still waiting, a run on the second |
| ThrusterServer.StepAccepted | services/controllers/thruster_server.py:91-109 | an accepted chunk is answered with exactly one "OK", after the call its type asks for |
| ThrusterServer.TraceAppend | services/controllers/thruster_server.py:84-109 | the replies and calls of a concatenated trace are those of its parts |
| ThrusterServer.OneReplyPerChunk | services/controllers/thruster_server.py:84-109 | on accepted chunks the loop sends exactly one "OK" per chunk, makes exactly the calls the chunks ask for, in order, and ends waiting in `recv` |
| ThrusterServer.TwoChunks | services/controllers/thruster_server.py:84-109 | two chunks the handler goes on from give the second chunk's state, both traces in order, and a wait for more |
| ThrusterServer.ReleaseAtRest | services/controllers/thruster_controller.py:173-217 | axis 0 set to 0.5 and then to 0.0 from construction leaves HL and HR at tick 371 |
| ThrusterServer.AxisStep | services/controllers/thruster_server.py:91-109 | a header-0x00 chunk is one `update_axis(0, value)` call followed by "OK" |
| ThrusterServer.PushAndRelease | services/controllers/thruster_server.py:84-109 | from construction, axis 0 set to 0.5 and then 0.0 gives two calls, two "OK" replies, and HL and HR back at the zero-thrust tick |
| CalibrationHandle.Assign | services/controllers/calibration/js/Handle.js:22-38 | an equal value changes nothing; without bounds the value is stored as given; with bounds a value in [low, high) is stored exactly, any other lands on the nearer end, and the result lies in the span |
| CalibrationHandle.AssignIdempotent | services/controllers/calibration/js/Handle.js:22-38 | setting the same value twice is the same as setting it once |
| CalibrationHandle.AssignNearestEdge | services/controllers/calibration/js/Handle.js:25-32 | a value inside the closed span is stored exactly; one outside is clamped to the nearer edge |
| CalibrationHandle.Moved | services/controllers/calibration/js/Handle.js:117-127 | a move records the pointer position and keeps the bounds |
| CalibrationHandle.MovedStaysInside | services/controllers/calibration/js/Handle.js:117-125 | a move keeps the handle within bounds of non-negative size |
| CalibrationHandle.MovedKeepsDragOffset | services/controllers/calibration/js/Handle.js:117-127 | the drag point moves by the raw pointer delta, keeping its offset from the pointer |
| CalibrationHandle.UnboundedFollowsPointer | services/controllers/calibration/js/Handle.js:117-127 | without bounds the handle follows the pointer exactly and keeps its offset from the drag point |
| CalibrationHandle.Released | services/controllers/calibration/js/Handle.js:137-141 | `mouseup` records the pointer as the last position, keeps the bounds, and keeps a handle inside proper bounds inside them |
| CalibrationHandle.ReleasedDragPoint | services/controllers/calibration/js/Handle.js:137-141 | after `mouseup` the drag point is the handle plus the last delta before clamping, and equals the handle when there are no bounds |
| CalibrationHandle.Handle.constructor | services/controllers/calibration/js/Handle.js:2-16 | a new handle is unbounded, has no pointer position yet, and its drag point is on the handle |
| CalibrationHandle.Handle.SetX | services/controllers/calibration/js/Handle.js:22-38 | the `x` setter stores `Assign` of the value within the horizontal span and changes no other field |
| CalibrationHandle.Handle.SetY | services/controllers/calibration/js/Handle.js:44-60 | the `y` setter stores `Assign` of the value within the vertical span and changes no other field |
| CalibrationHandle.Handle.MouseDown | services/controllers/calibration/js/Handle.js:104-106 | `mousedown` records the pointer position and nothing else |
| CalibrationHandle.Handle.MouseMove | services/controllers/calibration/js/Handle.js:117-127 | the in-place move, through both setters, leaves the state `Moved` describes |
| CalibrationHandle.Handle.MouseUp | services/controllers/calibration/js/Handle.js:137-141 | `mouseup` snaps the drag point back to the handle and then moves, as `Released` describes |

## Left out

- Sockets, threads and the accept loop are left out. So is the unsynchronised sharing of one controller by several connection handlers. Each handler is modelled sequentially, over the chunks `recv` returns. The `VERBOSE` prints and the "disconnecting client" print are left out.
- The IEEE-754 single-precision packing of the input value is left out. The four value bytes are opaque, and the server receives their decoding as a parameter `unpack`. NaN and infinities are not modelled.
- Floating-point rounding in the thrust arithmetic is not modelled; thrust is real-valued. `Round3` is decimal round-half-even on exact reals. Python's `round` works on the binary float, so ties such as 0.0005 can round differently there.
- `Vector2D`, `PWMController`, `utils.map_range` and the Python `Interpolator` are not part of this model. Their parameters and contracts are described above.
- ThrusterControl.ThrusterController.UpdateButton: `update_button` is called by the server but not defined in the engine class. It is modelled as changing nothing.
- `get_settings`/`set_settings` are left out. So is the mismatch between `ThrusterController(SIMULATE)` and the constructor's signature.
- Interpolation.Interpolator.ValueAtIndex: requires at least one stored point, because on an empty list the source fails reading `this.data[0]`.
- SensitivityCurve.ValueAtIndex: the exponent is a natural number. `Math.pow` with a fractional or negative exponent is not modelled.
- The DOM parts of the handle are left out: the SVG nodes, the radius, listener registration and `parent.onhandlemove`.
- CalibrationHandle.Handle.MouseMove: requires a recorded pointer position. The listener is registered only by `mousedown`; before that, the source would compute with undefined coordinates.
- Four behaviours of the code that the model keeps as written:
  - A chunk that fails to decode raises and ends the connection's handler; it is not logged and skipped.
  - `set_motor` does not clamp its input, so a direct motor message with thrust outside [-1, 1] yields a tick outside [246, 496] (`PwmTickUnclamped`).
  - The tick is computed with `int()`, which truncates toward zero.
  - Teardown writes thrust 0.0, which is tick 371, two above NEUTRAL.
- The calibration modules' JavaScript double arithmetic (`Interpolator.js`, `Sensitivity.js`, `Handle.js`) is modelled on exact reals, and so is the engine's use of the interpolation tables. Equalities proved there hold exactly only on reals: in doubles the default curve gives 0.23750000000000002 at 0.5 rather than the 0.2375 of `DefaultAtHalf`, and the offsets of `MovedKeepsDragOffset` and the comparisons in the setters can be off by a rounding error.

## Findings

| source | as written | input that shows it | evidently intended | confidence | as-written member | corrected member |
|---|---|---|---|---|---|---|
| services/controllers/thruster_controller.py:122-126 | `__del__` sets VL twice and never sets VR | VR at full forward (tick 496) before teardown stays at 496 afterwards | all five thrusters stopped, VR included | not executed | ThrusterControl.ShutDownLeavesVRRunning | ThrusterControl.ShutDownAllStopsEveryMotor |
