/**
 * The per-connection loop of the thruster server
 * (`on_new_client` in services/controllers/thruster_server.py).
 *
 * Each `recv` result is one chunk of bytes. An empty chunk means the client
 * disconnected: the loop ends and the socket is closed, with no reply. Any
 * other chunk is decoded as one Message. Its input type selects the engine
 * call, and then the loop replies "OK". A chunk that fails to decode, or a
 * motor message for an unknown channel, raises. That ends the handler's
 * thread without a reply.
 *
 * The socket is replaced by the sequence of chunks it delivers. The
 * handler's effects are the trace of engine calls and replies it produces.
 * The float32 decoding of the value bytes is a parameter `unpack`.
 */
module ThrusterServer {
  import opened Wrappers
  import opened MessageCodec
  import opened ThrusterControl

  /** One call into the engine. */
  datatype Call =
    | AxisCall(axis: int, value: real)        // `controller.update_axis`
    | ButtonCall(button: int, value: real)    // `controller.update_button`
    | MotorCall(motor: int, value: real)      // `controller.set_motor`

  /** What the handler does, as seen from outside: an engine call or a reply. */
  datatype Event = Called(call: Call) | Sent(data: seq<bv8>)

  /** `"OK".encode()`. */
  const OK: seq<bv8> := [0x4F, 0x4B]

  /** The exceptions that end a session. */
  datatype SessionError =
    | Malformed(error: DecodeError)   // `Message(msg)` raised
    | UnknownDevice(motor: int)       // `set_motor` looked up an unregistered channel

  /** How the handler stops. */
  datatype Ending =
    | Closed                     // an empty chunk: the client disconnected, the socket is closed
    | Failed(why: SessionError)  // an exception ended the thread
    | Waiting                    // every chunk was handled; the loop waits in `recv`

  /** The engine state, the trace and the ending of a run of the handler. */
  datatype SessionResult = SessionResult(engine: Engine, events: seq<Event>, ending: Ending)

  /** The engine call a decoded message asks for; input type 3 asks for none. */
  function CallFor(m: Message, unpack: ValueBytes -> real): (c: Option<Call>)
    ensures m.inputType == 0 <==> c == Some(AxisCall(m.inputIndex, unpack(m.inputValue)))
    ensures m.inputType == 1 <==> c == Some(ButtonCall(m.inputIndex, unpack(m.inputValue)))
    ensures m.inputType == 2 <==> c == Some(MotorCall(m.inputIndex, unpack(m.inputValue)))
    ensures c.None? <==> m.inputType !in {0, 1, 2}
  {
    var value := unpack(m.inputValue);
    if m.inputType == 0 then Some(AxisCall(m.inputIndex, value))
    else if m.inputType == 1 then Some(ButtonCall(m.inputIndex, value))
    else if m.inputType == 2 then Some(MotorCall(m.inputIndex, value))
    else None
  }

  /** The effect of one engine call. Only a motor call can raise. */
  function Apply(g: Geometry, s: Engine, c: Call): (r: Result<Engine, SessionError>)
    requires ValidGeometry(g) && Registered(s.devices)
    ensures r.Success? ==> Registered(r.value.devices)
    ensures r.Failure? <==> c.MotorCall? && c.motor !in s.devices
  {
    match c
    case AxisCall(axis, value) => Success(AxisUpdated(g, s, axis, value))
    case ButtonCall(_, _) => Success(s)
    case MotorCall(motor, value) =>
      match MotorSet(s, motor, value)
      case Success(e) => Success(e)
      case Failure(NoSuchDevice(k)) => Failure(UnknownDevice(k))
  }

  /** The outcome of handling one chunk: go on from a new state, or stop. */
  datatype StepResult =
    | Next(engine: Engine, events: seq<Event>)
    | Halt(events: seq<Event>, ending: Ending)

  /**
   * One pass of the loop body on a received chunk. An empty chunk stops the
   * loop with no reply. Otherwise the chunk is decoded, the call its input
   * type selects is made and "OK" is sent, unless decoding or the call raises.
   */
  function Step(g: Geometry, s: Engine, chunk: seq<bv8>, unpack: ValueBytes -> real): (r: StepResult)
    requires ValidGeometry(g) && Registered(s.devices)
    ensures r.Next? ==> Registered(r.engine.devices)
    ensures r.Halt? ==> r.ending != Waiting
  {
    if chunk == [] then Halt([], Closed)
    else
      match Decode(chunk)
      case Failure(e) => Halt([], Failed(Malformed(e)))
      case Success(m) =>
        match CallFor(m, unpack)
        case None => Next(s, [Sent(OK)])
        case Some(c) =>
          match Apply(g, s, c)
          case Failure(e) => Halt([Called(c)], Failed(e))
          case Success(next) => Next(next, [Called(c), Sent(OK)])
  }

  /** `r` with `events` in front of its trace. */
  function Prepend(events: seq<Event>, r: SessionResult): SessionResult
  {
    r.(events := events + r.events)
  }

  /** The handler run on a sequence of chunks, from engine state `s`. */
  function Session(g: Geometry, s: Engine, chunks: seq<seq<bv8>>, unpack: ValueBytes -> real): (r: SessionResult)
    requires ValidGeometry(g) && Registered(s.devices)
    ensures Registered(r.engine.devices)
    decreases |chunks|
  {
    if chunks == [] then SessionResult(s, [], Waiting)
    else
      match Step(g, s, chunks[0], unpack)
      case Halt(events, ending) => SessionResult(s, events, ending)
      case Next(next, events) => Prepend(events, Session(g, next, chunks[1..], unpack))
  }

  /**
   * `on_new_client`: the `while True` loop over `recv`, calling into the
   * shared controller. Returns the trace and how the handler stopped.
   */
  method OnNewClient(controller: ThrusterController, chunks: seq<seq<bv8>>, unpack: ValueBytes -> real)
    returns (events: seq<Event>, ending: Ending)
    requires controller.Valid()
    modifies controller
    ensures controller.Valid()
    ensures Session(controller.geometry, old(controller.State()), chunks, unpack)
      == SessionResult(controller.State(), events, ending)
  {
    events := [];
    var i := 0;
    while true
      invariant 0 <= i <= |chunks|
      invariant controller.Valid()
      invariant Session(controller.geometry, old(controller.State()), chunks, unpack)
        == Prepend(events, Session(controller.geometry, controller.State(), chunks[i..], unpack))
      decreases |chunks| - i
    {
      if i == |chunks| {
        ending := Waiting;
        return;
      }
      var msg := chunks[i];
      assert chunks[i..][0] == msg && chunks[i..][1..] == chunks[i + 1..];
      i := i + 1;
      var sent, stop := HandleChunk(controller, msg, unpack);
      events := events + sent;
      if stop.Some? {
        ending := stop.value;
        return;
      }
    }
  }

  /** One pass of the loop body, on the controller itself. */
  method HandleChunk(controller: ThrusterController, msg: seq<bv8>, unpack: ValueBytes -> real)
    returns (events: seq<Event>, stop: Option<Ending>)
    requires controller.Valid()
    modifies controller
    ensures controller.Valid()
    ensures Step(controller.geometry, old(controller.State()), msg, unpack)
      == if stop.Some? then Halt(events, stop.value) else Next(controller.State(), events)
    ensures stop.Some? ==> controller.State() == old(controller.State())
  {
    if msg == [] {
      return [], Some(Closed);
    }
    var decoded := Decode(msg);
    if decoded.Failure? {
      return [], Some(Failed(Malformed(decoded.error)));
    }
    var m := decoded.value;
    var value := unpack(m.inputValue);
    events := [];
    if m.inputType == 0 {
      events := events + [Called(AxisCall(m.inputIndex, value))];
      controller.UpdateAxis(m.inputIndex, value);
    } else if m.inputType == 1 {
      events := events + [Called(ButtonCall(m.inputIndex, value))];
      controller.UpdateButton(m.inputIndex, value);
    } else if m.inputType == 2 {
      events := events + [Called(MotorCall(m.inputIndex, value))];
      var ok := controller.SetMotor(m.inputIndex, value);
      if !ok {
        return events, Some(Failed(UnknownDevice(m.inputIndex)));
      }
    }
    events := events + [Sent(OK)];
    stop := None;
  }

  // ---------------------------------------------------------------------
  // Properties of a session

  /** An empty chunk ends the session at once: no call, no reply, later chunks unread. */
  lemma EmptyChunkCloses(g: Geometry, s: Engine, rest: seq<seq<bv8>>, unpack: ValueBytes -> real)
    requires ValidGeometry(g) && Registered(s.devices)
    ensures Session(g, s, [[]] + rest, unpack) == SessionResult(s, [], Closed)
  {
  }

  /** A non-empty chunk of other than five bytes raises before any call or reply. */
  lemma MalformedChunkRaises(g: Geometry, s: Engine, chunk: seq<bv8>, rest: seq<seq<bv8>>, unpack: ValueBytes -> real)
    requires ValidGeometry(g) && Registered(s.devices)
    requires chunk != [] && |chunk| != MESSAGE_LENGTH
    ensures Session(g, s, [chunk] + rest, unpack) == SessionResult(s, [], Failed(Malformed(WrongValueLength)))
  {
  }

  /** A message of input type 3 calls nothing and is still acknowledged. */
  lemma TypeThreeAcked(g: Geometry, s: Engine, chunk: seq<bv8>, rest: seq<seq<bv8>>, unpack: ValueBytes -> real)
    requires ValidGeometry(g) && Registered(s.devices)
    requires |chunk| == MESSAGE_LENGTH && TypeBits(chunk[0]) == 3
    ensures Session(g, s, [chunk] + rest, unpack) == Prepend([Sent(OK)], Session(g, s, rest, unpack))
  {
    assert Step(g, s, chunk, unpack) == Next(s, [Sent(OK)]);
    assert ([chunk] + rest)[1..] == rest;
  }

  /**
   * Going on with `second` after a run `r`: only a run that ended waiting in
   * `recv` reads more chunks.
   */
  function Continued(g: Geometry, r: SessionResult, second: seq<seq<bv8>>, unpack: ValueBytes -> real): SessionResult
    requires ValidGeometry(g) && Registered(r.engine.devices)
  {
    if r.ending == Waiting then Prepend(r.events, Session(g, r.engine, second, unpack)) else r
  }

  /**
   * The handler reads chunks strictly in order: running it on `first + second`
   * is running it on `first` and, if that left it waiting in `recv`, going on
   * with `second` from the state it reached.
   */
  lemma {:induction false} SessionSplits(g: Geometry, s: Engine, first: seq<seq<bv8>>, second: seq<seq<bv8>>, unpack: ValueBytes -> real)
    requires ValidGeometry(g) && Registered(s.devices)
    ensures Session(g, s, first + second, unpack) == Continued(g, Session(g, s, first, unpack), second, unpack)
    decreases |first|
  {
    if first == [] {
      assert first + second == second;
      assert [] + Session(g, s, second, unpack).events == Session(g, s, second, unpack).events;
    } else if Step(g, s, first[0], unpack).Halt? {
      SplitsAfterHalt(g, s, first, second, unpack);
    } else {
      SessionSplits(g, Step(g, s, first[0], unpack).engine, first[1..], second, unpack);
      SplitsAfterNext(g, s, first, second, unpack);
    }
  }

  /** A first chunk that stops the handler leaves the second part unread. */
  lemma SplitsAfterHalt(g: Geometry, s: Engine, first: seq<seq<bv8>>, second: seq<seq<bv8>>, unpack: ValueBytes -> real)
    requires ValidGeometry(g) && Registered(s.devices)
    requires first != [] && Step(g, s, first[0], unpack).Halt?
    ensures Session(g, s, first + second, unpack) == Continued(g, Session(g, s, first, unpack), second, unpack)
  {
    var step := Step(g, s, first[0], unpack);
    ConcatHeadTail(first, second);
    assert Session(g, s, first, unpack) == SessionResult(s, step.events, step.ending);
    assert Session(g, s, first + second, unpack) == SessionResult(s, step.events, step.ending);
  }

  /** The inductive step of SessionSplits: a first chunk the handler goes on from. */
  lemma SplitsAfterNext(g: Geometry, s: Engine, first: seq<seq<bv8>>, second: seq<seq<bv8>>, unpack: ValueBytes -> real)
    requires ValidGeometry(g) && Registered(s.devices)
    requires first != [] && Step(g, s, first[0], unpack).Next?
    requires var next := Step(g, s, first[0], unpack).engine;
      Session(g, next, first[1..] + second, unpack) == Continued(g, Session(g, next, first[1..], unpack), second, unpack)
    ensures Session(g, s, first + second, unpack) == Continued(g, Session(g, s, first, unpack), second, unpack)
  {
    var step := Step(g, s, first[0], unpack);
    var rest := Session(g, step.engine, first[1..], unpack);
    ConcatHeadTail(first, second);
    assert Session(g, s, first, unpack) == Prepend(step.events, rest);
    assert Session(g, s, first + second, unpack)
      == Prepend(step.events, Session(g, step.engine, first[1..] + second, unpack));
    PrependContinued(g, step.events, rest, second, unpack);
  }

  /** The head and the tail of a concatenation with a non-empty first part. */
  lemma ConcatHeadTail<T>(a: seq<T>, b: seq<T>)
    requires a != []
    ensures (a + b)[0] == a[0] && (a + b)[1..] == a[1..] + b
  {
  }

  /** Events in front of a run stay in front when the run goes on. */
  lemma PrependContinued(g: Geometry, events: seq<Event>, r: SessionResult, second: seq<seq<bv8>>, unpack: ValueBytes -> real)
    requires ValidGeometry(g) && Registered(r.engine.devices)
    ensures Prepend(events, Continued(g, r, second, unpack)) == Continued(g, Prepend(events, r), second, unpack)
  {
    if r.ending == Waiting {
      var tail := Session(g, r.engine, second, unpack).events;
      assert events + (r.events + tail) == (events + r.events) + tail;
    }
  }

  /**
   * A chunk the handler takes without raising: five bytes, and a motor
   * message only for a registered channel.
   */
  predicate Accepted(chunk: seq<bv8>)
  {
    |chunk| == MESSAGE_LENGTH && (TypeBits(chunk[0]) == 2 ==> 0 <= IndexBits(chunk[0]) <= 4)
  }

  /** An accepted chunk is answered with "OK", after the call it asks for if any. */
  lemma StepAccepted(g: Geometry, s: Engine, chunk: seq<bv8>, unpack: ValueBytes -> real)
    requires ValidGeometry(g) && Registered(s.devices)
    requires Accepted(chunk)
    ensures var r := Step(g, s, chunk, unpack);
      && r.Next?
      && r.events == match CallFor(Decode(chunk).value, unpack)
                     case None => [Sent(OK)]
                     case Some(c) => [Called(c), Sent(OK)]
  {
    var m := Decode(chunk).value;
    assert m.inputType == 2 ==> m.inputIndex in s.devices;
  }

  /** The calls a sequence of chunks asks for, in order; type-3 chunks ask for none. */
  function CallsFor(chunks: seq<seq<bv8>>, unpack: ValueBytes -> real): seq<Call>
    requires forall k :: 0 <= k < |chunks| ==> Accepted(chunks[k])
    decreases |chunks|
  {
    if chunks == [] then []
    else
      assert Accepted(chunks[0]);
      var m := Decode(chunks[0]).value;
      var rest := CallsFor(chunks[1..], unpack);
      match CallFor(m, unpack)
      case None => rest
      case Some(c) => [c] + rest
  }

  /** The replies in a trace. */
  function Replies(events: seq<Event>): nat
  {
    if events == [] then 0
    else (if events[0].Sent? then 1 else 0) + Replies(events[1..])
  }

  /** The engine calls in a trace, in order. */
  function CallsIn(events: seq<Event>): seq<Call>
  {
    if events == [] then []
    else (if events[0].Called? then [events[0].call] else []) + CallsIn(events[1..])
  }

  /** Replies and calls of a concatenated trace. */
  lemma {:induction false} TraceAppend(a: seq<Event>, b: seq<Event>)
    ensures Replies(a + b) == Replies(a) + Replies(b)
    ensures CallsIn(a + b) == CallsIn(a) + CallsIn(b)
    decreases |a|
  {
    if a == [] {
      assert a + b == b;
    } else {
      assert (a + b)[0] == a[0];
      assert (a + b)[1..] == a[1..] + b;
      TraceAppend(a[1..], b);
    }
  }

  /**
   * On a stream of accepted chunks the handler answers every chunk with
   * exactly one "OK", makes exactly the calls the chunks ask for, in order,
   * and ends waiting for more.
   */
  lemma {:induction false} OneReplyPerChunk(g: Geometry, s: Engine, chunks: seq<seq<bv8>>, unpack: ValueBytes -> real)
    requires ValidGeometry(g) && Registered(s.devices)
    requires forall k :: 0 <= k < |chunks| ==> Accepted(chunks[k])
    ensures Session(g, s, chunks, unpack).ending == Waiting
    ensures Replies(Session(g, s, chunks, unpack).events) == |chunks|
    ensures CallsIn(Session(g, s, chunks, unpack).events) == CallsFor(chunks, unpack)
    decreases |chunks|
  {
    if chunks != [] {
      assert Accepted(chunks[0]);
      StepAccepted(g, s, chunks[0], unpack);
      var r := Step(g, s, chunks[0], unpack);
      OneReplyPerChunk(g, r.engine, chunks[1..], unpack);
      TraceAppend(r.events, Session(g, r.engine, chunks[1..], unpack).events);
    }
  }

  /**
   * From construction, joystick 1 pushed to x = 0.5 and released to x = 0.0
   * (two axis-0 messages) leaves HL and HR at the zero-thrust tick 371.
   */
  lemma PushAndRelease(g: Geometry, half: ValueBytes, zero: ValueBytes, unpack: ValueBytes -> real)
    requires ValidGeometry(g) && EuclideanLength(g)
    requires unpack(half) == 0.5 && unpack(zero) == 0.0
    ensures var r := Session(g, Initial(), [[0x00] + half, [0x00] + zero], unpack);
      && r.ending == Waiting
      && r.events == [Called(AxisCall(0, 0.5)), Sent(OK), Called(AxisCall(0, 0.0)), Sent(OK)]
      && r.engine.devices[HL].off == 371
      && r.engine.devices[HR].off == 371
  {
    var s0 := Initial();
    InitialIsSafe();
    var s1 := AxisUpdated(g, s0, 0, 0.5);
    AxisStep(g, s0, half, unpack);
    AxisStep(g, s1, zero, unpack);
    TwoChunks(g, s0, [0x00] + half, [0x00] + zero, unpack);
    ReleaseAtRest(g);
  }

  /** A session of two chunks the handler goes on from. */
  lemma TwoChunks(g: Geometry, s: Engine, first: seq<bv8>, second: seq<bv8>, unpack: ValueBytes -> real)
    requires ValidGeometry(g) && Registered(s.devices)
    requires Step(g, s, first, unpack).Next?
    requires Step(g, Step(g, s, first, unpack).engine, second, unpack).Next?
    ensures var r1 := Step(g, s, first, unpack);
      var r2 := Step(g, r1.engine, second, unpack);
      Session(g, s, [first, second], unpack) == SessionResult(r2.engine, r1.events + r2.events, Waiting)
  {
    var r1 := Step(g, s, first, unpack);
    var r2 := Step(g, r1.engine, second, unpack);
    PairParts(first, second);
    assert Session(g, r1.engine, [second], unpack) == Prepend(r2.events, Session(g, r2.engine, [], unpack));
    assert r2.events + [] == r2.events;
  }

  /** The head and the tails of a two-element sequence. */
  lemma PairParts<T>(a: T, b: T)
    ensures [a, b][0] == a && [a, b][1..] == [b] && [b][0] == b && [b][1..] == []
  {
  }

  /** Axis 0 set to 0.5 and then to 0.0 from construction leaves HL and HR at tick 371. */
  lemma ReleaseAtRest(g: Geometry)
    requires ValidGeometry(g) && EuclideanLength(g)
    ensures var s2 := AxisUpdated(g, AxisUpdated(g, Initial(), 0, 0.5), 0, 0.0);
      s2.devices[HL].off == 371 && s2.devices[HR].off == 371
  {
    var s0 := Initial();
    InitialIsSafe();
    var s1 := AxisUpdated(g, s0, 0, 0.5);
    RoundedExactly();
    AxisRouting(g, s0, 0, 0.5);
    AxisRouting(g, s1, 0, 0.0);
    assert AxisUpdated(g, s1, 0, 0.0) == Steered(g, s1.(j1 := Vector2D(0.0, 0.0)));
    SteeredAtRest(g, s1.(j1 := Vector2D(0.0, 0.0)));
  }

  /** A header-0x00 chunk is an axis-0 message: one call, then "OK". */
  lemma AxisStep(g: Geometry, s: Engine, v: ValueBytes, unpack: ValueBytes -> real)
    requires ValidGeometry(g) && Registered(s.devices)
    ensures Step(g, s, [0x00] + v, unpack)
      == Next(AxisUpdated(g, s, 0, unpack(v)), [Called(AxisCall(0, unpack(v))), Sent(OK)])
  {
    assert Decode([0x00] + v) == Success(Message(0, 0, 0, v));
  }
}
