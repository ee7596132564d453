/**
 * The 5-byte wire message exchanged between an input device and the vehicle
 * (services/controllers/message.py).
 *
 * Byte 0 packs three bit fields: controller index in bits 7-6, input type in
 * bits 5-4 and input index in bits 3-0. Bytes 1-4 carry a 32-bit float in the
 * host's native byte order; the model keeps those four bytes opaque.
 */
module MessageCodec {
  import opened Wrappers

  /** The four bytes of the packed single-precision input value. */
  type ValueBytes = s: seq<bv8> | |s| == 4 witness [0, 0, 0, 0]

  /**
   * A message. The integer fields are Python integers: decoding only ever
   * produces small non-negative ones, but a sender may put any integer in
   * them before encoding.
   */
  datatype Message = Message(
    controllerIndex: int,
    inputType: int,
    inputIndex: int,
    inputValue: ValueBytes)

  /** Why constructing a Message from a buffer raises. */
  datatype DecodeError =
    | EmptyBuffer        // `buffer[0]` on an empty buffer
    | WrongValueLength   // `struct.unpack("f", ...)` on other than 4 bytes

  const MESSAGE_LENGTH: nat := 5

  /** Bits 7-6 of the header. */
  function ControllerBits(b: bv8): (c: int)
    ensures 0 <= c < 4
    ensures c == b as int / 64
  {
    ((b & 0xC0) >> 6) as int
  }

  /** Bits 5-4 of the header. */
  function TypeBits(b: bv8): (t: int)
    ensures 0 <= t < 4
    ensures t == (b as int / 16) % 4
  {
    ((b & 0x30) >> 4) as int
  }

  /** Bits 3-0 of the header. */
  function IndexBits(b: bv8): (i: int)
    ensures 0 <= i < 16
    ensures i == b as int % 16
  {
    (b & 0x0F) as int
  }

  /**
   * `Message.__init__`: split a received buffer into its fields. The buffer
   * must be exactly five bytes long; anything else raises.
   */
  function Decode(buffer: seq<bv8>): (r: Result<Message, DecodeError>)
    ensures r.Success? <==> |buffer| == MESSAGE_LENGTH
    ensures |buffer| == 0 ==> r == Failure(EmptyBuffer)
    ensures 0 < |buffer| != MESSAGE_LENGTH ==> r == Failure(WrongValueLength)
    ensures r.Success? ==>
      && 0 <= r.value.controllerIndex < 4
      && 0 <= r.value.inputType < 4
      && 0 <= r.value.inputIndex < 16
      && r.value.inputValue == buffer[1..]
  {
    if |buffer| == 0 then Failure(EmptyBuffer)
    else if |buffer| - 1 != 4 then Failure(WrongValueLength)
    else
      var b1 := buffer[0];
      Success(Message(ControllerBits(b1), TypeBits(b1), IndexBits(b1), buffer[1..]))
  }

  /**
   * The header byte of `byte_convert`. Each field is masked to its width
   * first; for a Python integer `x & (2^k - 1)` equals the Euclidean `x % 2^k`,
   * negative integers included.
   */
  function EncodeHeader(controllerIndex: int, inputType: int, inputIndex: int): (b: bv8)
    ensures ControllerBits(b) == controllerIndex % 4
    ensures TypeBits(b) == inputType % 4
    ensures IndexBits(b) == inputIndex % 16
  {
    var c := (controllerIndex % 4) as bv8;
    var t := (inputType % 4) as bv8;
    var i := (inputIndex % 16) as bv8;
    (c << 6) | (t << 4) | i
  }

  /** `Message.byte_convert`: the header byte followed by the value bytes. */
  function Encode(m: Message): (bytes: seq<bv8>)
    ensures |bytes| == MESSAGE_LENGTH
    ensures bytes[1..] == m.inputValue
    ensures ControllerBits(bytes[0]) == m.controllerIndex % 4
    ensures TypeBits(bytes[0]) == m.inputType % 4
    ensures IndexBits(bytes[0]) == m.inputIndex % 16
  {
    [EncodeHeader(m.controllerIndex, m.inputType, m.inputIndex)] + m.inputValue
  }

  /** The message built by `Message()` with its default all-zero buffer. */
  function DefaultMessage(): (r: Result<Message, DecodeError>)
    ensures r.Success? && InRange(r.value)
    ensures r.Success? ==> Encode(r.value) == [0, 0, 0, 0, 0]
  {
    Decode([0, 0, 0, 0, 0])
  }

  /** Fields within their bit widths: exactly the messages Decode can produce. */
  predicate InRange(m: Message)
  {
    0 <= m.controllerIndex < 4 && 0 <= m.inputType < 4 && 0 <= m.inputIndex < 16
  }

  /** Decoding an encoded in-range message gives the message back. */
  lemma DecodeEncode(m: Message)
    requires InRange(m)
    ensures Decode(Encode(m)) == Success(m)
  {
    var bytes := Encode(m);
    assert bytes[1..] == m.inputValue;
  }

  /**
   * Encoding a decoded buffer reproduces the buffer: the three fields cover
   * all eight bits of the header.
   */
  lemma EncodeDecode(buffer: seq<bv8>)
    requires |buffer| == MESSAGE_LENGTH
    ensures Decode(buffer).Success? && Encode(Decode(buffer).value) == buffer
  {
    var m := Decode(buffer).value;
    var b := buffer[0];
    assert EncodeHeader(m.controllerIndex, m.inputType, m.inputIndex) == b by {
      HeaderFromFields(b);
    }
    assert Encode(m) == [b] + buffer[1..];
  }

  /** A header byte is determined by its three fields. */
  lemma HeaderFromFields(b: bv8)
    ensures EncodeHeader(ControllerBits(b), TypeBits(b), IndexBits(b)) == b
  {
    var cb, tb, ib := (b & 0xC0) >> 6, (b & 0x30) >> 4, b & 0x0F;
    NarrowRoundTrip(cb);
    NarrowRoundTrip(tb);
    NarrowRoundTrip(ib);
    FieldsCoverHeader(b);
  }

  /** A field value survives the trip to a Python integer, its mask and back. */
  lemma NarrowRoundTrip(x: bv8)
    requires x < 16
    ensures (x as int % 16) as bv8 == x
    ensures x < 4 ==> (x as int % 4) as bv8 == x
  {
    assert x as int % 16 == x as int;
  }

  /** The three masks cover all eight bits, without overlap. */
  lemma FieldsCoverHeader(b: bv8)
    ensures (((b & 0xC0) >> 6) << 6) | (((b & 0x30) >> 4) << 4) | (b & 0x0F) == b
  {
  }

  /**
   * Out-of-range fields are truncated, not rejected: encoding and then
   * decoding keeps only the low bits of each field.
   */
  lemma EncodeMasks(m: Message)
    ensures Decode(Encode(m)) == Success(Message(m.controllerIndex % 4, m.inputType % 4, m.inputIndex % 16, m.inputValue))
  {
    var bytes := Encode(m);
    assert bytes[1..] == m.inputValue;
  }

  /** Controller 5 is sent as controller 1. */
  lemma ControllerFiveEncodesAsOne(v: ValueBytes)
    ensures Decode(Encode(Message(5, 0, 0, v))).value.controllerIndex == 1
  {
    EncodeMasks(Message(5, 0, 0, v));
  }

  /** Header 0x63 is controller 1, input type 2, input index 3. */
  lemma DecodeExample(v: ValueBytes)
    ensures Decode([0x63] + v) == Success(Message(1, 2, 3, v))
  {
  }

  /** Controller 1, an axis message with index 0, has header byte 0x40. */
  lemma EncodeExample(v: ValueBytes)
    ensures Encode(Message(1, 0, 0, v))[0] == 0x40
  {
  }

  /** The default buffer decodes to all-zero fields. */
  lemma DefaultMessageIsZero()
    ensures DefaultMessage() == Success(Message(0, 0, 0, [0, 0, 0, 0]))
  {
  }
}
