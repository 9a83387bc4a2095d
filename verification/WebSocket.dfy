/** WebSocket frames (route/httphelper/websocket.go, sections 5.2 and 5.3 of RFC 6455). */
module WebSocket {
  import opened Wrappers

  type Bytes = seq<bv8>

  const MAX_PAYLOAD: nat := 0x100000

  function Byte(n: nat): bv8 {
    (n % 256) as bv8
  }

  function Value(b: bv8): nat {
    b as nat
  }

  lemma ByteValue(n: nat)
    ensures Value(Byte(n)) == n % 256
  {
    SmallValue(n % 256);
  }

  lemma Successor(b: bv8)
    requires b != 255
    ensures (b + 1) as nat == b as nat + 1
  {
  }

  lemma BackToByte(b: bv8)
    ensures (b as nat) as bv8 == b
  {
  }

  lemma {:induction false} SmallValue(n: nat)
    requires n < 256
    ensures (n as bv8) as nat == n
  {
    if n > 0 {
      var b := (n - 1) as bv8;
      SmallValue(n - 1);
      Successor(b);
      BackToByte(b + 1);
    }
  }

  function BigEndian(n: nat, width: nat): (r: Bytes)
    ensures |r| == width
  {
    if width == 0 then [] else BigEndian(n / 256, width - 1) + [Byte(n)]
  }

  function FromBigEndian(bytes: Bytes): nat {
    if bytes == [] then 0 else var last := |bytes| - 1; 256 * FromBigEndian(bytes[..last]) + Value(bytes[last])
  }

  function Power(width: nat): nat {
    if width == 0 then 1 else 256 * Power(width - 1)
  }

  lemma {:induction false} BigEndianRoundTrip(n: nat, width: nat)
    requires n < Power(width)
    ensures FromBigEndian(BigEndian(n, width)) == n
  {
    if width > 0 {
      BigEndianRoundTrip(n / 256, width - 1);
      var bytes := BigEndian(n, width);
      assert bytes[..width - 1] == BigEndian(n / 256, width - 1);
      ByteValue(n);
    }
  }

  // Writing.

  /** The seven length bits, and how many bytes extend them. */
  function Short(length: nat): nat {
    if length <= 125 then length else if length <= 0xffff then 126 else 127
  }

  function Extension(length7: nat): nat {
    if length7 == 126 then 2 else if length7 == 127 then 8 else 0
  }

  /** The part of the header after the first byte; mask is 0x80 for a client. */
  function LengthBytes(length: nat, mask: bv8): Bytes {
    [Short(length) as bv8 | mask] + BigEndian(length, Extension(Short(length)))
  }

  function Header(opcode: bv8, length: nat, mask: bv8): Bytes {
    [0x80 | opcode] + LengthBytes(length, mask)
  }

  /** What the service writes. */
  function ServerFrame(opcode: bv8, payload: Bytes): Bytes {
    Header(opcode, |payload|, 0) + payload
  }

  /** `WriteWebSocketFrame`: the bytes written. */
  method WriteFrame(opcode: bv8, payload: Bytes) returns (out: Bytes)
    ensures out == ServerFrame(opcode, payload)
  {
    var header := [0x80 | opcode];
    var length := |payload|;
    Unmasked(Short(length) as bv8);
    if length <= 125 {
      header := header + [length as bv8];
    } else if length <= 0xffff {
      TwoBytes(length);
      header := header + [126, Byte(length / 256), Byte(length)];
    } else {
      header := header + [127];
      header := header + BigEndian(length, 8);
    }
    out := header + payload;
  }

  lemma TwoBytes(n: nat)
    ensures BigEndian(n, 2) == [Byte(n / 256), Byte(n)]
  {
    assert BigEndian(n / 256 / 256, 0) == [];
    assert BigEndian(n / 256, 1) == [Byte(n / 256)];
  }

  lemma Unmasked(b: bv8)
    ensures b | 0 == b
  {
  }

  /** Each byte is combined with one of the four key bytes. */
  function Masked(payload: Bytes, key: Bytes): (r: Bytes)
    requires |key| == 4
    ensures |r| == |payload|
  {
    seq(|payload|, i requires 0 <= i < |payload| => payload[i] ^ key[i % 4])
  }

  lemma MaskTwice(payload: Bytes, key: Bytes)
    requires |key| == 4
    ensures Masked(Masked(payload, key), key) == payload
  {
    forall i | 0 <= i < |payload| ensures Masked(Masked(payload, key), key)[i] == payload[i] {
      XorTwice(payload[i], key[i % 4]);
    }
  }

  lemma XorTwice(a: bv8, b: bv8)
    ensures (a ^ b) ^ b == a
  {
  }

  /** What a client sends: the same header with the mask bit, the key and the masked payload. */
  function ClientFrame(opcode: bv8, key: Bytes, payload: Bytes): Bytes
    requires |key| == 4
  {
    Header(opcode, |payload|, 0x80) + key + Masked(payload, key)
  }

  // Reading.

  datatype Problem = Truncated | Fragmented | NotMasked | TooLarge
  datatype Decoded = Frame(opcode: bv8, payload: Bytes, rest: Bytes) | Bad(problem: Problem)

  /** After the first two bytes. */
  function DecodeRest(opcode: bv8, length7: nat, input: Bytes): Decoded {
    var ext := Extension(length7);
    if |input| < ext then Bad(Truncated)
    else
      var length := if ext == 0 then length7 else FromBigEndian(input[..ext]);
      if length > MAX_PAYLOAD then Bad(TooLarge) else DecodePayload(opcode, length, input[ext..])
  }

  function DecodePayload(opcode: bv8, length: nat, input: Bytes): Decoded {
    if |input| < 4 + length then Bad(Truncated)
    else Frame(opcode, Masked(input[4..4 + length], input[..4]), input[4 + length..])
  }

  function Decode(input: Bytes): Decoded {
    if |input| < 2 then Bad(Truncated)
    else if input[0] & 0x80 == 0 then Bad(Fragmented)
    else if input[1] & 0x80 == 0 then Bad(NotMasked)
    else DecodeRest(input[0] & 0x0f, Value(input[1] & 0x7f), input[2..])
  }

  class Stream {
    var data: Bytes

    constructor (data: Bytes)
      ensures this.data == data
    {
      this.data := data;
    }

    /** `io.ReadFull`. */
    method ReadFull(n: nat) returns (read: Option<Bytes>)
      modifies this
      ensures if |old(data)| < n then read == None && data == []
              else read == Some(old(data)[..n]) && data == old(data)[n..]
    {
      if |data| < n {
        data := [];
        return None;
      }
      read := Some(data[..n]);
      data := data[n..];
    }

    /** `ReadWebSocketFrame`. */
    method ReadFrame() returns (result: Decoded)
      modifies this
      ensures result == Decode(old(data))
      ensures result.Frame? ==> data == result.rest
    {
      var header := ReadFull(2);
      if header == None { return Bad(Truncated); }
      var h := header.value;
      if h[0] & 0x80 == 0 { return Bad(Fragmented); }
      if h[1] & 0x80 == 0 { return Bad(NotMasked); }
      result := ReadBody(h[0] & 0x0f, Value(h[1] & 0x7f));
    }

    method ReadBody(opcode: bv8, length7: nat) returns (result: Decoded)
      modifies this
      ensures result == DecodeRest(opcode, length7, old(data))
      ensures result.Frame? ==> data == result.rest
    {
      var length := length7;
      if length7 == 126 || length7 == 127 {
        var bytes := ReadFull(Extension(length7));
        if bytes == None { return Bad(Truncated); }
        length := FromBigEndian(bytes.value);
      }
      if length > MAX_PAYLOAD { return Bad(TooLarge); }
      result := ReadPayload(opcode, length);
    }

    method ReadPayload(opcode: bv8, length: nat) returns (result: Decoded)
      modifies this
      ensures result == DecodePayload(opcode, length, old(data))
      ensures result.Frame? ==> data == result.rest
    {
      var key := ReadFull(4);
      if key == None { return Bad(Truncated); }
      var masked := ReadFull(length);
      if masked == None { return Bad(Truncated); }
      var payload := new bv8[length](i requires 0 <= i < length => masked.value[i]);
      assert payload[..] == masked.value;
      Unmask(payload, key.value);
      result := Frame(opcode, payload[..], data);
    }
  }

  /** The loop that takes the mask off in place. */
  method Unmask(payload: array<bv8>, key: Bytes)
    requires |key| == 4
    modifies payload
    ensures payload[..] == Masked(old(payload[..]), key)
  {
    for i := 0 to payload.Length
      invariant forall k :: 0 <= k < i ==> payload[k] == old(payload[k]) ^ key[k % 4]
      invariant forall k :: i <= k < payload.Length ==> payload[k] == old(payload[k])
    {
      payload[i] := payload[i] ^ key[i % 4];
    }
  }

  // Round trips.

  lemma OpcodeBits(opcode: bv8)
    requires opcode < 16
    ensures (0x80 | opcode) & 0x80 != 0 && (0x80 | opcode) & 0x0f == opcode
  {
  }

  lemma LengthBits(n: nat)
    requires n < 128
    ensures (n as bv8 | 0x80) & 0x80 != 0 && (n as bv8 | 0x80) & 0x7f == n as bv8 && Value(n as bv8) == n
  {
    SmallValue(n);
    SevenBits(n as bv8);
  }

  lemma SevenBits(b: bv8)
    requires b as nat < 128
    ensures (b | 0x80) & 0x80 != 0 && (b | 0x80) & 0x7f == b && (b | 0) & 0x80 == 0
  {
    assert b < 128;
  }

  lemma PayloadRoundTrip(opcode: bv8, key: Bytes, payload: Bytes, rest: Bytes)
    requires |key| == 4
    ensures DecodePayload(opcode, |payload|, key + Masked(payload, key) + rest) == Frame(opcode, payload, rest)
  {
    var input := key + Masked(payload, key) + rest;
    assert input[..4] == key && input[4..4 + |payload|] == Masked(payload, key) && input[4 + |payload|..] == rest;
    MaskTwice(payload, key);
  }

  lemma RestRoundTrip(opcode: bv8, length7: nat, payload: Bytes, body: Bytes)
    requires |payload| <= MAX_PAYLOAD
    requires length7 == Short(|payload|)
    ensures DecodeRest(opcode, length7, BigEndian(|payload|, Extension(length7)) + body) ==
            DecodePayload(opcode, |payload|, body)
  {
    var ext := Extension(length7);
    var bytes := BigEndian(|payload|, ext);
    assert (bytes + body)[..ext] == bytes && (bytes + body)[ext..] == body;
    Powers();
    if ext != 0 { BigEndianRoundTrip(|payload|, ext); }
  }

  lemma Powers()
    ensures Power(2) == 0x10000 && Power(8) == 0x1_0000_0000_0000_0000
  {
    assert Power(4) == 0x1_0000_0000 by { assert Power(1) == 256 && Power(2) == 0x10000 && Power(3) == 0x1000000; }
    assert Power(6) == 0x1_0000_0000_0000 by { assert Power(5) == 0x100_0000_0000; }
  }

  lemma DecodeStart(x: bv8, y: bv8, input: Bytes)
    requires x & 0x80 != 0 && y & 0x80 != 0
    ensures Decode([x] + [y] + input) == DecodeRest(x & 0x0f, Value(y & 0x7f), input)
  {
    var whole := [x] + [y] + input;
    assert whole[0] == x && whole[1] == y && whole[2..] == input;
  }

  lemma Regroup(a: Bytes, b: Bytes, c: Bytes, key: Bytes, masked: Bytes, rest: Bytes)
    ensures a + (b + c) + key + masked + rest == a + b + (c + (key + masked + rest))
  {
  }

  /** For every opcode, key and payload up to the limit: the frame is read back, and nothing beyond it. */
  lemma FrameRoundTrip(opcode: bv8, key: Bytes, payload: Bytes, rest: Bytes)
    requires opcode < 16 && |key| == 4 && |payload| <= MAX_PAYLOAD
    ensures Decode(ClientFrame(opcode, key, payload) + rest) == Frame(opcode, payload, rest)
  {
    var length7 := Short(|payload|);
    var x, y := 0x80 | opcode, length7 as bv8 | 0x80;
    var extension := BigEndian(|payload|, Extension(length7));
    Regroup([x], [y], extension, key, Masked(payload, key), rest);
    OpcodeBits(opcode);
    LengthBits(length7);
    DecodeStart(x, y, extension + (key + Masked(payload, key) + rest));
    RestRoundTrip(opcode, length7, payload, key + Masked(payload, key) + rest);
    PayloadRoundTrip(opcode, key, payload, rest);
  }

  datatype Message = Message(opcode: bv8, key: Bytes, payload: Bytes)

  predicate Sendable(m: Message) {
    m.opcode < 16 && |m.key| == 4 && |m.payload| <= MAX_PAYLOAD
  }

  function Sent(messages: seq<Message>): Bytes
    requires forall i :: 0 <= i < |messages| ==> Sendable(messages[i])
  {
    if messages == [] then []
    else
      assert Sendable(messages[0]);
      ClientFrame(messages[0].opcode, messages[0].key, messages[0].payload) + Sent(messages[1..])
  }

  /** Reading frame after frame until the stream ends; None when a frame is bad. */
  function ReadAll(input: Bytes): Option<seq<(bv8, Bytes)>>
    decreases |input|
  {
    if input == [] then Some([])
    else
      var first := Decode(input);
      if first.Bad? || |first.rest| >= |input| then None
      else
        var others := ReadAll(first.rest);
        if others == None then None else Some([(first.opcode, first.payload)] + others.value)
  }

  function Contents(messages: seq<Message>): seq<(bv8, Bytes)> {
    seq(|messages|, i requires 0 <= i < |messages| => (messages[i].opcode, messages[i].payload))
  }

  lemma ReadAllStep(first: Bytes, rest: Bytes, opcode: bv8, payload: Bytes, others: seq<(bv8, Bytes)>)
    requires first != [] && Decode(first + rest) == Frame(opcode, payload, rest) && ReadAll(rest) == Some(others)
    ensures ReadAll(first + rest) == Some([(opcode, payload)] + others)
  {
  }

  lemma MessageStep(m: Message, rest: Bytes, others: seq<(bv8, Bytes)>)
    requires Sendable(m) && ReadAll(rest) == Some(others)
    ensures ReadAll(ClientFrame(m.opcode, m.key, m.payload) + rest) == Some([(m.opcode, m.payload)] + others)
  {
    FrameRoundTrip(m.opcode, m.key, m.payload, rest);
    ReadAllStep(ClientFrame(m.opcode, m.key, m.payload), rest, m.opcode, m.payload, others);
  }

  /** A stream of frames is read back in order. */
  lemma {:induction false} StreamRoundTrip(messages: seq<Message>)
    requires forall i :: 0 <= i < |messages| ==> Sendable(messages[i])
    ensures ReadAll(Sent(messages)) == Some(Contents(messages))
  {
    if messages != [] {
      var m := messages[0];
      assert Sendable(m);
      StreamRoundTrip(messages[1..]);
      MessageStep(m, Sent(messages[1..]), Contents(messages[1..]));
      assert Contents(messages) == [(m.opcode, m.payload)] + Contents(messages[1..]);
    }
  }

  /** A frame as the service writes it is never taken for a client's. */
  lemma ServerFrameRefused(opcode: bv8, payload: Bytes)
    ensures Decode(ServerFrame(opcode, payload)).Bad?
  {
    var input := ServerFrame(opcode, payload);
    var length7 := Short(|payload|);
    assert input[0] == 0x80 | opcode && input[1] == length7 as bv8 | 0;
    NoMaskBit(length7);
  }

  lemma NoMaskBit(n: nat)
    requires n < 128
    ensures (n as bv8 | 0) & 0x80 == 0
  {
    SmallValue(n);
    SevenBits(n as bv8);
  }
}
