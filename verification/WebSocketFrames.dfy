/** Frames of the WebSocket protocol: sections 5.2 and 5.3 of RFC 6455. */
module WebSocketFrames {
  import opened Wrappers
  import opened Bytes

  const CONTINUATION := 0x0
  const TEXT := 0x1
  const BINARY := 0x2
  const CLOSE := 0x8
  const PING := 0x9
  const PONG := 0xA

  const MAX_MESSAGE := 0x10_0000

  type Opcode = n: int | 0 <= n < 16

  datatype Frame = Frame(final: bool, opcode: Opcode, payload: Bytes)

  predicate IsControl(op: Opcode) { op >= 8 }

  // ----- Masking -----

  predicate IsKey(key: Bytes) { |key| == 4 }

  function Mask(p: Bytes, key: Bytes): (m: Bytes)
    requires IsKey(key)
    ensures |m| == |p| && forall i :: 0 <= i < |p| ==> m[i] == Xor(p[i], key[i % 4])
  {
    seq(|p|, i requires 0 <= i < |p| => Xor(p[i], key[i % 4]))
  }

  lemma MaskTwice(p: Bytes, key: Bytes)
    requires IsKey(key)
    ensures Mask(Mask(p, key), key) == p
  {
    forall i | 0 <= i < |p| ensures Mask(Mask(p, key), key)[i] == p[i] { XorTwice(p[i], key[i % 4]); }
  }

  // ----- Writing -----

  // The length in 7 bits, or in 2 or 8 bytes after a mark; high is the bit before it.
  function Length(size: nat, high: byte): Bytes
    requires high == 0 || high == 0x80
  {
    if size < 126 then [high + size]
    else if size <= 0xFFFF then [high + 126] + Big(size, 2)
    else [high + 127] + Big(size, 8)
  }

  // What the server sends: one final frame, not masked.
  function MakeFrame(op: Opcode, payload: Bytes): Bytes { [0x80 + op] + Length(|payload|, 0) + payload }

  // What a client sends.
  function ClientFrame(f: Frame, key: Bytes): Bytes
    requires IsKey(key)
  {
    [FirstByte(f)] + Length(|f.payload|, 0x80) + key + Mask(f.payload, key)
  }

  // ----- Reading -----

  datatype Read = Got(frame: Frame, rest: Bytes) | Lost | Violation | TooBig

  // The length after the first byte, and what follows it.
  function ReadLength(s: Bytes): Option<(nat, Bytes)> {
    if s == [] then None else
    var size := s[0] % 128;
    if size == 126 then if |s| < 3 then None else Some((FromBig(s[1..3]), s[3..]))
    else if size == 127 then if |s| < 9 then None else Some((FromBig(s[1..9]), s[9..]))
    else Some((size, s[1..]))
  }

  // A frame from a client: no reserved bit, control frames short and whole, masked.
  function ReadFrame(s: Bytes): Read {
    if |s| < 2 then Lost
    else if s[0] / 16 % 8 != 0 then Violation
    else
      var final, opcode, masked := s[0] >= 128, s[0] % 16, s[1] >= 128;
      var length := ReadLength(s[1..]);
      if length.None? then Lost else
      var (size, after) := length.value;
      if IsControl(opcode) && (size > 125 || !final) then Violation
      else if size > MAX_MESSAGE then TooBig
      else if !masked then Violation
      else if |after| < 4 + size then Lost
      else Got(Frame(final, opcode, Mask(after[4..4 + size], after[..4])), after[4 + size..])
  }

  predicate Sendable(f: Frame) {
    |f.payload| <= MAX_MESSAGE && (IsControl(f.opcode) ==> f.final && |f.payload| <= 125)
  }

  lemma LengthBack(size: nat, high: byte, rest: Bytes)
    requires (high == 0 || high == 0x80) && size < Power256(8)
    ensures var s := Length(size, high) + rest; s != [] && (s[0] >= 128 <==> high == 0x80) && ReadLength(s) == Some((size, rest))
  {
    var s := Length(size, high) + rest;
    assert Power256(2) == 0x1_0000 by { assert Power256(1) == 256; }
    if size < 126 {
      assert s[0] == high + size && s[1..] == rest;
    } else {
      var k := if size <= 0xFFFF then 2 else 8;
      BigBack(size, k);
      assert s[1..1 + k] == Big(size, k) && s[1 + k..] == rest;
    }
  }

  // The bytes of a length: 7 bits, or a mark and two or eight bytes, the highest first; the bit before it marks a
  // masked frame.
  lemma {:induction false} LengthBytes(size: nat, high: byte)
    requires (high == 0 || high == 0x80) && size < Power256(8)
    ensures var b := Length(size, high);
            if size < 126 then b == [high + size]
            else if size < 0x1_0000 then b == [high + 126, size / 256, size % 256]
            else |b| == 9 && b[0] == high + 127 && Eight([b[8], b[7], b[6], b[5], b[4], b[3], b[2], b[1]]) == size
  {
    var b := Length(size, high);
    if 126 <= size < 0x1_0000 {
      assert Big(size / 256, 1) == [size / 256];
      assert Big(size, 2) == [size / 256, size % 256];
    } else if size >= 0x1_0000 {
      LittleEight(size);
      BigEight(size);
      var low := Little(size, 8);
      assert [b[8], b[7], b[6], b[5], b[4], b[3], b[2], b[1]] == low;
    }
  }

  lemma {:induction false} BigEight(size: nat)
    ensures forall i :: 0 <= i < 8 ==> Big(size, 8)[i] == Little(size, 8)[7 - i]
  {
    forall i | 0 <= i < 8 ensures Big(size, 8)[i] == Little(size, 8)[7 - i] { BigIsLittle(size, 8, i); }
  }

  lemma SmallPower()
    ensures MAX_MESSAGE < Power256(8)
  {
    assert Power256(3) == 0x100_0000 by { assert Power256(1) == 256; }
    assert Power256(5) >= Power256(3) && Power256(7) >= Power256(5);
  }

  function FirstByte(f: Frame): byte { (if f.final then 0x80 else 0) + f.opcode }

  lemma FirstBack(f: Frame)
    ensures var b := FirstByte(f); b / 16 % 8 == 0 && (b >= 128 <==> f.final) && b % 16 == f.opcode
  {}

  // The bytes after the first, taken apart.
  lemma BodyBack(payload: Bytes, key: Bytes, rest: Bytes)
    requires IsKey(key) && |payload| <= MAX_MESSAGE
    ensures var t := Length(|payload|, 0x80) + (key + Mask(payload, key) + rest);
            && t != [] && t[0] >= 128 && ReadLength(t) == Some((|payload|, key + Mask(payload, key) + rest))
    ensures var after := key + Mask(payload, key) + rest;
            && |after| >= 4 + |payload| && Mask(after[4..4 + |payload|], after[..4]) == payload && after[4 + |payload|..] == rest
  {
    var masked := Mask(payload, key);
    var after := key + masked + rest;
    SmallPower();
    LengthBack(|payload|, 0x80, after);
    assert after[..4] == key && after[4..4 + |payload|] == masked;
    MaskTwice(payload, key);
  }

  // A frame sent by a client is read back, and nothing after it.
  lemma ReadSent(f: Frame, key: Bytes, rest: Bytes)
    requires IsKey(key) && Sendable(f)
    ensures ReadFrame(ClientFrame(f, key) + rest) == Got(f, rest)
  {
    var after := key + Mask(f.payload, key) + rest;
    var tail := Length(|f.payload|, 0x80) + after;
    var s := ClientFrame(f, key) + rest;
    FirstBack(f);
    BodyBack(f.payload, key, rest);
    Regroup([FirstByte(f)], Length(|f.payload|, 0x80), key, Mask(f.payload, key), rest);
    Assembled(s, f, tail, after, rest);
  }

  lemma Assembled(s: Bytes, f: Frame, tail: Bytes, after: Bytes, rest: Bytes)
    requires Sendable(f) && s == [FirstByte(f)] + tail && tail != [] && tail[0] >= 128
    requires FirstByte(f) / 16 % 8 == 0 && (FirstByte(f) >= 128 <==> f.final) && FirstByte(f) % 16 == f.opcode
    requires ReadLength(tail) == Some((|f.payload|, after)) && |after| >= 4 + |f.payload|
    requires Mask(after[4..4 + |f.payload|], after[..4]) == f.payload && after[4 + |f.payload|..] == rest
    ensures ReadFrame(s) == Got(f, rest)
  {
    assert s[1..] == tail && s[0] == FirstByte(f) && s[1] == tail[0];
  }

  // What the other side reads of a frame of the server: a whole frame that is not masked.
  function ReadPlain(s: Bytes): Option<(Opcode, Bytes, Bytes)> {
    if |s| < 2 || s[0] < 128 || s[0] / 16 % 8 != 0 || s[1] >= 128 then None else
    var length := ReadLength(s[1..]);
    if length.None? || |length.value.1| < length.value.0 then None
    else Some((s[0] % 16, length.value.1[..length.value.0], length.value.1[length.value.0..]))
  }

  lemma MadeFrameReads(op: Opcode, payload: Bytes, rest: Bytes)
    requires |payload| < Power256(8)
    ensures ReadPlain(MakeFrame(op, payload) + rest) == Some((op, payload, rest))
  {
    var s, after := MakeFrame(op, payload) + rest, payload + rest;
    LengthBack(|payload|, 0, after);
    assert s == [0x80 + op] + (Length(|payload|, 0) + after);
    assert s[1..] == Length(|payload|, 0) + after && |s| >= 2;
    assert after[..|payload|] == payload && after[|payload|..] == rest;
  }
}
