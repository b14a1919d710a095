/**
The packets of the MySQL client/server protocol: a payload is split into packets of at most 2^24 - 1
bytes, and one that ends in a full packet is followed by an empty one. Length-encoded integers and
strings.
*/
module MySqlWire {
  import opened Wrappers
  import opened Bytes

  const MAX_PACKET := 0xFF_FFFF

  // ----- Packets -----

  function Packet(chunk: Bytes, sequence: byte): Bytes { Little(|chunk|, 3) + [sequence] + chunk }

  function NextSequence(s: byte): byte { (s + 1) % 256 }

  // The packets of a payload, numbered from the sequence number on.
  function Packets(payload: Bytes, sequence: byte): Bytes
    decreases |payload|
  {
    if |payload| < MAX_PACKET then Packet(payload, sequence)
    else Packet(payload[..MAX_PACKET], sequence) + Packets(payload[MAX_PACKET..], NextSequence(sequence))
  }

  function PacketCount(payload: Bytes): nat { |payload| / MAX_PACKET + 1 }

  // What is read from a stream: the payload, what follows it and the number of the last packet.
  function ReadPackets(s: Bytes): Option<(Bytes, Bytes, byte)>
    decreases |s|
  {
    if |s| < 4 then None else
    var size := FromLittle(s[..3]);
    if |s| < 4 + size then None
    else if size < MAX_PACKET then Some((s[4..4 + size], s[4 + size..], s[3]))
    else
      var more := ReadPackets(s[4 + size..]);
      if more.None? then None else Some((s[4..4 + size] + more.value.0, more.value.1, more.value.2))
  }

  lemma PacketParts(chunk: Bytes, sequence: byte, rest: Bytes)
    requires |chunk| <= MAX_PACKET
    ensures var s := Packet(chunk, sequence) + rest;
            && |s| == 4 + |chunk| + |rest| && FromLittle(s[..3]) == |chunk| && s[3] == sequence
            && s[4..4 + |chunk|] == chunk && s[4 + |chunk|..] == rest
  {
    var s := Packet(chunk, sequence) + rest;
    assert Power256(3) == 0x100_0000 by { assert Power256(1) == 256; }
    LittleBack(|chunk|, 3);
    assert s[..3] == Little(|chunk|, 3);
  }

  lemma CountStep(payload: Bytes)
    requires |payload| >= MAX_PACKET
    ensures PacketCount(payload) == PacketCount(payload[MAX_PACKET..]) + 1
  {}

  lemma ModAdd(a: int, n: int)
    ensures (a % 256 + n) % 256 == (a + n) % 256
  {
    assert a == a / 256 * 256 + a % 256;
    assert (a + n) == (a % 256 + n) + a / 256 * 256;
    ModShift(a % 256 + n, a / 256);
  }

  lemma {:induction false} ModShift(x: int, q: int)
    ensures (x + q * 256) % 256 == x % 256
  {}

  lemma NextNumber(s: byte, n: nat)
    ensures (NextSequence(s) + n) % 256 == (s + (n + 1)) % 256
    ensures n >= 1 ==> (NextSequence(s) + n - 1) % 256 == (s + n) % 256
  {
    ModAdd(s + 1, n);
    ModAdd(s + 1, n - 1);
  }

  lemma {:induction false} ReadFull(chunk: Bytes, sequence: byte, more: Bytes)
    requires |chunk| == MAX_PACKET && ReadPackets(more).Some?
    ensures var r := ReadPackets(more).value;
            ReadPackets(Packet(chunk, sequence) + more) == Some((chunk + r.0, r.1, r.2))
  {
    PacketParts(chunk, sequence, more);
  }

  // The number of the last packet.
  function LastNumber(payload: Bytes, sequence: byte): byte
    decreases |payload|
  {
    if |payload| < MAX_PACKET then sequence else LastNumber(payload[MAX_PACKET..], NextSequence(sequence))
  }

  lemma {:induction false} NumbersConsecutive(payload: Bytes, sequence: byte)
    ensures LastNumber(payload, sequence) == (sequence + PacketCount(payload) - 1) % 256
    decreases |payload|
  {
    if |payload| >= MAX_PACKET {
      NumbersConsecutive(payload[MAX_PACKET..], NextSequence(sequence));
      CountStep(payload);
      NextNumber(sequence, PacketCount(payload[MAX_PACKET..]));
    }
  }

  lemma {:induction false} ReadLast(payload: Bytes, sequence: byte, rest: Bytes)
    requires |payload| < MAX_PACKET
    ensures ReadPackets(Packet(payload, sequence) + rest) == Some((payload, rest, sequence))
  {
    PacketParts(payload, sequence, rest);
  }

  lemma {:induction false} ReadWrittenParts(payload: Bytes, sequence: byte, rest: Bytes)
    ensures ReadPackets(Packets(payload, sequence) + rest) == Some((payload, rest, LastNumber(payload, sequence)))
    decreases |payload|
  {
    if |payload| < MAX_PACKET {
      ReadLast(payload, sequence, rest);
    } else {
      var chunk, tail := payload[..MAX_PACKET], payload[MAX_PACKET..];
      ReadWrittenParts(tail, NextSequence(sequence), rest);
      ReadFull(chunk, sequence, Packets(tail, NextSequence(sequence)) + rest);
      Concat(Packet(chunk, sequence), Packets(tail, NextSequence(sequence)), rest);
      assert chunk + tail == payload;
    }
  }

  // Reading what was written gives the payload, for every length, and leaves what follows it; the
  // packets are numbered consecutively, modulo 256.
  lemma {:induction false} ReadWritten(payload: Bytes, sequence: byte, rest: Bytes)
    ensures ReadPackets(Packets(payload, sequence) + rest)
            == Some((payload, rest, (sequence + PacketCount(payload) - 1) % 256))
  {
    ReadWrittenParts(payload, sequence, rest);
    NumbersConsecutive(payload, sequence);
  }

  lemma {:induction false} HeaderBytes(chunk: Bytes, sequence: byte, more: Bytes)
    requires |chunk| <= MAX_PACKET
    ensures var p := Packet(chunk, sequence) + more;
            && |p| == 4 + |chunk| + |more| && p[0] as int + 256 * p[1] as int + 0x1_0000 * p[2] as int == |chunk| && p[3] == sequence
            && p[4..4 + |chunk|] == chunk && p[4 + |chunk|..] == more
  {
    LittleThree(|chunk|);
    PacketParts(chunk, sequence, more);
  }

  // The bytes written: the length of the packet in three bytes, the lowest first, the number of the packet, and at
  // most 2^24 - 1 bytes of payload; a full packet is followed by the packets of what is left.
  lemma {:induction false} PacketBytes(payload: Bytes, sequence: byte)
    ensures var p := Packets(payload, sequence);
            var n := if |payload| < 0xFF_FFFF then |payload| else 0xFF_FFFF;
            && |p| >= 4 + n && p[0] as int + 256 * p[1] as int + 0x1_0000 * p[2] as int == n && p[3] == sequence
            && p[4..4 + n] == payload[..n]
            && p[4 + n..] == if |payload| < 0xFF_FFFF then [] else Packets(payload[n..], (sequence + 1) % 256)
  {
    if |payload| < MAX_PACKET {
      HeaderBytes(payload, sequence, []);
      assert Packets(payload, sequence) == Packet(payload, sequence) + [];
    } else {
      HeaderBytes(payload[..MAX_PACKET], sequence, Packets(payload[MAX_PACKET..], NextSequence(sequence)));
    }
  }

  // Two payloads that are written alike are equal.
  lemma {:induction false} PacketsInjective(p1: Bytes, p2: Bytes, sequence: byte)
    requires Packets(p1, sequence) == Packets(p2, sequence)
    ensures p1 == p2
  {
    ReadWritten(p1, sequence, []);
    ReadWritten(p2, sequence, []);
    assert Packets(p1, sequence) + [] == Packets(p2, sequence) + [];
  }

  // One turn of the loop that writes: what the packet and the packets after it come to.
  lemma {:induction false} FullWritten(before: Bytes, rest: Bytes, number: byte)
    requires |rest| >= MAX_PACKET
    ensures before + Packets(rest, number)
            == before + Packet(rest[..MAX_PACKET], number) + Packets(rest[MAX_PACKET..], NextSequence(number))
  {
    Concat(before, Packet(rest[..MAX_PACKET], number), Packets(rest[MAX_PACKET..], NextSequence(number)));
  }

  lemma CountWritten(rest: Bytes, number: byte)
    ensures |rest| >= MAX_PACKET ==>
              (NextSequence(number) + PacketCount(rest[MAX_PACKET..])) % 256 == (number + PacketCount(rest)) % 256
    ensures |rest| < MAX_PACKET ==> PacketCount(rest) == 1
  {
    if |rest| >= MAX_PACKET {
      CountStep(rest);
      NextNumber(number, PacketCount(rest[MAX_PACKET..]));
    }
  }

  class Conn {
    var input: Bytes      // what the server sent and was not read yet
    var output: Bytes
    var sequence: byte

    constructor (input: Bytes, sequence: byte)
      ensures this.input == input && output == [] && this.sequence == sequence
    {
      this.input, output, this.sequence := input, [], sequence;
    }

    method Write(payload: Bytes)
      modifies this`output, this`sequence
      ensures output == old(output) + Packets(payload, old(sequence))
      ensures sequence == (old(sequence) + PacketCount(payload)) % 256
    {
      var rest := payload;
      var more := true;
      while more
        invariant more ==> output + Packets(rest, sequence) == old(output) + Packets(payload, old(sequence))
        invariant more ==> (sequence + PacketCount(rest)) % 256 == (old(sequence) + PacketCount(payload)) % 256
        invariant !more ==> output == old(output) + Packets(payload, old(sequence))
        invariant !more ==> sequence == (old(sequence) + PacketCount(payload)) % 256
        decreases more, |rest|
      {
        var chunk := rest;
        if |chunk| > MAX_PACKET { chunk := chunk[..MAX_PACKET]; }
        ghost var before, number := output, sequence;
        var header := [|chunk| % 256, |chunk| / 256 % 256, |chunk| / 0x1_0000 % 256, sequence];
        HeaderIs(|chunk|, sequence);
        sequence := NextSequence(sequence);
        output := output + header;
        output := output + chunk;
        assert output == before + Packet(chunk, number);
        CountWritten(rest, number);
        if |chunk| == MAX_PACKET {
          assert chunk == rest[..MAX_PACKET] && rest[|chunk|..] == rest[MAX_PACKET..];
          FullWritten(before, rest, number);
        }
        rest := rest[|chunk|..];
        if |chunk| < MAX_PACKET { more := false; }
      }
    }

    // Up to the end of a payload; None if the stream ends before.
    method Read() returns (r: Option<Bytes>)
      modifies this`input, this`sequence
      ensures var p := ReadPackets(old(input));
              if p.Some? then r == Some(p.value.0) && input == p.value.1 && sequence == NextSequence(p.value.2) else r.None?
    {
      var payload: Bytes := [];
      ghost var all := ReadPackets(input);
      if all.Some? { assert payload + all.value.0 == all.value.0; }
      while true
        invariant var p, q := ReadPackets(old(input)), ReadPackets(input);
                  if q.Some? then p == Some((payload + q.value.0, q.value.1, q.value.2)) else p.None?
        decreases |input|
      {
        if |input| < 4 { return None; }
        var header := input[..4];
        var size := header[0] as int + header[1] as int * 256 + header[2] as int * 0x1_0000;
        SizeIs(input[..3], header);
        sequence := NextSequence(header[3]);
        if |input| < 4 + size { return None; }
        ghost var before, sofar := ReadPackets(input[4 + size..]), payload;
        var chunk := input[4..4 + size];
        payload := payload + chunk;
        if before.Some? { assert sofar + (chunk + before.value.0) == payload + before.value.0; }
        input := input[4 + size..];
        if size < MAX_PACKET {
          return Some(payload);
        }
      }
      r := None;
    }
  }

  lemma {:induction false} HeaderIs(n: nat, sequence: byte)
    ensures Little(n, 3) + [sequence] == [n % 256, n / 256 % 256, n / 0x1_0000 % 256, sequence]
  {
    var m := n / 256 / 256;
    assert m == n / 0x1_0000;
    assert Little(m / 256, 0) == [] && Little(m, 1) == [m % 256] + [];
    assert Little(n / 256, 2) == [n / 256 % 256] + Little(m, 1);
    assert Little(n, 3) == [n % 256] + Little(n / 256, 2);
  }

  lemma {:induction false} SizeIs(low: Bytes, header: Bytes)
    requires |low| == 3 && |header| == 4 && header[..3] == low
    ensures FromLittle(low) == header[0] as int + header[1] as int * 256 + header[2] as int * 0x1_0000
  {
    assert low == [header[0], header[1], header[2]] && low[1..] == [header[1], header[2]];
    assert [header[1], header[2]][1..] == [header[2]] && [header[2]][1..] == [];
    assert FromLittle([header[2]]) == header[2] as int;
    assert FromLittle([header[1], header[2]]) == header[1] as int + 256 * header[2] as int;
  }

  // ----- Length-encoded integers and strings -----

  function AppendLenenc(dst: Bytes, n: nat): Bytes {
    if n < 251 then dst + [n]
    else if n < 0x1_0000 then dst + [0xFC] + Little(n, 2)
    else if n < 0x100_0000 then dst + [0xFD] + Little(n, 3)
    else dst + [0xFE] + Little(n, 8)
  }

  // The number and what follows it; nothing follows a number that is cut off.
  function ReadLenenc(b: Bytes): (nat, Option<Bytes>) {
    if b == [] then (0, Some(b))
    else if b[0] == 0xFC then if |b| < 3 then (0, None) else (FromLittle(b[1..3]), Some(b[3..]))
    else if b[0] == 0xFD then if |b| < 4 then (0, None) else (FromLittle(b[1..4]), Some(b[4..]))
    else if b[0] == 0xFE then if |b| < 9 then (0, None) else (FromLittle(b[1..9]), Some(b[9..]))
    else (b[0], Some(b[1..]))
  }

  // 0xFB is NULL.
  function ReadLenencString(b: Bytes): Option<(Bytes, Bytes)> {
    if b != [] && b[0] == 0xFB then Some(([], b[1..])) else
    var (n, rest) := ReadLenenc(b);
    if rest.None? || |rest.value| < n then None else Some((rest.value[..n], rest.value[n..]))
  }

  lemma LenencBack(n: nat, rest: Bytes)
    requires n < Power256(8)
    ensures ReadLenenc(AppendLenenc([], n) + rest) == (n, Some(rest))
    ensures AppendLenenc([], n)[0] != 0xFB && AppendLenenc([], n)[0] != 0xFF
  {
    var b := AppendLenenc([], n) + rest;
    assert Power256(2) == 0x1_0000 && Power256(3) == 0x100_0000 by { assert Power256(1) == 256; }
    if n < 251 {
      assert b[1..] == rest;
    } else {
      var k := if n < 0x1_0000 then 2 else if n < 0x100_0000 then 3 else 8;
      LittleBack(n, k);
      assert b[1..1 + k] == Little(n, k) && b[1 + k..] == rest;
    }
  }

  // The bytes of a length-encoded integer: one byte below 251, and otherwise a mark and two, three or eight bytes, the
  // lowest first.
  lemma {:induction false} LenencBytes(n: nat)
    requires n < Power256(8)
    ensures var b := AppendLenenc([], n);
            if n < 251 then b == [n]
            else if n < 0x1_0000 then b == [0xFC, n % 256, n / 256]
            else if n < 0x100_0000 then b == [0xFD, n % 256, n / 256 % 256, n / 0x1_0000]
            else |b| == 9 && b[0] == 0xFE && Eight(b[1..]) == n
  {
    if n < 0x1_0000 { LittleTwo(n); } else if n < 0x100_0000 { LittleThree(n); } else { LittleEight(n); }
    assert AppendLenenc([], n)[1..] == if n < 251 then [] else Little(n, if n < 0x1_0000 then 2 else if n < 0x100_0000 then 3 else 8);
  }

  function LenencString(s: Bytes): Bytes { AppendLenenc([], |s|) + s }

  lemma LenencStringBack(s: Bytes, rest: Bytes)
    requires |s| < Power256(8)
    ensures ReadLenencString(LenencString(s) + rest) == Some((s, rest))
  {
    var b := LenencString(s) + rest;
    LenencBack(|s|, s + rest);
    assert b == AppendLenenc([], |s|) + (s + rest);
    assert (s + rest)[..|s|] == s && (s + rest)[|s|..] == rest;
  }
}
