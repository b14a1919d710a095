/** A WebSocket connection: reading frames from the stream, unmasking in place, and the loop of Next. */
module WebSocketConn {
  import opened Wrappers
  import opened Bytes
  import opened WebSocketFrames
  import opened WebSocket

  datatype Step = Continue(message: Bytes, op: Opcode) | Stop(text: Option<Bytes>)

  class Conn {
    var input: Bytes            // what the client sent and was not read yet
    var sent: seq<Bytes>        // frames put on the send queue
    var room: nat               // frames the send queue still takes
    var closed: bool
    var closeCode: Option<nat>  // of the close frame sent, if one was

    constructor (input: Bytes, room: nat)
      ensures this.input == input && sent == [] && this.room == room && !closed && closeCode.None?
    {
      this.input, sent, this.room, closed, closeCode := input, [], room, false, None;
    }

    method ReadFull(n: nat) returns (r: Option<Bytes>)
      modifies this`input
      ensures if n <= |old(input)| then r == Some(old(input)[..n]) && input == old(input)[n..] else r.None?
    {
      if |input| < n { return None; }
      r := Some(input[..n]);
      input := input[n..];
    }

    method ReadSize(first: byte) returns (size: Option<nat>)
      modifies this`input
      ensures var l := ReadLength([first] + old(input));
              if l.Some? then size == Some(l.value.0) && input == l.value.1 else size.None?
    {
      ghost var s := [first] + input;
      assert s[1..] == input;
      var n := first % 128;
      if n == 126 {
        assert |s| >= 3 ==> s[1..3] == input[..2] && s[3..] == input[2..];
        var extended := ReadFull(2);
        size := if extended.None? then None else Some(FromBig(extended.value));
      } else if n == 127 {
        assert |s| >= 9 ==> s[1..9] == input[..8] && s[9..] == input[8..];
        var extended := ReadFull(8);
        size := if extended.None? then None else Some(FromBig(extended.value));
      } else {
        size := Some(n);
      }
    }

    // A frame, with its payload unmasked where it was read to.
    method ReadNext() returns (r: Read)
      modifies this`input
      ensures var e := ReadFrame(old(input));
              if e.Got? then r.Got? && r.frame == e.frame && r.rest == e.rest == input else r == e
    {
      ghost var s := input;
      var header := ReadFull(2);
      if header.None? { return Lost; }
      var final := header.value[0] >= 128;
      if header.value[0] / 16 % 8 != 0 { return Violation; }
      var opcode := header.value[0] % 16;
      var masked := header.value[1] >= 128;
      assert s[1..] == [header.value[1]] + input;
      var size := ReadSize(header.value[1]);
      if size.None? { return Lost; }
      ghost var after := input;
      if IsControl(opcode) && (size.value > 125 || !final) { return Violation; }
      if size.value > MAX_MESSAGE { return TooBig; }
      if !masked { return Violation; }
      var key := ReadFull(4);
      if key.None? { return Lost; }
      var read := ReadFull(size.value);
      if read.None? { return Lost; }
      assert read.value == after[4..4 + size.value] && input == after[4 + size.value..];
      var payload := Unmask(read.value, key.value);
      r := Got(Frame(final, opcode, payload), input);
    }

    static method Unmask(read: Bytes, key: Bytes) returns (payload: Bytes)
      requires IsKey(key)
      ensures payload == Mask(read, key)
    {
      var buf := new byte[|read|](i requires 0 <= i < |read| => read[i]);
      var i := 0;
      while i < buf.Length
        invariant 0 <= i <= buf.Length
        invariant forall j :: 0 <= j < i ==> buf[j] == Xor(read[j], key[j % 4])
        invariant forall j :: i <= j < buf.Length ==> buf[j] == read[j]
      {
        buf[i] := Xor(buf[i], key[i % 4]);
        i := i + 1;
      }
      payload := buf[..];
    }

    // The header, and then one buffer that both parts are copied into.
    static method Made(op: Opcode, payload: Bytes) returns (frame: Bytes)
      ensures frame == MakeFrame(op, payload)
    {
      var header: Bytes := [0x80 + op];
      var size := |payload|;
      if size < 126 {
        header := header + [size];
      } else if size <= 0xFFFF {
        header := header + [126] + Big(size, 2);
      } else {
        header := header + [127] + Big(size, 8);
      }
      assert header == [0x80 + op] + Length(size, 0);
      var buf := new byte[|header| + |payload|](_ => 0);
      var i := 0;
      while i < |header|
        invariant 0 <= i <= |header| && forall j :: 0 <= j < i ==> buf[j] == header[j]
      {
        buf[i] := header[i];
        i := i + 1;
      }
      i := 0;
      while i < |payload|
        invariant 0 <= i <= |payload|
        invariant forall j :: 0 <= j < |header| ==> buf[j] == header[j]
        invariant forall j :: 0 <= j < i ==> buf[|header| + j] == payload[j]
      {
        buf[|header| + i] := payload[i];
        i := i + 1;
      }
      frame := buf[..];
      assert frame == header + payload;
    }

    method WriteFrame(op: Opcode, payload: Bytes) returns (ok: bool)
      modifies this`sent, this`room
      ensures ok == (old(room) > 0)
      ensures if ok then room == old(room) - 1 && sent == old(sent) + [MakeFrame(op, payload)] else room == old(room) && sent == old(sent)
    {
      if room == 0 { return false; }
      var frame := Made(op, payload);
      sent := sent + [frame];
      room := room - 1;
      ok := true;
    }

    method End(code: Option<nat>)
      modifies this`closed, this`closeCode
      ensures closed && closeCode == code
    {
      closed, closeCode := true, code;
    }

    // The state after a call, by the outcome that the stream has.
    twostate predicate Follows(new o: Outcome, new text: Option<Bytes>)
      reads this
    {
      && sent == old(sent) + o.sent
      && match o
         case Message(t, rest, _) => text == Some(t) && input == rest && closed == old(closed)
         case Ended(code, _) => text.None? && closed && closeCode == code
    }

    // What was promised of the stream so far is what is promised of the rest of it.
    twostate predicate GoesOn(new o: Outcome, new later: Outcome)
      reads this
    {
      sent + later.sent == old(sent) + o.sent && o == later.(sent := o.sent) && closed == old(closed)
    }

    method NextMessage(allowed: bool, valid: Bytes -> bool) returns (text: Option<Bytes>)
      modifies this
      ensures Follows(Next(old(input), [], 0, Env(allowed, old(room)), valid), text)
    {
      var message: Bytes := [];
      var fragmentOp: Opcode := 0;
      ghost var all := Next(input, [], 0, Env(allowed, room), valid);
      while true
        invariant GoesOn(all, Next(input, message, fragmentOp, Env(allowed, room), valid))
        decreases |input|
      {
        ghost var here := input;
        var r := ReadNext();
        assert sent + [] == sent;
        match r
        case Lost => End(None); return None;
        case Violation => End(Some(PROTOCOL_ERROR)); return None;
        case TooBig => End(Some(TOO_BIG)); return None;
        case Got(f, _) =>
          FrameIsPrefix(here);
          var step := OnFrame(f, message, fragmentOp, allowed, valid);
          match step
          case Continue(m, op) => message, fragmentOp := m, op;
          case Stop(t) => return t;
      }
      text := None;
    }

    // One frame: on with the message being put together, or a message, or the end.
    method OnFrame(f: Frame, message: Bytes, fragmentOp: Opcode, allowed: bool, valid: Bytes -> bool) returns (step: Step)
      modifies this`sent, this`room, this`closed, this`closeCode
      ensures var o := Handle(f, input, message, fragmentOp, Env(allowed, old(room)), valid);
              match step
              case Continue(m, op) => GoesOn(o, Next(input, m, op, Env(allowed, room), valid))
              case Stop(text) => Follows(o, text)
    {
      assert sent + [] == sent;
      if f.opcode == PING {
        ghost var later := Next(input, message, fragmentOp, Env(allowed, if room > 0 then room - 1 else 0), valid);
        var ok := WriteFrame(PONG, f.payload);
        if !ok { End(None); return Stop(None); }
        assert old(sent) + ([MakeFrame(PONG, f.payload)] + later.sent) == sent + later.sent;
        return Continue(message, fragmentOp);
      } else if f.opcode == PONG {
        return Continue(message, fragmentOp);
      } else if f.opcode == CLOSE {
        End(Some(CloseCode(f.payload)));
        return Stop(None);
      } else if f.opcode == TEXT || f.opcode == BINARY {
        if fragmentOp != 0 { End(Some(PROTOCOL_ERROR)); return Stop(None); }
        if !f.final { return Continue(message + f.payload, f.opcode); }
        if f.opcode == BINARY { return Continue(message, fragmentOp); }
        var text := HandOver(f.payload, allowed, valid);
        return Stop(text);
      } else if f.opcode == CONTINUATION {
        if fragmentOp == 0 { End(Some(PROTOCOL_ERROR)); return Stop(None); }
        if |message| + |f.payload| > MAX_MESSAGE { End(Some(TOO_BIG)); return Stop(None); }
        if !f.final { return Continue(message + f.payload, fragmentOp); }
        if fragmentOp != TEXT { return Continue([], 0); }
        var text := HandOver(message + f.payload, allowed, valid);
        return Stop(text);
      }
      End(Some(PROTOCOL_ERROR));
      step := Stop(None);
    }

    method HandOver(message: Bytes, allowed: bool, valid: Bytes -> bool) returns (text: Option<Bytes>)
      modifies this`closed, this`closeCode
      ensures match Deliver(message, input, Env(allowed, room), valid)
              case Message(t, _, _) => text == Some(t) && closed == old(closed)
              case Ended(code, _) => text.None? && closed && closeCode == code
    {
      if !allowed { End(Some(POLICY_VIOLATION)); return None; }
      if !valid(message) { End(Some(INVALID_PAYLOAD)); return None; }
      text := Some(message);
    }
  }
}
