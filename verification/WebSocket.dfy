/**
Reassembly of messages from the frames of a client: section 5.4 of RFC 6455, with control frames in
between (section 5.5). Validity of UTF-8 is a parameter.
*/
module WebSocket {
  import opened Wrappers
  import opened Bytes
  import opened WebSocketFrames

  const PROTOCOL_ERROR := 1002
  const INVALID_PAYLOAD := 1007
  const POLICY_VIOLATION := 1008
  const TOO_BIG := 1009

  // The message and what follows its last frame, or the end of the connection with the code sent, if
  // any; and the frames sent in answer to pings.
  datatype Outcome = Message(text: Bytes, rest: Bytes, sent: seq<Bytes>) | Ended(code: Option<nat>, sent: seq<Bytes>)

  // What a connection depends on besides its stream: whether the next message is within the rate limit
  // and how many frames the send queue takes.
  datatype Env = Env(allowed: bool, room: nat)

  function Answered(frame: Bytes, o: Outcome): Outcome { o.(sent := [frame] + o.sent) }

  function CloseCode(payload: Bytes): nat { if |payload| < 2 then 1000 else FromBig(payload[..2]) }

  // A whole message; only text is handed over, and binary messages are skipped.
  function Deliver(text: Bytes, rest: Bytes, env: Env, valid: Bytes -> bool): Outcome {
    if !env.allowed then Ended(Some(POLICY_VIOLATION), [])
    else if !valid(text) then Ended(Some(INVALID_PAYLOAD), [])
    else Message(text, rest, [])
  }

  // op is the opcode of the message being put together, 0 if there is none.
  function Next(s: Bytes, message: Bytes, op: Opcode, env: Env, valid: Bytes -> bool): Outcome
    decreases |s|, 0
  {
    match ReadFrame(s)
    case Lost => Ended(None, [])
    case Violation => Ended(Some(PROTOCOL_ERROR), [])
    case TooBig => Ended(Some(TOO_BIG), [])
    case Got(f, rest) => Handle(f, rest, message, op, env, valid)
  }

  function Handle(f: Frame, rest: Bytes, message: Bytes, op: Opcode, env: Env, valid: Bytes -> bool): Outcome
    decreases |rest|, 1
  {
    if f.opcode == PING then
      if env.room == 0 then Ended(None, [])
      else Answered(MakeFrame(PONG, f.payload), Next(rest, message, op, env.(room := env.room - 1), valid))
    else if f.opcode == PONG then Next(rest, message, op, env, valid)
    else if f.opcode == CLOSE then Ended(Some(CloseCode(f.payload)), [])
    else if f.opcode == TEXT || f.opcode == BINARY then
      if op != 0 then Ended(Some(PROTOCOL_ERROR), [])
      else if !f.final then Next(rest, message + f.payload, f.opcode, env, valid)
      else if f.opcode == BINARY then Next(rest, message, op, env, valid)
      else Deliver(f.payload, rest, env, valid)
    else if f.opcode == CONTINUATION then
      if op == 0 then Ended(Some(PROTOCOL_ERROR), [])
      else if |message| + |f.payload| > MAX_MESSAGE then Ended(Some(TOO_BIG), [])
      else if !f.final then Next(rest, message + f.payload, op, env, valid)
      else if op != TEXT then Next(rest, [], 0, env, valid)
      else Deliver(message + f.payload, rest, env, valid)
    else Ended(Some(PROTOCOL_ERROR), [])
  }

  // ----- Any split, with any pings and pongs in between -----

  datatype Piece = Data(payload: Bytes, key: Bytes) | Ping(payload: Bytes, key: Bytes) | Pong(payload: Bytes, key: Bytes)

  // The message ends with the last piece; control payloads are short.
  predicate Splits(ps: seq<Piece>) {
    && ps != [] && ps[|ps| - 1].Data?
    && forall i :: 0 <= i < |ps| ==> IsKey(ps[i].key) && (!ps[i].Data? ==> |ps[i].payload| <= 125)
  }

  function Joined(ps: seq<Piece>): Bytes {
    if ps == [] then [] else (if ps[0].Data? then ps[0].payload else []) + Joined(ps[1..])
  }

  function Pings(ps: seq<Piece>): nat { if ps == [] then 0 else (if ps[0].Ping? then 1 else 0) + Pings(ps[1..]) }

  // The answers: a pong with the payload of each ping, in order.
  function Pongs(ps: seq<Piece>): seq<Bytes> {
    if ps == [] then [] else (if ps[0].Ping? then [MakeFrame(PONG, ps[0].payload)] else []) + Pongs(ps[1..])
  }

  // The frame of the first piece: the first data frame has the opcode of the message, the last is final.
  function FrameOf(ps: seq<Piece>, started: bool): Frame
    requires ps != []
  {
    if ps[0].Ping? then Frame(true, PING, ps[0].payload)
    else if ps[0].Pong? then Frame(true, PONG, ps[0].payload)
    else Frame(|ps| == 1, if started then CONTINUATION else TEXT, ps[0].payload)
  }

  function Stream(ps: seq<Piece>, started: bool): Bytes
    requires forall i :: 0 <= i < |ps| ==> IsKey(ps[i].key)
  {
    if ps == [] then []
    else ClientFrame(FrameOf(ps, started), ps[0].key) + Stream(ps[1..], started || ps[0].Data?)
  }

  lemma {:induction false} StreamStep(ps: seq<Piece>, started: bool, rest: Bytes, m: Bytes, op: Opcode, env: Env, valid: Bytes -> bool)
    requires Splits(ps) && |ps[0].payload| <= MAX_MESSAGE
    ensures var more := Stream(ps[1..], started || ps[0].Data?) + rest;
            Next(Stream(ps, started) + rest, m, op, env, valid) == Handle(FrameOf(ps, started), more, m, op, env, valid)
  {
    var more := Stream(ps[1..], started || ps[0].Data?) + rest;
    ReadSent(FrameOf(ps, started), ps[0].key, more);
    Concat(ClientFrame(FrameOf(ps, started), ps[0].key), Stream(ps[1..], started || ps[0].Data?), rest);
  }

  lemma {:induction false} Reassembled(ps: seq<Piece>, m: Bytes, started: bool, rest: Bytes, env: Env, valid: Bytes -> bool)
    requires Splits(ps) && |m| + |Joined(ps)| <= MAX_MESSAGE && (!started ==> m == [])
    requires env.allowed && Pings(ps) <= env.room && valid(m + Joined(ps))
    ensures Next(Stream(ps, started) + rest, m, if started then TEXT else 0, env, valid)
            == Message(m + Joined(ps), rest, Pongs(ps))
    decreases |ps|
  {
    var op := if started then TEXT else 0;
    StreamStep(ps, started, rest, m, op, env, valid);
    if |ps| == 1 {
      LastPiece(ps, m, started, rest, env, valid);
    } else {
      TailParts(ps, m);
      var tail, more := ps[1..], Stream(ps[1..], started || ps[0].Data?) + rest;
      if ps[0].Data? {
        Reassembled(tail, m + ps[0].payload, true, rest, env, valid);
        DataPiece(ps, m, started, more, env, valid);
      } else {
        Reassembled(tail, m, started, rest, if ps[0].Ping? then env.(room := env.room - 1) else env, valid);
        ControlPiece(ps, m, started, more, env, valid);
      }
    }
  }

  lemma {:induction false} DataPiece(ps: seq<Piece>, m: Bytes, started: bool, more: Bytes, env: Env, valid: Bytes -> bool)
    requires |ps| > 1 && ps[0].Data? && |m| + |ps[0].payload| <= MAX_MESSAGE
    ensures Handle(FrameOf(ps, started), more, m, if started then TEXT else 0, env, valid)
            == Next(more, m + ps[0].payload, TEXT, env, valid)
  {}

  lemma ControlPiece(ps: seq<Piece>, m: Bytes, started: bool, more: Bytes, env: Env, valid: Bytes -> bool)
    requires ps != [] && !ps[0].Data? && (ps[0].Ping? ==> env.room > 0)
    ensures Handle(FrameOf(ps, started), more, m, if started then TEXT else 0, env, valid)
            == if ps[0].Pong? then Next(more, m, if started then TEXT else 0, env, valid)
               else Answered(MakeFrame(PONG, ps[0].payload), Next(more, m, if started then TEXT else 0, env.(room := env.room - 1), valid))
  {}

  lemma {:induction false} LastPiece(ps: seq<Piece>, m: Bytes, started: bool, rest: Bytes, env: Env, valid: Bytes -> bool)
    requires Splits(ps) && |ps| == 1 && |m| + |Joined(ps)| <= MAX_MESSAGE && (!started ==> m == [])
    requires env.allowed && valid(m + Joined(ps))
    ensures Handle(FrameOf(ps, started), Stream(ps[1..], true) + rest, m, if started then TEXT else 0, env, valid)
            == Message(m + Joined(ps), rest, Pongs(ps))
  {
    var p := ps[0].payload;
    assert ps[1..] == [] && [] + rest == rest;
    assert Joined(ps) == p + [] == p && Pongs(ps) == [] + [];
    assert m == [] ==> m + p == p;
  }

  // What the rest of the pieces make, given what all of them make.
  lemma {:induction false} TailParts(ps: seq<Piece>, m: Bytes)
    requires Splits(ps) && |ps| > 1
    ensures Splits(ps[1..]) && Pings(ps[1..]) == Pings(ps) - (if ps[0].Ping? then 1 else 0)
    ensures if ps[0].Data? then m + ps[0].payload + Joined(ps[1..]) == m + Joined(ps) else Joined(ps[1..]) == Joined(ps)
    ensures Pongs(ps) == if ps[0].Ping? then [MakeFrame(PONG, ps[0].payload)] + Pongs(ps[1..]) else Pongs(ps[1..])
  {
    Concat(m, ps[0].payload, Joined(ps[1..]));
    assert [] + Joined(ps[1..]) == Joined(ps[1..]) && [] + Pongs(ps[1..]) == Pongs(ps[1..]);
  }

  // A valid text message of at most 2^20 bytes, split into any masked fragments with any pings and
  // pongs in between, comes out as it was; the pings are answered in order with their payloads, and no
  // byte after the last fragment is read.
  lemma {:induction false} MessageArrives(ps: seq<Piece>, rest: Bytes, env: Env, valid: Bytes -> bool)
    requires Splits(ps) && |Joined(ps)| <= MAX_MESSAGE && valid(Joined(ps))
    requires env.allowed && Pings(ps) <= env.room
    ensures Next(Stream(ps, false) + rest, [], 0, env, valid) == Message(Joined(ps), rest, Pongs(ps))
  {
    assert [] + Joined(ps) == Joined(ps);
    Reassembled(ps, [], false, rest, env, valid);
  }

  // The end of the stream from there on.
  predicate Suffix(rest: Bytes, s: Bytes) { |rest| < |s| && rest == s[|s| - |rest|..] }

  predicate Proper(o: Outcome, s: Bytes, env: Env, valid: Bytes -> bool) {
    && |o.sent| <= env.room
    && (o.Message? ==> valid(o.text) && |o.text| <= MAX_MESSAGE && env.allowed && Suffix(o.rest, s))
  }

  // Whatever the client sends, what is handed over is valid, within the limits, and what is left is
  // the end of the stream; and no more frames are sent than the queue takes.
  lemma {:induction false} HandedOverValid(s: Bytes, m: Bytes, op: Opcode, env: Env, valid: Bytes -> bool)
    requires |m| <= MAX_MESSAGE && (op == 0 ==> m == [])
    ensures Proper(Next(s, m, op, env, valid), s, env, valid)
    decreases |s|, 0
  {
    var r := ReadFrame(s);
    if r.Got? {
      FrameIsPrefix(s);
      HandledValid(s, r.frame, r.rest, m, op, env, valid);
    }
  }

  lemma {:induction false} HandledValid(s: Bytes, f: Frame, rest: Bytes, m: Bytes, op: Opcode, env: Env, valid: Bytes -> bool)
    requires |m| <= MAX_MESSAGE && (op == 0 ==> m == []) && |f.payload| <= MAX_MESSAGE && Suffix(rest, s)
    ensures Proper(Handle(f, rest, m, op, env, valid), s, env, valid)
    decreases |rest|, 1
  {
    if f.opcode == PING {
      if env.room > 0 { HandedOverValid(rest, m, op, env.(room := env.room - 1), valid); }
    } else if f.opcode == PONG || (f.opcode == BINARY && f.final) {
      HandedOverValid(rest, m, op, env, valid);
    } else if (f.opcode == TEXT || f.opcode == BINARY) && op == 0 && !f.final {
      HandedOverValid(rest, m + f.payload, f.opcode, env, valid);
    } else if f.opcode == CONTINUATION && op != 0 && |m| + |f.payload| <= MAX_MESSAGE {
      if !f.final { HandedOverValid(rest, m + f.payload, op, env, valid); }
      else { HandedOverValid(rest, [], 0, env, valid); }
    }
  }

  lemma FrameIsPrefix(s: Bytes)
    requires ReadFrame(s).Got?
    ensures |ReadFrame(s).rest| < |s| && ReadFrame(s).rest == s[|s| - |ReadFrame(s).rest|..] && |ReadFrame(s).frame.payload| <= MAX_MESSAGE
  {}
}
