/**
What ends a connection, and with which code: the first frame that breaks a rule, after any pieces of a message
and any pings and pongs. And binary messages, which are skipped.
*/
module WebSocketCodes {
  import opened Wrappers
  import opened Bytes
  import opened WebSocketFrames
  import opened WebSocket

  // ----- One frame, as its bytes say -----

  // A frame with any first byte, masked or not.
  function RawFrame(first: byte, masked: bool, payload: Bytes, key: Bytes): Bytes
    requires IsKey(key)
  {
    [first] + Length(|payload|, if masked then 0x80 else 0) + (if masked then key + Mask(payload, key) else payload)
  }

  // What the reader makes of a first byte, a length and what follows them.
  lemma {:induction false} HeadRead(s: Bytes, first: byte, masked: bool, size: nat, after: Bytes)
    requires size < Power256(8) && s == [first] + (Length(size, if masked then 0x80 else 0) + after)
    ensures ReadFrame(s) ==
            if first / 16 % 8 != 0 || (first % 16 >= 8 && (size > 125 || first < 128)) then Violation
            else if size > 0x10_0000 then TooBig
            else if !masked then Violation
            else if |after| < 4 + size then Lost
            else Got(Frame(first >= 128, first % 16, Mask(after[4..4 + size], after[..4])), after[4 + size..])
  {
    var tail := Length(size, if masked then 0x80 else 0) + after;
    LengthBack(size, if masked then 0x80 else 0, after);
    assert s[1..] == tail && s[0] == first && s[1] == tail[0];
  }

  // A reserved bit, a control frame that is long or not whole, or a frame that is not masked is a violation;
  // a long frame is too big; any other frame is read as it is.
  lemma {:induction false} RawRead(first: byte, masked: bool, payload: Bytes, key: Bytes, rest: Bytes)
    requires IsKey(key) && |payload| < Power256(8)
    ensures ReadFrame(RawFrame(first, masked, payload, key) + rest) ==
            if first / 16 % 8 != 0 || (first % 16 >= 8 && (|payload| > 125 || first < 128)) then Violation
            else if |payload| > 0x10_0000 then TooBig
            else if !masked then Violation
            else Got(Frame(first >= 128, first % 16, payload), rest)
  {
    var length := Length(|payload|, if masked then 0x80 else 0);
    var body := if masked then key + Mask(payload, key) else payload;
    assert [first] + length + body + rest == [first] + (length + (body + rest));
    HeadRead(RawFrame(first, masked, payload, key) + rest, first, masked, |payload|, body + rest);
    if masked && |payload| <= MAX_MESSAGE { BodyBack(payload, key, rest); }
  }

  // ----- Pieces of a message that goes on -----

  predicate Pieces(ps: seq<Piece>) {
    forall i :: 0 <= i < |ps| ==> IsKey(ps[i].key) && (!ps[i].Data? ==> |ps[i].payload| <= 125)
  }

  predicate HasData(ps: seq<Piece>) { ps != [] && (ps[0].Data? || HasData(ps[1..])) }

  function OpenFrame(p: Piece, kind: Opcode, started: bool): Frame {
    match p
    case Data(payload, _) => Frame(false, if started then CONTINUATION else kind, payload)
    case Ping(payload, _) => Frame(true, PING, payload)
    case Pong(payload, _) => Frame(true, PONG, payload)
  }

  function OpenStream(ps: seq<Piece>, kind: Opcode, started: bool): Bytes
    requires Pieces(ps)
  {
    if ps == [] then [] else ClientFrame(OpenFrame(ps[0], kind, started), ps[0].key) + OpenStream(ps[1..], kind, started || ps[0].Data?)
  }

  function AnsweredAll(frames: seq<Bytes>, o: Outcome): Outcome { o.(sent := frames + o.sent) }

  predicate IsMessage(kind: Opcode) { kind == TEXT || kind == BINARY }

  lemma {:induction false} PieceRead(ps: seq<Piece>, kind: Opcode, started: bool, rest: Bytes)
    requires ps != [] && Pieces(ps) && IsMessage(kind) && |ps[0].payload| <= MAX_MESSAGE
    ensures ReadFrame(OpenStream(ps, kind, started) + rest) ==
            Got(OpenFrame(ps[0], kind, started), OpenStream(ps[1..], kind, started || ps[0].Data?) + rest)
  {
    var more := OpenStream(ps[1..], kind, started || ps[0].Data?);
    Concat(ClientFrame(OpenFrame(ps[0], kind, started), ps[0].key), more, rest);
    ReadSent(OpenFrame(ps[0], kind, started), ps[0].key, more + rest);
  }

  function Op(started: bool, kind: Opcode): Opcode { if started then kind else 0 }

  // What one piece does.
  lemma {:induction false} DataTaken(p: Piece, kind: Opcode, started: bool, m: Bytes, more: Bytes, env: Env, valid: Bytes -> bool)
    requires IsMessage(kind) && p.Data? && |m| + |p.payload| <= MAX_MESSAGE
    ensures Handle(OpenFrame(p, kind, started), more, m, Op(started, kind), env, valid) == Next(more, m + p.payload, kind, env, valid)
  {}

  lemma {:induction false} PongTaken(p: Piece, kind: Opcode, started: bool, m: Bytes, more: Bytes, op: Opcode, env: Env, valid: Bytes -> bool)
    requires p.Pong?
    ensures Handle(OpenFrame(p, kind, started), more, m, op, env, valid) == Next(more, m, op, env, valid)
  {}

  lemma {:induction false} PingTaken(p: Piece, kind: Opcode, started: bool, m: Bytes, more: Bytes, op: Opcode, env: Env, valid: Bytes -> bool, o: Outcome)
    requires p.Ping? && env.room > 0 && Next(more, m, op, Env(env.allowed, env.room - 1), valid) == o
    ensures Handle(OpenFrame(p, kind, started), more, m, op, env, valid) == Answered(MakeFrame(PONG, p.payload), o)
  {}

  lemma {:induction false} NextHandles(s: Bytes, f: Frame, more: Bytes, m: Bytes, op: Opcode, env: Env, valid: Bytes -> bool)
    requires ReadFrame(s) == Got(f, more)
    ensures Next(s, m, op, env, valid) == Handle(f, more, m, op, env, valid)
  {}

  // The first piece and the others.
  lemma {:induction false} PieceParts(ps: seq<Piece>, m: Bytes)
    requires ps != []
    ensures Pings(ps) == Pings(ps[1..]) + (if ps[0].Ping? then 1 else 0)
    ensures m + Joined(ps) == if ps[0].Data? then m + ps[0].payload + Joined(ps[1..]) else m + Joined(ps[1..])
    ensures |Joined(ps)| == |Joined(ps[1..])| + (if ps[0].Data? then |ps[0].payload| else 0)
    ensures Pongs(ps) == if ps[0].Ping? then [MakeFrame(PONG, ps[0].payload)] + Pongs(ps[1..]) else Pongs(ps[1..])
  {
    Concat(m, ps[0].payload, Joined(ps[1..]));
    assert [] + Joined(ps[1..]) == Joined(ps[1..]) && [] + Pongs(ps[1..]) == Pongs(ps[1..]);
  }

  lemma AnsweredMore(frame: Bytes, frames: seq<Bytes>, o: Outcome)
    ensures Answered(frame, AnsweredAll(frames, o)) == AnsweredAll([frame] + frames, o)
  {
    Concat([frame], frames, o.sent);
  }

  // The connection behind the pieces: the message so far, its opcode, and the room left in the queue.
  datatype Held = Held(message: Bytes, op: Opcode, env: Env)

  function Behind(ps: seq<Piece>, kind: Opcode, started: bool, m: Bytes, env: Env): Held
    requires Pings(ps) <= env.room
  {
    Held(m + Joined(ps), Op(started || HasData(ps), kind), Env(env.allowed, env.room - Pings(ps)))
  }

  function NextHeld(rest: Bytes, h: Held, valid: Bytes -> bool): Outcome { Next(rest, h.message, h.op, h.env, valid) }

  lemma {:induction false} BehindMore(ps: seq<Piece>, kind: Opcode, started: bool, m: Bytes, env: Env)
    requires ps != [] && Pings(ps) <= env.room
    ensures Behind(ps, kind, started, m, env) ==
            match ps[0]
            case Data(payload, _) => Behind(ps[1..], kind, true, m + payload, env)
            case Pong(_, _) => Behind(ps[1..], kind, started, m, env)
            case Ping(_, _) => Behind(ps[1..], kind, started, m, Env(env.allowed, env.room - 1))
  {
    PieceParts(ps, m);
  }

  // Behind the pieces the connection waits for the rest of the message, and the pings are answered.
  lemma {:induction false} MidMessage(ps: seq<Piece>, kind: Opcode, started: bool, m: Bytes, rest: Bytes, env: Env, valid: Bytes -> bool, o: Outcome)
    requires Pieces(ps) && IsMessage(kind) && |m| + |Joined(ps)| <= MAX_MESSAGE && Pings(ps) <= env.room
    requires o == NextHeld(rest, Behind(ps, kind, started, m, env), valid)
    ensures Next(OpenStream(ps, kind, started) + rest, m, Op(started, kind), env, valid) == AnsweredAll(Pongs(ps), o)
    decreases |ps|, 1
  {
    if ps == [] {
      assert OpenStream(ps, kind, started) + rest == rest && m + [] == m && [] + o.sent == o.sent;
    } else {
      PieceParts(ps, m);
      PieceRead(ps, kind, started, rest);
      NextHandles(OpenStream(ps, kind, started) + rest, OpenFrame(ps[0], kind, started),
                  OpenStream(ps[1..], kind, started || ps[0].Data?) + rest, m, Op(started, kind), env, valid);
      MidPiece(ps, kind, started, m, rest, env, valid, o);
    }
  }

  lemma {:induction false} MidPiece(ps: seq<Piece>, kind: Opcode, started: bool, m: Bytes, rest: Bytes, env: Env, valid: Bytes -> bool, o: Outcome)
    requires ps != [] && Pieces(ps) && IsMessage(kind) && |m| + |Joined(ps)| <= MAX_MESSAGE && Pings(ps) <= env.room
    requires o == NextHeld(rest, Behind(ps, kind, started, m, env), valid)
    ensures Handle(OpenFrame(ps[0], kind, started), OpenStream(ps[1..], kind, started || ps[0].Data?) + rest, m, Op(started, kind), env, valid)
            == AnsweredAll(Pongs(ps), o)
    decreases |ps|, 0
  {
    var (p, tail) := (ps[0], ps[1..]);
    PieceParts(ps, m);
    BehindMore(ps, kind, started, m, env);
    if p.Data? {
      MidMessage(tail, kind, true, m + p.payload, rest, env, valid, o);
      DataTaken(p, kind, started, m, OpenStream(tail, kind, true) + rest, env, valid);
    } else if p.Pong? {
      MidMessage(tail, kind, started, m, rest, env, valid, o);
      PongTaken(p, kind, started, m, OpenStream(tail, kind, started) + rest, Op(started, kind), env, valid);
    } else {
      MidMessage(tail, kind, started, m, rest, Env(env.allowed, env.room - 1), valid, o);
      PingTaken(p, kind, started, m, OpenStream(tail, kind, started) + rest, Op(started, kind), env, valid, AnsweredAll(Pongs(tail), o));
      AnsweredMore(MakeFrame(PONG, p.payload), Pongs(tail), o);
    }
  }

  // ----- The next frame decides -----

  // The pieces, and then one frame.
  function Then(ps: seq<Piece>, kind: Opcode, f: Frame, key: Bytes, rest: Bytes): Bytes
    requires Pieces(ps) && IsKey(key)
  {
    OpenStream(ps, kind, false) + (ClientFrame(f, key) + rest)
  }

  predicate Received(ps: seq<Piece>, kind: Opcode, f: Frame, key: Bytes, env: Env) {
    Pieces(ps) && IsMessage(kind) && |Joined(ps)| <= MAX_MESSAGE && Pings(ps) <= env.room && IsKey(key) && Sendable(f)
  }

  lemma {:induction false} FrameNext(f: Frame, key: Bytes, rest: Bytes, m: Bytes, op: Opcode, env: Env, valid: Bytes -> bool)
    requires IsKey(key) && Sendable(f)
    ensures Next(ClientFrame(f, key) + rest, m, op, env, valid) == Handle(f, rest, m, op, env, valid)
  {
    ReadSent(f, key, rest);
    NextHandles(ClientFrame(f, key) + rest, f, rest, m, op, env, valid);
  }

  lemma {:induction false} FrameDecides(ps: seq<Piece>, kind: Opcode, f: Frame, key: Bytes, rest: Bytes, env: Env, valid: Bytes -> bool)
    requires Received(ps, kind, f, key, env)
    ensures Next(Then(ps, kind, f, key, rest), [], 0, env, valid) ==
            AnsweredAll(Pongs(ps), Handle(f, rest, Joined(ps), Op(HasData(ps), kind), Env(env.allowed, env.room - Pings(ps)), valid))
  {
    var (op, less) := (Op(HasData(ps), kind), Env(env.allowed, env.room - Pings(ps)));
    FrameNext(f, key, rest, Joined(ps), op, less, valid);
    MidFromStart(ps, kind, ClientFrame(f, key) + rest, env, valid, Handle(f, rest, Joined(ps), op, less, valid));
  }

  lemma {:induction false} MidFromStart(ps: seq<Piece>, kind: Opcode, s: Bytes, env: Env, valid: Bytes -> bool, o: Outcome)
    requires Pieces(ps) && IsMessage(kind) && |Joined(ps)| <= MAX_MESSAGE && Pings(ps) <= env.room
    requires o == Next(s, Joined(ps), Op(HasData(ps), kind), Env(env.allowed, env.room - Pings(ps)), valid)
    ensures Next(OpenStream(ps, kind, false) + s, [], 0, env, valid) == AnsweredAll(Pongs(ps), o)
  {
    FromStart(ps, kind, env);
    MidMessage(ps, kind, false, [], s, env, valid, o);
  }

  lemma {:induction false} FromStart(ps: seq<Piece>, kind: Opcode, env: Env)
    requires Pings(ps) <= env.room
    ensures Behind(ps, kind, false, [], env) == Held(Joined(ps), Op(HasData(ps), kind), Env(env.allowed, env.room - Pings(ps)))
  {
    assert [] + Joined(ps) == Joined(ps);
  }

  // The end of the connection, with the code of the rule broken, or the one the client closes with.
  lemma {:induction false} FrameEnds(ps: seq<Piece>, kind: Opcode, f: Frame, key: Bytes, rest: Bytes, env: Env, valid: Bytes -> bool)
    requires Received(ps, kind, f, key, env)
    ensures var o := Next(Then(ps, kind, f, key, rest), [], 0, env, valid);
            // A second message begins inside the first.
            && (HasData(ps) && (f.opcode == TEXT || f.opcode == BINARY) ==> o == Ended(Some(1002), Pongs(ps)))
            // A message goes on that never began.
            && (!HasData(ps) && f.opcode == CONTINUATION ==> o == Ended(Some(1002), Pongs(ps)))
            // The message is longer than 2^20 bytes.
            && (HasData(ps) && f.opcode == CONTINUATION && |Joined(ps)| + |f.payload| > 0x10_0000 ==> o == Ended(Some(1009), Pongs(ps)))
            // No such opcode.
            && (f.opcode !in {CONTINUATION, TEXT, BINARY, CLOSE, PING, PONG} ==> o == Ended(Some(1002), Pongs(ps)))
            // The client closes, with a code or without.
            && (f.opcode == CLOSE && |f.payload| < 2 ==> o == Ended(Some(1000), Pongs(ps)))
            && (f.opcode == CLOSE && |f.payload| >= 2 ==> o == Ended(Some(256 * (f.payload[0] as int) + f.payload[1] as int), Pongs(ps)))
            // The answer to a ping finds the send queue full.
            && (f.opcode == PING && env.room == Pings(ps) ==> o == Ended(None, Pongs(ps)))
  {
    var h := Handle(f, rest, Joined(ps), Op(HasData(ps), kind), Env(env.allowed, env.room - Pings(ps)), valid);
    FrameDecides(ps, kind, f, key, rest, env, valid);
    HandleEnds(f, rest, Joined(ps), Op(HasData(ps), kind), Env(env.allowed, env.room - Pings(ps)), valid);
    EndedLater(Pongs(ps), h);
  }

  lemma EndedLater(frames: seq<Bytes>, o: Outcome)
    ensures o.Ended? && o.sent == [] ==> AnsweredAll(frames, o) == Ended(o.code, frames)
  {
    assert frames + [] == frames;
  }

  lemma {:induction false} HandleEnds(f: Frame, rest: Bytes, m: Bytes, op: Opcode, env: Env, valid: Bytes -> bool)
    ensures var o := Handle(f, rest, m, op, env, valid);
            && (op != 0 && (f.opcode == TEXT || f.opcode == BINARY) ==> o == Ended(Some(1002), []))
            && (op == 0 && f.opcode == CONTINUATION ==> o == Ended(Some(1002), []))
            && (op != 0 && f.opcode == CONTINUATION && |m| + |f.payload| > 0x10_0000 ==> o == Ended(Some(1009), []))
            && (f.opcode !in {CONTINUATION, TEXT, BINARY, CLOSE, PING, PONG} ==> o == Ended(Some(1002), []))
            && (f.opcode == CLOSE && |f.payload| < 2 ==> o == Ended(Some(1000), []))
            && (f.opcode == CLOSE && |f.payload| >= 2 ==> o == Ended(Some(256 * (f.payload[0] as int) + f.payload[1] as int), []))
            && (f.opcode == PING && env.room == 0 ==> o == Ended(None, []))
  {
    if |f.payload| >= 2 { TwoBytes(f.payload); }
  }

  lemma TwoBytes(p: Bytes)
    requires |p| >= 2
    ensures FromBig(p[..2]) == 256 * (p[0] as int) + p[1] as int
  {
    assert p[..2][..1] == [p[0]] && [p[0]][..0] == [];
    assert FromBig([p[0]]) == p[0] as int;
  }

  // What the reader refuses ends the connection too; and so does the end of the stream, without a code.
  lemma {:induction false} StreamEnds(ps: seq<Piece>, kind: Opcode, s: Bytes, env: Env, valid: Bytes -> bool)
    requires Pieces(ps) && IsMessage(kind) && |Joined(ps)| <= MAX_MESSAGE && Pings(ps) <= env.room && !ReadFrame(s).Got?
    ensures Next(OpenStream(ps, kind, false) + s, [], 0, env, valid) ==
            Ended(match ReadFrame(s) case Violation => Some(1002) case TooBig => Some(1009) case Lost => None, Pongs(ps))
  {
    var h := Behind(ps, kind, false, [], env);
    MidMessage(ps, kind, false, [], s, env, valid, NextHeld(s, h, valid));
    assert Pongs(ps) + [] == Pongs(ps);
  }

  // The last frame of a message.
  predicate Completes(ps: seq<Piece>, kind: Opcode, f: Frame) {
    f.final && f.opcode == (if HasData(ps) then CONTINUATION else kind) && |Joined(ps)| + |f.payload| <= MAX_MESSAGE
  }

  // A whole text message is handed over, unless the rate limit is exceeded or it is not valid UTF-8.
  lemma {:induction false} TextHandedOver(ps: seq<Piece>, f: Frame, key: Bytes, rest: Bytes, env: Env, valid: Bytes -> bool)
    requires Received(ps, TEXT, f, key, env) && Completes(ps, TEXT, f)
    ensures var text := Joined(ps) + f.payload;
            Next(Then(ps, TEXT, f, key, rest), [], 0, env, valid) ==
            if !env.allowed then Ended(Some(1008), Pongs(ps))
            else if !valid(text) then Ended(Some(1007), Pongs(ps))
            else Message(text, rest, Pongs(ps))
  {
    FrameDecides(ps, TEXT, f, key, rest, env, valid);
    assert Pongs(ps) + [] == Pongs(ps);
    if !HasData(ps) {
      NoDataJoined(ps);
      assert [] + f.payload == f.payload;
    }
  }

  // A whole binary message is skipped, and counts towards no rate limit: what follows is the next message.
  lemma {:induction false} BinarySkipped(ps: seq<Piece>, f: Frame, key: Bytes, rest: Bytes, env: Env, valid: Bytes -> bool)
    requires Received(ps, BINARY, f, key, env) && Completes(ps, BINARY, f)
    ensures Next(Then(ps, BINARY, f, key, rest), [], 0, env, valid) ==
            AnsweredAll(Pongs(ps), Next(rest, [], 0, Env(env.allowed, env.room - Pings(ps)), valid))
  {
    var less := Env(env.allowed, env.room - Pings(ps));
    FrameDecides(ps, BINARY, f, key, rest, env, valid);
    if !HasData(ps) { NoDataJoined(ps); }
    BinarySkips(f, rest, Joined(ps), Op(HasData(ps), BINARY), less, valid);
  }

  lemma {:induction false} BinarySkips(f: Frame, rest: Bytes, m: Bytes, op: Opcode, env: Env, valid: Bytes -> bool)
    requires f.final && |m| + |f.payload| <= MAX_MESSAGE
    requires (op == 0 && m == [] && f.opcode == BINARY) || (op == BINARY && f.opcode == CONTINUATION)
    ensures Handle(f, rest, m, op, env, valid) == Next(rest, [], 0, env, valid)
  {}

  lemma {:induction false} NoDataJoined(ps: seq<Piece>)
    requires !HasData(ps)
    ensures Joined(ps) == []
  {
    if ps != [] {
      NoDataJoined(ps[1..]);
      assert [] + Joined(ps[1..]) == [];
    }
  }
}
