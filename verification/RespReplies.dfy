/**
The replies of a server as the protocol writes them: simple strings, errors, integers, bulk strings, arrays, and
the two nulls. Each is read as what it means, at any depth; an error at any depth fails the whole reply.
*/
module RespReplies {
  import opened Wrappers
  import opened Int64
  import opened Bytes
  import opened Resp

  datatype Wire =
    | Simple(text: Bytes)          // +text
    | Error(text: Bytes)           // -text
    | Integer(n: int)              // :n
    | BulkString(bytes: Bytes)     // $length, and the bytes
    | NullBulk                     // $-1
    | Items(items: seq<Wire>)      // *count, and the items
    | NullArray                    // *-1

  function Signed(n: int): Bytes { if n < 0 then ['-' as int] + Decimal(-n) else Decimal(n) }

  function TextLine(marker: byte, text: Bytes): Bytes { [marker] + text + CRLF }

  function Encode(w: Wire): Bytes
    decreases w
  {
    match w
    case Simple(text) => TextLine('+' as int, text)
    case Error(text) => TextLine('-' as int, text)
    case Integer(n) => TextLine(':' as int, Signed(n))
    case BulkString(bytes) => TextLine('$' as int, Decimal(|bytes|)) + bytes + CRLF
    case NullBulk => TextLine('$' as int, Signed(-1))
    case Items(items) => TextLine('*' as int, Decimal(|items|)) + EncodeAll(items)
    case NullArray => TextLine('*' as int, Signed(-1))
  }

  function EncodeAll(ws: seq<Wire>): Bytes
    decreases ws
  {
    if ws == [] then [] else Encode(ws[0]) + EncodeAll(ws[1..])
  }

  predicate OneLine(text: Bytes) { forall i :: 0 <= i < |text| ==> text[i] != CR && text[i] != LF }

  predicate WellFormed(w: Wire)
    decreases w
  {
    match w
    case Simple(text) => OneLine(text)
    case Error(text) => OneLine(text)
    case Integer(n) => Fits(n)
    case BulkString(bytes) => |bytes| <= MAX
    case NullBulk => true
    case Items(items) => |items| <= MAX && WellFormedAll(items)
    case NullArray => true
  }

  predicate WellFormedAll(ws: seq<Wire>)
    decreases ws
  {
    ws == [] || (WellFormed(ws[0]) && WellFormedAll(ws[1..]))
  }

  // None is an error of the server.
  function Meaning(w: Wire): Option<Reply>
    decreases w
  {
    match w
    case Simple(text) => Some(Str(text))
    case Error(_) => None
    case Integer(n) => Some(Num(n))
    case BulkString(bytes) => Some(Str(bytes))
    case NullBulk => Some(Null)
    case Items(items) => var rs := MeaningAll(items); if rs.None? then None else Some(Arr(rs.value))
    case NullArray => Some(Null)
  }

  function MeaningAll(ws: seq<Wire>): Option<seq<Reply>>
    decreases ws
  {
    if ws == [] then Some([]) else
    var (r, rs) := (Meaning(ws[0]), MeaningAll(ws[1..]));
    if r.None? || rs.None? then None else Some([r.value] + rs.value)
  }

  lemma {:induction false} LineBack(marker: byte, text: Bytes, rest: Bytes)
    requires OneLine(text)
    ensures var s := TextLine(marker, text) + rest; s != [] && s[0] == marker && Line(s[1..]) == Some((text, rest))
  {
    var s, line := TextLine(marker, text) + rest, text + [CR];
    assert s[1..] == line + [LF] + rest;
    FindAfter(line, rest);
    assert (line + [LF] + rest)[..|line| + 1] == line + [LF];
    assert (line + [LF] + rest)[|line| + 1..] == rest;
    assert (line + [LF])[..|line|] == line && line[..|text|] == text;
    assert TrimRight(text) == text && TrimRight(line) == text && TrimRight(line + [LF]) == text;
  }

  lemma {:induction false} PositiveParses(n: nat)
    requires n <= MAX
    ensures OneLine(Decimal(n)) && ParseInt(Decimal(n)) == Some(n)
  {
    DecimalParses(n);
    var d := Decimal(n);
    forall i | 0 <= i < |d| ensures d[i] != CR && d[i] != LF { assert IsDigit(d[i]); }
  }

  lemma {:induction false} NegativeParses(n: int)
    requires n < 0 && Fits(n)
    ensures OneLine(Signed(n)) && ParseInt(Signed(n)) == Some(n)
  {
    var (d, s) := (Decimal(-n), Signed(n));
    DigitsDecimal(-n);
    assert s[1..] == d;
    forall i | 0 <= i < |s| ensures s[i] != CR && s[i] != LF { if i > 0 { assert s[i] == d[i - 1] && IsDigit(d[i - 1]); } }
  }

  lemma {:induction false} SignedParses(n: int)
    requires Fits(n)
    ensures OneLine(Signed(n)) && ParseInt(Signed(n)) == Some(n)
  {
    if n < 0 { NegativeParses(n); } else { PositiveParses(n); }
  }

  function Read(w: Wire, rest: Bytes): Option<(Reply, Bytes)> {
    if Meaning(w).None? then None else Some((Meaning(w).value, rest))
  }

  // Every reply is read as what it means, and nothing behind it is read.
  lemma {:induction false} ReplyRead(w: Wire, rest: Bytes)
    requires WellFormed(w)
    ensures ParseReply(Encode(w) + rest) == Read(w, rest)
    decreases w, 1
  {
    match w
    case Simple(text) => LineBack('+' as int, text, rest);
    case Error(text) => LineBack('-' as int, text, rest);
    case Integer(n) => SignedParses(n); LineBack(':' as int, Signed(n), rest);
    case BulkString(_) => BulkRead(w, rest);
    case NullBulk => SignedParses(-1); LineBack('$' as int, Signed(-1), rest);
    case Items(_) => ItemsRead(w, rest);
    case NullArray => SignedParses(-1); LineBack('*' as int, Signed(-1), rest);
  }

  lemma {:induction false} BulkRead(w: Wire, rest: Bytes)
    requires w.BulkString? && WellFormed(w)
    ensures ParseReply(Encode(w) + rest) == Some((Str(w.bytes), rest))
  {
    var (head, after) := (TextLine('$' as int, Decimal(|w.bytes|)), w.bytes + CRLF + rest);
    SignedParses(|w.bytes|);
    LineBack('$' as int, Decimal(|w.bytes|), after);
    assert Encode(w) + rest == head + after;
    assert after[..|w.bytes|] == w.bytes && after[|w.bytes| + 2..] == rest;
  }

  lemma {:induction false} ItemsRead(w: Wire, rest: Bytes)
    requires w.Items? && WellFormed(w)
    ensures ParseReply(Encode(w) + rest) == Read(w, rest)
    decreases w, 0
  {
    var (head, after) := (TextLine('*' as int, Decimal(|w.items|)), EncodeAll(w.items) + rest);
    SignedParses(|w.items|);
    LineBack('*' as int, Decimal(|w.items|), after);
    Concat(head, EncodeAll(w.items), rest);
    RepliesRead(w.items, rest);
  }

  lemma {:induction false} RepliesRead(ws: seq<Wire>, rest: Bytes)
    requires WellFormedAll(ws)
    ensures ParseItems(|ws|, EncodeAll(ws) + rest) == if MeaningAll(ws).None? then None else Some((MeaningAll(ws).value, rest))
    decreases ws, 0
  {
    if ws == [] {
      assert EncodeAll(ws) + rest == rest;
    } else {
      Concat(Encode(ws[0]), EncodeAll(ws[1..]), rest);
      ReplyRead(ws[0], EncodeAll(ws[1..]) + rest);
      RepliesRead(ws[1..], rest);
    }
  }
}
