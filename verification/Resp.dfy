/**
The Redis protocol, version 2: commands as arrays of bulk strings, and replies of every kind, nested
arrays included.
*/
module Resp {
  import opened Wrappers
  import opened Int64
  import opened Bytes

  const CR: byte := 13
  const LF: byte := 10
  const CRLF: Bytes := [13, 10]

  datatype Reply = Str(bytes: Bytes) | Num(n: int) | Null | Arr(items: seq<Reply>)

  // ----- Commands -----

  // A marker, a number and the end of the line.
  function Header(marker: byte, n: nat): Bytes { [marker] + Decimal(n) + CRLF }

  function Bulk(a: Bytes): Bytes { Header('$' as int, |a|) + a + CRLF }

  function BulksOf(args: seq<Bytes>): Bytes { if args == [] then [] else Bulk(args[0]) + BulksOf(args[1..]) }

  function Command(args: seq<Bytes>): Bytes { Header('*' as int, |args|) + BulksOf(args) }

  // ----- Replies -----

  // Decimal, with an optional sign, within 64 bits.
  function ParseInt(s: Bytes): Option<int> {
    var signed := s != [] && (s[0] == '-' as int || s[0] == '+' as int);
    var digits := if signed then s[1..] else s;
    if digits == [] || Digits(digits).None? then None else
    var d: int := Digits(digits).value;
    var n := if s[0] == '-' as int then -d else d;
    if Fits(n) then Some(n) else None
  }

  function FindLF(s: Bytes): Option<nat> {
    if s == [] then None else if s[0] == LF then Some(0) else
    var i := FindLF(s[1..]);
    if i.None? then None else Some(i.value + 1)
  }

  function TrimRight(s: Bytes): Bytes {
    if s != [] && (s[|s| - 1] == CR || s[|s| - 1] == LF) then TrimRight(s[..|s| - 1]) else s
  }

  lemma {:induction false} FindLFIs(s: Bytes)
    ensures FindLF(s).Some? ==> FindLF(s).value < |s| && s[FindLF(s).value] == LF && forall j :: 0 <= j < FindLF(s).value ==> s[j] != LF
    ensures FindLF(s).None? ==> forall j :: 0 <= j < |s| ==> s[j] != LF
  {
    if s != [] && s[0] != LF {
      FindLFIs(s[1..]);
      assert forall j :: 1 <= j < |s| ==> s[j] == s[1..][j - 1];
    }
  }

  // The line up to a line feed, without it and the returns before it, and what follows it.
  function Line(s: Bytes): (r: Option<(Bytes, Bytes)>)
    ensures r.Some? ==> |r.value.1| < |s|
  {
    FindLFIs(s);
    var i := FindLF(s);
    if i.None? then None else Some((TrimRight(s[..i.value + 1]), s[i.value + 1..]))
  }

  // None is an error: the end of the stream, a malformed reply or an error of the server.
  function ParseReply(s: Bytes): (r: Option<(Reply, Bytes)>)
    ensures r.Some? ==> |r.value.1| < |s|
    decreases |s|, 0
  {
    if s == [] then None else
    var line := Line(s[1..]);
    if line.None? then None else
    var (text, rest) := line.value;
    if s[0] == '+' as int then Some((Str(text), rest))
    else if s[0] == ':' as int then
      if ParseInt(text).None? then None else Some((Num(ParseInt(text).value), rest))
    else if s[0] == '$' as int then
      if ParseInt(text).None? then None
      else
        var n := ParseInt(text).value;
        if n < 0 then Some((Null, rest))
        else if |rest| < n + 2 then None
        else Some((Str(rest[..n]), rest[n + 2..]))
    else if s[0] == '*' as int then
      if ParseInt(text).None? then None
      else if ParseInt(text).value < 0 then Some((Null, rest))
      else
        var items := ParseItems(ParseInt(text).value, rest);
        if items.None? then None else Some((Arr(items.value.0), items.value.1))
    else None
  }

  function ParseItems(n: nat, s: Bytes): (r: Option<(seq<Reply>, Bytes)>)
    ensures r.Some? ==> |r.value.1| <= |s|
    decreases |s|, 1, n
  {
    if n == 0 then Some(([], s)) else
    var item := ParseReply(s);
    if item.None? then None else
    var more := ParseItems(n - 1, item.value.1);
    if more.None? then None else Some(([item.value.0] + more.value.0, more.value.1))
  }

  // ----- Round trip -----

  lemma {:induction false} FindAfter(a: Bytes, rest: Bytes)
    requires forall i :: 0 <= i < |a| ==> a[i] != LF
    ensures FindLF(a + [LF] + rest) == Some(|a|)
  {
    if a == [] {
      assert (a + [LF] + rest)[0] == LF;
    } else {
      assert (a + [LF] + rest)[1..] == a[1..] + [LF] + rest;
      FindAfter(a[1..], rest);
    }
  }

  lemma {:induction false} HeaderLine(marker: byte, n: nat, rest: Bytes)
    ensures var s := Header(marker, n) + rest; s != [] && s[0] == marker && Line(s[1..]) == Some((Decimal(n), rest))
  {
    var s, d := Header(marker, n) + rest, Decimal(n);
    var line := d + [CR];
    assert s[1..] == line + [LF] + rest;
    FindAfter(line, rest);
    assert (line + [LF] + rest)[..|line| + 1] == line + [LF];
    assert (line + [LF] + rest)[|line| + 1..] == rest;
    assert (line + [LF])[..|line|] == line && line[..|d|] == d;
    assert TrimRight(d) == d && TrimRight(line) == d && TrimRight(line + [LF]) == d;
  }

  lemma {:induction false} DecimalParses(n: nat)
    requires n <= MAX
    ensures ParseInt(Decimal(n)) == Some(n)
  {
    DigitsDecimal(n);
  }

  lemma {:induction false} BulkParses(a: Bytes, rest: Bytes)
    requires |a| <= MAX
    ensures ParseReply(Bulk(a) + rest) == Some((Str(a), rest))
  {
    var s, after := Bulk(a) + rest, a + CRLF + rest;
    HeaderLine('$' as int, |a|, after);
    DecimalParses(|a|);
    assert s == Header('$' as int, |a|) + after;
    assert after[..|a|] == a && after[|a| + 2..] == rest;
  }

  function Strs(args: seq<Bytes>): seq<Reply> { if args == [] then [] else [Str(args[0])] + Strs(args[1..]) }

  lemma {:induction false} BulksParse(args: seq<Bytes>, rest: Bytes)
    requires forall i :: 0 <= i < |args| ==> |args[i]| <= MAX
    ensures ParseItems(|args|, BulksOf(args) + rest) == Some((Strs(args), rest))
  {
    if args == [] {
      assert BulksOf(args) + rest == rest;
    } else {
      var more := BulksOf(args[1..]) + rest;
      Concat(Bulk(args[0]), BulksOf(args[1..]), rest);
      BulkParses(args[0], more);
      BulksParse(args[1..], rest);
    }
  }

  // A command is read back as the list of its arguments, whatever bytes they hold, and nothing that
  // follows it is read.
  lemma {:induction false} CommandParses(args: seq<Bytes>, rest: Bytes)
    requires |args| <= MAX && forall i :: 0 <= i < |args| ==> |args[i]| <= MAX
    ensures ParseReply(Command(args) + rest) == Some((Arr(Strs(args)), rest))
  {
    var after := BulksOf(args) + rest;
    HeaderLine('*' as int, |args|, after);
    DecimalParses(|args|);
    BulksParse(args, rest);
    Concat(Header('*' as int, |args|), BulksOf(args), rest);
    var s := Command(args) + rest;
    assert s == Header('*' as int, |args|) + after && s[0] == '*' as int;
  }

  // Commands sent one after the other are read one after the other.
  function Commands(cs: seq<seq<Bytes>>): Bytes { if cs == [] then [] else Command(cs[0]) + Commands(cs[1..]) }

  function Lists(cs: seq<seq<Bytes>>): seq<Reply> { if cs == [] then [] else [Arr(Strs(cs[0]))] + Lists(cs[1..]) }

  lemma {:induction false} CommandsParse(cs: seq<seq<Bytes>>, rest: Bytes)
    requires forall i :: 0 <= i < |cs| ==> |cs[i]| <= MAX && forall j :: 0 <= j < |cs[i]| ==> |cs[i][j]| <= MAX
    ensures ParseItems(|cs|, Commands(cs) + rest) == Some((Lists(cs), rest))
  {
    if cs == [] {
      assert Commands(cs) + rest == rest;
    } else {
      var more := Commands(cs[1..]) + rest;
      assert Commands(cs) + rest == Command(cs[0]) + more;
      CommandParses(cs[0], more);
      CommandsParse(cs[1..], rest);
    }
  }

  // ----- The connection -----

  class Conn {
    var input: Bytes      // what the server sent and was not read yet
    var output: Bytes

    constructor (input: Bytes)
      ensures this.input == input && output == []
    {
      this.input, output := input, [];
    }

    method Send(args: seq<Bytes>)
      modifies this`output
      ensures output == old(output) + Command(args)
    {
      output := output + Header('*' as int, |args|);
      var i := 0;
      assert args[0..] == args;
      while i < |args|
        invariant 0 <= i <= |args|
        invariant output + BulksOf(args[i..]) == old(output) + Command(args)
      {
        assert args[i..][0] == args[i] && args[i..][1..] == args[i + 1..];
        ghost var before, later := output, BulksOf(args[i + 1..]);
        output := output + Header('$' as int, |args[i]|);
        output := output + args[i] + CRLF;
        Regroup(before, Header('$' as int, |args[i]|), args[i], CRLF, later);
        i := i + 1;
      }
      assert args[i..] == [] && output + [] == output;
    }

    method ReadLine() returns (r: Option<Bytes>)
      modifies this`input
      ensures var l := Line(old(input)); if l.Some? then r == Some(l.value.0) && input == l.value.1 else r.None?
    {
      FindLFIs(input);
      var i := 0;
      while i < |input| && input[i] != LF
        invariant 0 <= i <= |input| && input == old(input)
        invariant forall j :: 0 <= j < i ==> input[j] != LF
      {
        i := i + 1;
      }
      if i == |input| { return None; }
      var line := input[..i + 1];
      input := input[i + 1..];
      ghost var whole := line;
      while line != [] && (line[|line| - 1] == CR || line[|line| - 1] == LF)
        invariant TrimRight(line) == TrimRight(whole)
        decreases |line|
      {
        line := line[..|line| - 1];
      }
      r := Some(line);
    }

    // Reads n bytes, however few each read brings.
    method ReadFull(n: nat) returns (r: Option<Bytes>)
      modifies this`input
      ensures if n <= |old(input)| then r == Some(old(input)[..n]) && input == old(input)[n..] else r.None?
    {
      var buf: Bytes := [];
      while |buf| < n
        invariant |buf| <= n && buf + input == old(input)
      {
        if input == [] { return None; }
        var got: nat :| 1 <= got <= |input| && got <= n - |buf|;
        var part := input[..got];
        ghost var left := input[got..];
        Concat(buf, part, left);
        assert part + left == input;
        buf := buf + part;
        input := input[got..];
      }
      assert (buf + input)[..n] == buf && (buf + input)[n..] == input;
      r := Some(buf);
    }

    method ReadItems(n: nat) returns (r: Option<seq<Reply>>)
      modifies this`input
      ensures var p := ParseItems(n, old(input)); if p.Some? then r == Some(p.value.0) && input == p.value.1 else r.None?
      decreases |input|, 1
    {
      var items: seq<Reply> := [];
      ghost var start := input;
      ghost var all := ParseItems(n, input);
      if all.Some? { assert items + all.value.0 == all.value.0; }
      var i := 0;
      while i < n
        invariant 0 <= i <= n && |input| <= |start|
        invariant var more := ParseItems(n - i, input);
                  if more.Some? then all == Some((items + more.value.0, more.value.1)) else all.None?
      {
        ghost var sofar := items;
        var item := ReadReply();
        if item.None? { return None; }
        items := items + [item.value];
        ghost var more := ParseItems(n - i - 1, input);
        if more.Some? { assert sofar + ([item.value] + more.value.0) == items + more.value.0; }
        i := i + 1;
      }
      assert items + [] == items;
      r := Some(items);
    }

    method ReadReply() returns (r: Option<Reply>)
      modifies this`input
      ensures var p := ParseReply(old(input)); if p.Some? then r == Some(p.value.0) && input == p.value.1 else r.None?
      decreases |input|, 0
    {
      if input == [] { return None; }
      var marker := input[0];
      input := input[1..];
      var line := ReadLine();
      if line.None? { return None; }
      if marker == '+' as int { return Some(Str(line.value)); }
      var n := ParseInt(line.value);
      if marker == ':' as int {
        r := if n.None? then None else Some(Num(n.value));
      } else if marker == '$' as int {
        if n.None? { return None; }
        if n.value < 0 { return Some(Null); }
        ghost var rest := input;
        var buf := ReadFull(n.value + 2);
        if buf.None? { return None; }
        assert rest[..n.value + 2][..n.value] == rest[..n.value];
        r := Some(Str(buf.value[..n.value]));
      } else if marker == '*' as int {
        if n.None? { return None; }
        if n.value < 0 { return Some(Null); }
        var items := ReadItems(n.value);
        r := if items.None? then None else Some(Arr(items.value));
      } else {
        r := None;
      }
    }
  }
}
