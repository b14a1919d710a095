/**
The Go text of a function with transactions. Its lines, read as blocks nest, give the code back; so what the
generator writes ends as the source does, with every transaction ended once.
*/
module DbText {
  import opened Wrappers
  import opened DbTransaction

  // ----- Reading the lines -----

  predicate Plain(s: GStmt) { !s.GIf? && !s.GFor? && !s.GBlock? }

  predicate Closed(ls: seq<Line>) { ls == [] || ls[0].OpenElse? || ls[0].CloseBrace? }

  function Read(ls: seq<Line>): (r: Option<(seq<GStmt>, seq<Line>)>)
    ensures r.Some? ==> |r.value.1| <= |ls|
    decreases |ls|, 1
  {
    if Closed(ls) then Some(([], ls)) else
    var s := ReadOne(ls);
    if s.None? then None else
    var rest := Read(s.value.1);
    if rest.None? then None else Some(([s.value.0] + rest.value.0, rest.value.1))
  }

  function ReadOne(ls: seq<Line>): (r: Option<(GStmt, seq<Line>)>)
    requires !Closed(ls)
    ensures r.Some? ==> |r.value.1| < |ls|
    decreases |ls|, 0
  {
    var rest := ls[1..];
    match ls[0]
    case Simple(s) => if Plain(s) then Some((s, rest)) else None
    case OpenIf =>
      var thn := Read(rest);
      if thn.None? || thn.value.1 == [] then None
      else if thn.value.1[0].CloseBrace? then Some((GIf(thn.value.0, []), thn.value.1[1..])) else
      var els := ReadBody(thn.value.1[1..]);
      if els.None? then None else Some((GIf(thn.value.0, els.value.0), els.value.1))
    case OpenFor =>
      var body := ReadBody(rest);
      if body.None? then None else Some((GFor(body.value.0), body.value.1))
    case OpenBlock =>
      var body := ReadBody(rest);
      if body.None? then None else Some((GBlock(body.value.0), body.value.1))
    case OpenElse => None
    case CloseBrace => None
  }

  // A body and the brace that closes it.
  function ReadBody(ls: seq<Line>): (r: Option<(seq<GStmt>, seq<Line>)>)
    ensures r.Some? ==> |r.value.1| < |ls|
    decreases |ls|, 2
  {
    var body := Read(ls);
    if body.None? || body.value.1 == [] || !body.value.1[0].CloseBrace? then None else Some((body.value.0, body.value.1[1..]))
  }

  // The whole text.
  function ReadAll(ls: seq<Line>): Option<seq<GStmt>> {
    var r := Read(ls);
    if r.None? || r.value.1 != [] then None else Some(r.value.0)
  }

  // ----- What is written is read back -----

  function Lines1(s: GStmt): seq<Line> { Print1([], s) }

  function Lines(code: seq<GStmt>): seq<Line> { Print([], code) }

  lemma {:induction false} PrintBehind(out: seq<Line>, code: seq<GStmt>)
    ensures Print(out, code) == out + Lines(code)
    decreases code, 0
  {
    if code == [] {
      assert out + [] == out;
    } else {
      Print1Behind(out, code[0]);
      PrintBehind(out + Lines1(code[0]), code[1..]);
      PrintBehind(Lines1(code[0]), code[1..]);
      Concat(out, Lines1(code[0]), Lines(code[1..]));
    }
  }

  lemma {:induction false} Print1Behind(out: seq<Line>, s: GStmt)
    ensures Print1(out, s) == out + Lines1(s)
    decreases s, 2
  {
    if s.GIf? {
      IfBehind(out, s);
      IfBehind([], s);
      assert [] + IfLines(s) == IfLines(s);
    } else if s.GFor? {
      BlockBehind(out, OpenFor, s.body);
      BlockBehind([], OpenFor, s.body);
      assert [] + BlockOf(OpenFor, s.body) == BlockOf(OpenFor, s.body);
    } else if s.GBlock? {
      BlockBehind(out, OpenBlock, s.body);
      BlockBehind([], OpenBlock, s.body);
      assert [] + BlockOf(OpenBlock, s.body) == BlockOf(OpenBlock, s.body);
    }
  }

  function BlockOf(l: Line, body: seq<GStmt>): seq<Line> { [l] + Lines(body) + [CloseBrace] }

  function IfLines(s: GStmt): seq<Line>
    requires s.GIf?
  {
    [OpenIf] + Lines(s.thn) + (if s.els == [] then [] else [OpenElse] + Lines(s.els)) + [CloseBrace]
  }

  lemma {:induction false} BlockBehind(out: seq<Line>, l: Line, body: seq<GStmt>)
    ensures Print(out + [l], body) + [CloseBrace] == out + BlockOf(l, body)
    decreases body, 1
  {
    PrintBehind(out + [l], body);
    assert out + [l] + Lines(body) + [CloseBrace] == out + BlockOf(l, body);
  }

  lemma {:induction false} IfBehind(out: seq<Line>, s: GStmt)
    requires s.GIf?
    ensures Print1(out, s) == out + IfLines(s)
    decreases s, 1
  {
    var thn := out + [OpenIf] + Lines(s.thn);
    PrintBehind(out + [OpenIf], s.thn);
    PrintBehind(thn + [OpenElse], s.els);
    if s.els == [] {
      assert thn + [CloseBrace] == out + ([OpenIf] + Lines(s.thn) + [] + [CloseBrace]);
    } else {
      assert thn + [OpenElse] + Lines(s.els) + [CloseBrace] == out + ([OpenIf] + Lines(s.thn) + ([OpenElse] + Lines(s.els)) + [CloseBrace]);
    }
  }

  // The lines of any code, whatever closes it, are read back as the code.
  lemma {:induction false} ReadLines(code: seq<GStmt>, rest: seq<Line>)
    requires Closed(rest)
    ensures Read(Lines(code) + rest) == Some((code, rest))
    decreases code, 0
  {
    if code == [] {
      assert Lines(code) + rest == rest;
    } else {
      var tail := Lines(code[1..]) + rest;
      PrintBehind(Lines1(code[0]), code[1..]);
      Concat(Lines1(code[0]), Lines(code[1..]), rest);
      ReadLine1(code[0], tail);
      ReadLines(code[1..], rest);
      assert [code[0]] + code[1..] == code;
    }
  }

  lemma {:induction false} ReadLine1(s: GStmt, tail: seq<Line>)
    ensures var ls := Lines1(s) + tail;
            !Closed(ls) && ReadOne(ls) == Some((s, tail))
    decreases s, 2
  {
    if s.GIf? {
      ReadIf(s, tail);
    } else if s.GFor? {
      ReadBlock(OpenFor, s.body, tail);
    } else if s.GBlock? {
      ReadBlock(OpenBlock, s.body, tail);
    } else {
      assert Lines1(s) == [] + [Simple(s)] == [Simple(s)];
      assert ([Simple(s)] + tail)[1..] == tail;
    }
  }

  lemma {:induction false} ReadClosed(body: seq<GStmt>, tail: seq<Line>)
    ensures ReadBody(Lines(body) + ([CloseBrace] + tail)) == Some((body, tail))
    decreases body, 1
  {
    ReadLines(body, [CloseBrace] + tail);
    assert ([CloseBrace] + tail)[1..] == tail;
  }

  lemma {:induction false} ReadBlock(l: Line, body: seq<GStmt>, tail: seq<Line>)
    requires l.OpenFor? || l.OpenBlock?
    ensures var (s, ls) := (if l.OpenFor? then GFor(body) else GBlock(body), Lines1(if l.OpenFor? then GFor(body) else GBlock(body)) + tail);
            !Closed(ls) && ReadOne(ls) == Some((s, tail))
    decreases body, 2
  {
    var s := if l.OpenFor? then GFor(body) else GBlock(body);
    BlockBehind([], l, body);
    var ls := Lines1(s) + tail;
    assert ls == [l] + (Lines(body) + ([CloseBrace] + tail));
    assert ls[1..] == Lines(body) + ([CloseBrace] + tail);
    ReadClosed(body, tail);
  }

  lemma {:induction false} ReadIf(s: GStmt, tail: seq<Line>)
    requires s.GIf?
    ensures var ls := Lines1(s) + tail;
            !Closed(ls) && ReadOne(ls) == Some((s, tail))
    decreases s, 1
  {
    IfBehind([], s);
    if s.els == [] { ReadThen(s, tail); } else { ReadElse(s, tail); }
  }

  lemma {:induction false} ReadThen(s: GStmt, tail: seq<Line>)
    requires s.GIf? && s.els == [] && Lines1(s) == [] + IfLines(s)
    ensures var ls := Lines1(s) + tail;
            !Closed(ls) && ReadOne(ls) == Some((s, tail))
    decreases s, 0
  {
    var ls, closing := Lines1(s) + tail, [CloseBrace] + tail;
    Enclosed(OpenIf, Lines(s.thn), [], CloseBrace, tail);
    assert ls == [OpenIf] + (Lines(s.thn) + closing);
    ReadLines(s.thn, closing);
    assert ls[1..] == Lines(s.thn) + closing && closing[1..] == tail;
  }

  lemma {:induction false} ReadElse(s: GStmt, tail: seq<Line>)
    requires s.GIf? && s.els != [] && Lines1(s) == [] + IfLines(s)
    ensures var ls := Lines1(s) + tail;
            !Closed(ls) && ReadOne(ls) == Some((s, tail))
    decreases s, 0
  {
    var ls, after := Lines1(s) + tail, Lines(s.els) + ([CloseBrace] + tail);
    var rest := [OpenElse] + after;
    Enclosed(OpenIf, Lines(s.thn), [OpenElse] + Lines(s.els), CloseBrace, tail);
    assert [OpenElse] + Lines(s.els) + ([CloseBrace] + tail) == rest;
    assert ls == [OpenIf] + (Lines(s.thn) + rest);
    ReadLines(s.thn, rest);
    ReadClosed(s.els, tail);
    assert ls[1..] == Lines(s.thn) + rest && rest[1..] == after;
  }

  lemma {:induction false} ReadText(code: seq<GStmt>)
    ensures ReadAll(Print([], code)) == Some(code)
  {
    ReadLines(code, []);
    assert Lines(code) + [] == Lines(code);
  }

  // ----- The generator's theorem -----

  // Code whose every call ends as the source does, with each transaction begun ended once.
  ghost predicate EndsAll(body: seq<Stmt>, code: seq<GStmt>) {
    forall env: Env, cs: seq<nat>, lost: Losses :: EndsAllOnce(body, code, env, cs, lost)
  }

  ghost predicate EndsAllOnce(body: seq<Stmt>, code: seq<GStmt>, env: Env, cs: seq<nat>, lost: Losses) {
    var o := Run(body, env, [], cs);
    var (txs, left, x) := CallCode(code, env, cs, lost);
    && x == o.exit
    && (!x.Cut? ==> left == o.left && |txs| == |o.fates| && forall i :: 0 <= i < |txs| ==> EndedOnce(o.fates[i], txs[i], lost(i)))
  }

  // What the generator writes for the body of a function, from scratch.
  method GenerateBody(body: seq<Stmt>) returns (text: seq<Line>)
    ensures ReadAll(text).Some? && EndsAll(body, ReadAll(text).value)
  {
    var g := new Generator();
    g.GenStmts(body);
    text := g.sb;
    ReadText(GenBody(body, 0).0);
    forall env: Env, cs: seq<nat>, lost: Losses ensures EndsAllOnce(body, GenBody(body, 0).0, env, cs, lost) {
      CallEndsAll(body, env, cs, lost);
    }
  }
}
