/**
The Go text that the generator writes. Its lines, read as blocks nest, give the code back: the failure test
behind every guarded call, the braces, and the branches. So what the generator writes does what the source does.
*/
module TryText {
  import opened Wrappers
  import opened Liaf
  import opened TryLang
  import opened TryHoisting
  import opened TryCorrect

  // ----- Reading the lines -----

  predicate Simple(s: GStmt) { s.GLet? || s.GSet? || s.GReturn? || s.GDo? || s.GBreak? || s.GContinue? }

  // A line that belongs to the construct around it.
  predicate Ends(l: GLine) { l.LElse? || l.LMatchElse? || l.LEnd? }

  predicate Closed(ls: seq<GLine>) { ls == [] || Ends(ls[0]) }

  function Read(ls: seq<GLine>): (r: Option<(seq<GStmt>, seq<GLine>)>)
    ensures r.Some? ==> |r.value.1| <= |ls|
    decreases |ls|, 1
  {
    if Closed(ls) then Some(([], ls)) else
    var s := ReadOne(ls);
    if s.None? then None else
    var rest := Read(s.value.1);
    if rest.None? then None else Some(([s.value.0] + rest.value.0, rest.value.1))
  }

  // A call whose result is tested is one guard; without the test it is no line of this code.
  function ReadOne(ls: seq<GLine>): (r: Option<(GStmt, seq<GLine>)>)
    requires !Closed(ls)
    ensures r.Some? ==> |r.value.1| < |ls|
    decreases |ls|, 0
  {
    var rest := ls[1..];
    match ls[0]
    case LTemp(id, value) =>
      if rest == [] || !rest[0].LFail? || rest[0].id != id then None else Some((GGuard(id, value, rest[0].leaving), rest[1..]))
    case LFail(_, _) => None
    case LSimple(s) => if Simple(s) then Some((s, rest)) else None
    case LIf(c) =>
      var thn := Read(rest);
      if thn.None? || thn.value.1 == [] then None
      else if thn.value.1[0].LEnd? then Some((GIfStmt(c, thn.value.0, []), thn.value.1[1..]))
      else if !thn.value.1[0].LElse? then None else
      var els := ReadBody(thn.value.1[1..]);
      if els.None? then None else Some((GIfStmt(c, thn.value.0, els.value.0), els.value.1))
    case LFor(c) =>
      var body := ReadBody(rest);
      if body.None? then None else Some((GWhile(c, body.value.0), body.value.1))
    case LForRange(x, a, b) =>
      var body := ReadBody(rest);
      if body.None? then None else Some((GForRange(x, a, b, body.value.0), body.value.1))
    case LMatch(e, okName) =>
      var ok := Read(rest);
      if ok.None? || ok.value.1 == [] || !ok.value.1[0].LMatchElse? then None else
      var err := ReadBody(ok.value.1[1..]);
      if err.None? then None else Some((GMatch(e, okName, ok.value.0, ok.value.1[0].errName, err.value.0), err.value.1))
    case LElse => None
    case LMatchElse(_) => None
    case LEnd => None
  }

  // A body and the brace that closes it.
  function ReadBody(ls: seq<GLine>): (r: Option<(seq<GStmt>, seq<GLine>)>)
    ensures r.Some? ==> |r.value.1| < |ls|
    decreases |ls|, 2
  {
    var body := Read(ls);
    if body.None? || body.value.1 == [] || !body.value.1[0].LEnd? then None else Some((body.value.0, body.value.1[1..]))
  }

  // The whole text.
  function ReadAll(ls: seq<GLine>): Option<seq<GStmt>> {
    var r := Read(ls);
    if r.None? || r.value.1 != [] then None else Some(r.value.0)
  }

  // ----- What is written is read back -----

  function Lines1(s: GStmt): seq<GLine> { Print1([], s) }

  function Lines(code: seq<GStmt>): seq<GLine> { Print([], code) }

  lemma {:induction false} PrintBehind(out: seq<GLine>, code: seq<GStmt>)
    ensures Print(out, code) == out + Lines(code)
    decreases code, 0
  {
    if code == [] {
      assert out + [] == out;
    } else {
      Print1Behind(out, code[0]);
      PrintBehind(out + Lines1(code[0]), code[1..]);
      PrintBehind(Lines1(code[0]), code[1..]);
      assert out + Lines1(code[0]) + Lines(code[1..]) == out + (Lines1(code[0]) + Lines(code[1..]));
    }
  }

  lemma {:induction false} Print1Behind(out: seq<GLine>, s: GStmt)
    ensures Print1(out, s) == out + Lines1(s)
    decreases s, 2
  {
    match s
    case GIfStmt(_, _, _) => IfBehind(out, s); IfBehind([], s); Joined(out, IfLines(s));
    case GWhile(c, body) => LoopBehind(out, LFor(c), body); LoopBehind([], LFor(c), body); Joined(out, [LFor(c)] + Lines(body) + [LEnd]);
    case GForRange(x, a, b, body) =>
      var l := LForRange(x, a, b);
      LoopBehind(out, l, body); LoopBehind([], l, body); Joined(out, [l] + Lines(body) + [LEnd]);
    case GMatch(_, _, _, _, _) => MatchBehind(out, s); MatchBehind([], s); Joined(out, MatchLines(s));
    case GGuard(_, _, _) =>
    case GLet(_, _) =>
    case GSet(_, _) =>
    case GReturn(_) =>
    case GDo(_) =>
    case GBreak =>
    case GContinue =>
  }

  lemma Joined(out: seq<GLine>, ls: seq<GLine>)
    ensures [] + ls == ls && out + ([] + ls) == out + ls
  {}

  function IfLines(s: GStmt): seq<GLine>
    requires s.GIfStmt?
  {
    [LIf(s.cond)] + Lines(s.thn) + (if s.els == [] then [] else [LElse] + Lines(s.els)) + [LEnd]
  }

  function MatchLines(s: GStmt): seq<GLine>
    requires s.GMatch?
  {
    [LMatch(s.value, s.okName)] + Lines(s.ok) + ([LMatchElse(s.errName)] + Lines(s.err)) + [LEnd]
  }

  lemma {:induction false} LoopBehind(out: seq<GLine>, l: GLine, body: seq<GStmt>)
    ensures Print(out + [l], body) + [LEnd] == out + ([l] + Lines(body) + [LEnd])
    decreases body, 1
  {
    PrintBehind(out + [l], body);
    assert out + [l] + Lines(body) + [LEnd] == out + ([l] + Lines(body) + [LEnd]);
  }

  lemma {:induction false} IfBehind(out: seq<GLine>, s: GStmt)
    requires s.GIfStmt?
    ensures Print1(out, s) == out + IfLines(s)
    decreases s, 1
  {
    var thn := out + [LIf(s.cond)] + Lines(s.thn);
    PrintBehind(out + [LIf(s.cond)], s.thn);
    PrintBehind(thn + [LElse], s.els);
    if s.els == [] {
      assert thn + [LEnd] == out + ([LIf(s.cond)] + Lines(s.thn) + [] + [LEnd]);
    } else {
      assert thn + [LElse] + Lines(s.els) + [LEnd] == out + ([LIf(s.cond)] + Lines(s.thn) + ([LElse] + Lines(s.els)) + [LEnd]);
    }
  }

  lemma {:induction false} MatchBehind(out: seq<GLine>, s: GStmt)
    requires s.GMatch?
    ensures Print1(out, s) == out + MatchLines(s)
    decreases s, 1
  {
    var head, middle := [LMatch(s.value, s.okName)], [LMatchElse(s.errName)];
    PrintBehind(out + head, s.ok);
    PrintBehind(out + head + Lines(s.ok) + middle, s.err);
    assert out + head + Lines(s.ok) + middle + Lines(s.err) + [LEnd] == out + (head + Lines(s.ok) + (middle + Lines(s.err)) + [LEnd]);
  }

  // The lines of any code, whatever closes it, are read back as the code.
  lemma {:induction false} ReadLines(code: seq<GStmt>, rest: seq<GLine>)
    requires Closed(rest)
    ensures Read(Lines(code) + rest) == Some((code, rest))
    decreases code, 0
  {
    if code == [] {
      assert Lines(code) + rest == rest;
    } else {
      var tail := Lines(code[1..]) + rest;
      PrintBehind(Lines1(code[0]), code[1..]);
      assert Lines(code) + rest == Lines1(code[0]) + tail;
      ReadLine1(code[0], tail);
      ReadLines(code[1..], rest);
      assert [code[0]] + code[1..] == code;
    }
  }

  lemma {:induction false} ReadLine1(s: GStmt, tail: seq<GLine>)
    ensures var ls := Lines1(s) + tail;
            !Closed(ls) && ReadOne(ls) == Some((s, tail))
    decreases s, 2
  {
    var ls := Lines1(s) + tail;
    match s
    case GIfStmt(_, _, _) => ReadIf(s, tail);
    case GMatch(_, _, _, _, _) => ReadMatch(s, tail);
    case GWhile(c, body) => ReadLoop(s, LFor(c), body, tail);
    case GForRange(x, a, b, body) => ReadLoop(s, LForRange(x, a, b), body, tail);
    case GGuard(id, e, leaving) => assert ls[1..][1..] == tail && ls == [LTemp(id, e), LFail(id, leaving)] + tail;
    case GLet(_, _) => assert ls[1..] == tail;
    case GSet(_, _) => assert ls[1..] == tail;
    case GReturn(_) => assert ls[1..] == tail;
    case GDo(_) => assert ls[1..] == tail;
    case GBreak => assert ls[1..] == tail;
    case GContinue => assert ls[1..] == tail;
  }

  lemma {:induction false} ReadClosed(body: seq<GStmt>, tail: seq<GLine>)
    ensures ReadBody(Lines(body) + ([LEnd] + tail)) == Some((body, tail))
    decreases body, 1
  {
    ReadLines(body, [LEnd] + tail);
    assert ([LEnd] + tail)[1..] == tail;
  }

  lemma {:induction false} ReadLoop(s: GStmt, l: GLine, body: seq<GStmt>, tail: seq<GLine>)
    requires (s == GWhile(if s.GWhile? then s.cond else GLit(VNone), body) && l == LFor(if s.GWhile? then s.cond else GLit(VNone)))
             || (s.GForRange? && s.body == body && l == LForRange(s.name, s.start, s.end))
    ensures var ls := Lines1(s) + tail;
            !Closed(ls) && ReadOne(ls) == Some((s, tail))
    decreases body, 2
  {
    LoopBehind([], l, body);
    var ls := Lines1(s) + tail;
    assert ls == [l] + (Lines(body) + ([LEnd] + tail));
    assert ls[1..] == Lines(body) + ([LEnd] + tail);
    ReadClosed(body, tail);
  }

  lemma {:induction false} ReadIf(s: GStmt, tail: seq<GLine>)
    requires s.GIfStmt?
    ensures var ls := Lines1(s) + tail;
            !Closed(ls) && ReadOne(ls) == Some((s, tail))
    decreases s, 1
  {
    IfBehind([], s);
    if s.els == [] { ReadThen(s, tail); } else { ReadElse(s, tail); }
  }

  lemma {:induction false} ReadThen(s: GStmt, tail: seq<GLine>)
    requires s.GIfStmt? && s.els == [] && Lines1(s) == [] + IfLines(s)
    ensures var ls := Lines1(s) + tail;
            !Closed(ls) && ReadOne(ls) == Some((s, tail))
    decreases s, 0
  {
    var ls, closing := Lines1(s) + tail, [LEnd] + tail;
    Enclosed(LIf(s.cond), Lines(s.thn), [], LEnd, tail);
    assert ls == [LIf(s.cond)] + (Lines(s.thn) + closing);
    ReadLines(s.thn, closing);
    assert ls[1..] == Lines(s.thn) + closing && closing[1..] == tail;
  }

  lemma {:induction false} ReadElse(s: GStmt, tail: seq<GLine>)
    requires s.GIfStmt? && s.els != [] && Lines1(s) == [] + IfLines(s)
    ensures var ls := Lines1(s) + tail;
            !Closed(ls) && ReadOne(ls) == Some((s, tail))
    decreases s, 0
  {
    var ls, after := Lines1(s) + tail, Lines(s.els) + ([LEnd] + tail);
    var rest := [LElse] + after;
    Enclosed(LIf(s.cond), Lines(s.thn), [LElse] + Lines(s.els), LEnd, tail);
    assert [LElse] + Lines(s.els) + ([LEnd] + tail) == rest;
    assert ls == [LIf(s.cond)] + (Lines(s.thn) + rest);
    ReadLines(s.thn, rest);
    ReadClosed(s.els, tail);
    assert ls[1..] == Lines(s.thn) + rest && rest[1..] == after;
  }

  lemma {:induction false} ReadMatch(s: GStmt, tail: seq<GLine>)
    requires s.GMatch?
    ensures var ls := Lines1(s) + tail;
            !Closed(ls) && ReadOne(ls) == Some((s, tail))
    decreases s, 1
  {
    MatchBehind([], s);
    var ls := Lines1(s) + tail;
    var after := Lines(s.err) + ([LEnd] + tail);
    assert ls == [LMatch(s.value, s.okName)] + (Lines(s.ok) + ([LMatchElse(s.errName)] + after));
    ReadLines(s.ok, [LMatchElse(s.errName)] + after);
    ReadClosed(s.err, tail);
    assert ls[1..] == Lines(s.ok) + ([LMatchElse(s.errName)] + after) && ([LMatchElse(s.errName)] + after)[1..] == after;
  }

  // The text of any code is read back as the code.
  lemma {:induction false} ReadText(code: seq<GStmt>)
    ensures ReadAll(Print([], code)) == Some(code)
  {
    ReadLines(code, []);
    assert Lines(code) + [] == Lines(code);
  }

  // ----- The generator's theorem -----

  // Go code that does what the source body does, in every world and from every state, unless a conditional
  // try fails; and then exactly if the zero value makes no difference.
  ghost predicate Does(ctx: Ctx, body: seq<SStmt>, code: seq<GStmt>) {
    forall w: World, st: SState, temps: TempMap, fuel: nat :: DoesOnce(w, ctx, body, code, st, temps, fuel)
  }

  ghost predicate DoesOnce(w: World, ctx: Ctx, body: seq<SStmt>, code: seq<GStmt>, st: SState, temps: TempMap, fuel: nat) {
    var (src, tgt) := (RunBody(w, Source, ctx, body, st, fuel), RunG(w, code, GState(st.env, temps, st.trace), fuel));
    && (ProperEnd(src.0) ==> Matches(ctx, src, tgt))
    && (RunBody(w, Guarded, ctx, body, st, fuel).0 != Ended(Wrong) ==>
          (Matches(ctx, src, tgt) <==> SameRun(ctx, src, RunBody(w, Guarded, ctx, body, st, fuel))))
  }

  // What the generator writes for the body of a function, from scratch.
  method GenerateBody(ctx: Ctx, body: seq<SStmt>) returns (text: seq<GLine>)
    ensures ReadAll(text).Some?
    ensures PlacedIn(body) ==> Does(ctx, body, ReadAll(text).value)
  {
    var g := new Generator(ctx);
    g.WriteBody(body);
    text := g.sb;
    ghost var code := GenBody(ctx, body, 0, map[]).code;
    ReadText(code);
    if PlacedIn(body) { BodyDoes(ctx, body, code); }
  }

  lemma {:induction false} BodyDoes(ctx: Ctx, body: seq<SStmt>, code: seq<GStmt>)
    requires PlacedIn(body) && code == GenBody(ctx, body, 0, map[]).code
    ensures Does(ctx, body, code)
  {
    forall w: World, st: SState, temps: TempMap, fuel: nat ensures DoesOnce(w, ctx, body, code, st, temps, fuel) {
      if ProperEnd(RunBody(w, Source, ctx, body, st, fuel).0) { BodyCorrect(w, ctx, body, 0, map[], st, temps, fuel); }
      if RunBody(w, Guarded, ctx, body, st, fuel).0 != Ended(Wrong) { BodyExactly(w, ctx, body, 0, map[], st, temps, fuel); }
    }
  }
}
