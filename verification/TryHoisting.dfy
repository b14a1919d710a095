/**
Lifting nested `try` out of expressions. `Hoist` and `GenStmt` say what Go code a statement
becomes; `Generator` is the generator, which writes it line by line, counts `serial` up and
remembers in `hoisted` which try already has its guard.
*/
module TryHoisting {
  import opened Wrappers
  import opened Liaf
  import opened TryLang

  // The guards written so far, the last serial, and the ids of the tries already guarded.
  datatype Hoisted = Hoisted(code: seq<GStmt>, serial: nat, ids: map<nat, nat>)

  function LeavingOf(ctx: Ctx): Leaving {
    if !ctx.onErr then PropagateZero else if ctx.isVoid then CallHandlerVoid else CallHandler
  }

  function GenExpr(e: SExpr, ids: map<nat, nat>): GExpr
    decreases e
  {
    match e
    case SLit(v) => GLit(v)
    case SIdent(x) => GIdent(x)
    case SCall(f, args) => GCall(f, GenArgs(args, ids))
    case SBin(op, l, r) => GBin(op, GenExpr(l, ids), GenExpr(r, ids))
    case SLogic(isOr, l, r) => GLogic(isOr, GenExpr(l, ids), GenExpr(r, ids))
    case SIf(c, t, f) => GIf(GenExpr(c, ids), GenExpr(t, ids), GenExpr(f, ids))
    case SRecv(ch) => GRecv(GenExpr(ch, ids))
    case STry(k, operand, zero) => if k in ids then GTempValue(ids[k]) else GValueOf(GenExpr(operand, ids), zero)
  }

  function GenArgs(args: seq<SExpr>, ids: map<nat, nat>): seq<GExpr>
    decreases args
  {
    if args == [] then [] else [GenExpr(args[0], ids)] + GenArgs(args[1..], ids)
  }

  function Hoist(ctx: Ctx, e: SExpr, n: nat, ids: map<nat, nat>): (r: Hoisted)
    ensures n <= r.serial
    decreases e
  {
    match e
    case SLit(_) => Hoisted([], n, ids)
    case SIdent(_) => Hoisted([], n, ids)
    case SCall(_, args) => HoistAll(ctx, args, n, ids)
    case SBin(_, l, r) =>
      var a := Hoist(ctx, l, n, ids);
      var b := Hoist(ctx, r, a.serial, a.ids);
      Hoisted(a.code + b.code, b.serial, b.ids)
    case SLogic(_, l, _) => Hoist(ctx, l, n, ids)
    case SIf(c, _, _) => Hoist(ctx, c, n, ids)
    case SRecv(ch) => Hoist(ctx, ch, n, ids)
    case STry(k, operand, _) =>
      var h := Hoist(ctx, operand, n, ids);
      Hoisted(h.code + [GGuard(h.serial + 1, GenExpr(operand, h.ids), LeavingOf(ctx))], h.serial + 1, h.ids[k := h.serial + 1])
  }

  function HoistAll(ctx: Ctx, es: seq<SExpr>, n: nat, ids: map<nat, nat>): (r: Hoisted)
    ensures n <= r.serial
    decreases es
  {
    if es == [] then Hoisted([], n, ids) else
    var h := Hoist(ctx, es[0], n, ids);
    var rest := HoistAll(ctx, es[1..], h.serial, h.ids);
    Hoisted(h.code + rest.code, rest.serial, rest.ids)
  }

  // The last line of a statement that does one thing with one value.
  function LastLine(s: SStmt, ge: GExpr): GStmt
    requires s.SReturn? || s.SLet? || s.SSet? || s.SDo?
  {
    if s.SReturn? then GReturn(Some(ge)) else if s.SLet? then GLet(s.name, ge) else if s.SSet? then GSet(s.name, ge) else GDo(ge)
  }

  function InnerOfTopTry(e: SExpr): SExpr { if e.STry? then e.operand else e }

  // What a statement evaluates in any case, apart from a try on top of it.
  function StmtExprs(s: SStmt): seq<SExpr> {
    match s
    case SLet(_, e) => [InnerOfTopTry(e)]
    case SSet(_, e) => [InnerOfTopTry(e)]
    case SDo(e) => [InnerOfTopTry(e)]
    case SReturn(e) => if e.Some? then [e.value] else []
    case SIfStmt(c, _, _) => [c]
    case SMatch(e, _, _, _, _) => [e]
    case SForRange(_, a, b, _) => [a, b]
    case SWhile(_, _) => []
    case SBreak => []
    case SContinue => []
  }

  function Then(h: Hoisted, s: GStmt): Hoisted { Hoisted(h.code + [s], h.serial, h.ids) }

  function Bumped(h: Hoisted): Hoisted { Hoisted(h.code, h.serial + 1, h.ids) }

  // A guard of its own for the try on top of a let, set or expression statement.
  function TopGuard(ctx: Ctx, h: Hoisted, operand: SExpr): Hoisted {
    Hoisted(h.code + [GGuard(h.serial + 1, GenExpr(operand, h.ids), LeavingOf(ctx))], h.serial + 1, h.ids)
  }

  function GenStmt(ctx: Ctx, s: SStmt, n: nat, ids: map<nat, nat>): (r: Hoisted)
    ensures n <= r.serial
    decreases s, 0
  {
    var h := HoistAll(ctx, StmtExprs(s), n, ids);
    match s
    case SBreak => Then(h, GBreak)
    case SContinue => Then(h, GContinue)
    case SReturn(e) => Then(h, GReturn(if e.Some? then Some(GenExpr(e.value, h.ids)) else None))
    case SLet(x, e) =>
      if e.STry? then
        var g := TopGuard(ctx, h, e.operand);
        Then(g, GLet(x, GTempValue(g.serial)))
      else Then(h, GLet(x, GenExpr(e, h.ids)))
    case SSet(x, e) =>
      if e.STry? then
        var g := TopGuard(ctx, h, e.operand);
        Then(g, GSet(x, GTempValue(g.serial)))
      else Then(h, GSet(x, GenExpr(e, h.ids)))
    case SDo(e) =>
      if e.STry? then TopGuard(ctx, h, e.operand) else Then(h, GDo(GenExpr(e, h.ids)))
    case SIfStmt(c, t, f) =>
      var bt := GenBody(ctx, t, h.serial, h.ids);
      var bf := GenBody(ctx, f, bt.serial, bt.ids);
      Hoisted(h.code + [GIfStmt(GenExpr(c, h.ids), bt.code, bf.code)], bf.serial, bf.ids)
    case SMatch(e, okName, ok, errName, err) =>
      var bo := GenBody(ctx, ok, h.serial + 1, h.ids);
      var be := GenBody(ctx, err, bo.serial, bo.ids);
      Hoisted(h.code + [GMatch(GenExpr(e, h.ids), okName, bo.code, errName, be.code)], be.serial, be.ids)
    case SWhile(c, body) =>
      var b := GenBody(ctx, body, h.serial + 1, h.ids);
      Hoisted(h.code + [GWhile(GenExpr(c, h.ids), b.code)], b.serial, b.ids)
    case SForRange(x, lo, hi, body) =>
      var b := GenBody(ctx, body, h.serial + 1, h.ids);
      Hoisted(h.code + [GForRange(x, GenExpr(lo, h.ids), GenExpr(hi, h.ids), b.code)], b.serial, b.ids)
  }

  function GenBody(ctx: Ctx, body: seq<SStmt>, n: nat, ids: map<nat, nat>): (r: Hoisted)
    ensures n <= r.serial
    decreases body
  {
    if body == [] then Hoisted([], n, ids) else
    var s := GenStmt(ctx, body[0], n, ids);
    var rest := GenBody(ctx, body[1..], s.serial, s.ids);
    Hoisted(s.code + rest.code, rest.serial, rest.ids)
  }

  // ----- The lines as they are written -----

  datatype GLine =
    | LTemp(id: nat, value: GExpr)           // id := value
    | LFail(id: nat, leaving: Leaving)       // if !id.OK { .. }
    | LSimple(s: GStmt)
    | LIf(cond: GExpr)
    | LElse
    | LFor(cond: GExpr)
    | LForRange(name: string, start: GExpr, end: GExpr)
    | LMatch(value: GExpr, okName: string)
    | LMatchElse(errName: string)
    | LEnd

  function Print1(out: seq<GLine>, s: GStmt): seq<GLine>
    decreases s, 1
  {
    match s
    case GGuard(id, e, leaving) => out + [LTemp(id, e), LFail(id, leaving)]
    case GIfStmt(c, t, f) =>
      var thn := Print(out + [LIf(c)], t);
      (if f == [] then thn else Print(thn + [LElse], f)) + [LEnd]
    case GWhile(c, body) => Print(out + [LFor(c)], body) + [LEnd]
    case GForRange(x, a, b, body) => Print(out + [LForRange(x, a, b)], body) + [LEnd]
    case GMatch(e, okName, ok, errName, err) =>
      Print(Print(out + [LMatch(e, okName)], ok) + [LMatchElse(errName)], err) + [LEnd]
    case GLet(_, _) => out + [LSimple(s)]
    case GSet(_, _) => out + [LSimple(s)]
    case GReturn(_) => out + [LSimple(s)]
    case GDo(_) => out + [LSimple(s)]
    case GBreak => out + [LSimple(s)]
    case GContinue => out + [LSimple(s)]
  }

  function Print(out: seq<GLine>, code: seq<GStmt>): seq<GLine>
    decreases code
  {
    if code == [] then out else Print(Print1(out, code[0]), code[1..])
  }

  lemma {:induction false} PrintAppend(out: seq<GLine>, a: seq<GStmt>, b: seq<GStmt>)
    ensures Print(out, a + b) == Print(Print(out, a), b)
    decreases |a|
  {
    if a == [] {
      assert a + b == b;
    } else {
      assert (a + b)[1..] == a[1..] + b;
      PrintAppend(Print1(out, a[0]), a[1..], b);
    }
  }

  lemma {:induction false} PrintSnoc(out: seq<GLine>, a: seq<GStmt>, s: GStmt)
    ensures Print(out, a + [s]) == Print1(Print(out, a), s)
  {
    PrintAppend(out, a, [s]);
  }

  lemma {:induction false} PrintMatch(out: seq<GLine>, a: seq<GStmt>, e: GExpr, okName: string, ok: seq<GStmt>, errName: string, err: seq<GStmt>)
    ensures Print(out, a + [GMatch(e, okName, ok, errName, err)]) ==
            Print(Print(Print(out, a) + [LMatch(e, okName)], ok) + [LMatchElse(errName)], err) + [LEnd]
  {
    PrintSnoc(out, a, GMatch(e, okName, ok, errName, err));
  }

  // ----- The generator -----

  class Generator {
    const ctx: Ctx
    var sb: seq<GLine>
    var serial: nat
    var ids: map<nat, nat>

    constructor (ctx: Ctx)
      ensures this.ctx == ctx && sb == [] && serial == 0 && ids == map[]
    {
      this.ctx := ctx;
      sb, serial, ids := [], 0, map[];
    }

    // The state after writing what `h` stands for.
    twostate predicate Wrote(h: Hoisted)
      reads this
    {
      sb == Print(old(sb), h.code) && serial == h.serial && ids == h.ids
    }

    method Write(line: GLine)
      modifies `sb
      ensures sb == old(sb) + [line]
    {
      sb := sb + [line];
    }

    method FailGuard(id: nat)
      modifies `sb
      ensures sb == old(sb) + [LFail(id, LeavingOf(ctx))]
    {
      if ctx.onErr {
        if ctx.isVoid { Write(LFail(id, CallHandlerVoid)); } else { Write(LFail(id, CallHandler)); }
      } else {
        Write(LFail(id, PropagateZero));
      }
    }

    // `id := operand` and its guard.
    method Guard(operand: SExpr) returns (id: nat)
      modifies `sb, `serial
      ensures id == serial == old(serial) + 1
      ensures sb == Print1(old(sb), GGuard(id, GenExpr(operand, ids), LeavingOf(ctx)))
    {
      serial := serial + 1;
      id := serial;
      Write(LTemp(id, GenExpr(operand, ids)));
      FailGuard(id);
    }

    method HoistTries(e: SExpr)
      modifies this
      ensures Wrote(Hoist(ctx, e, old(serial), old(ids)))
      decreases e
    {
      match e {
        case SLit(_) =>
        case SIdent(_) =>
        case SCall(_, args) => HoistEach(args);
        case SBin(_, l, r) =>
          ghost var before, n, ids0 := sb, serial, ids;
          HoistTries(l);
          HoistTries(r);
          PrintAppend(before, Hoist(ctx, l, n, ids0).code, Hoist(ctx, r, Hoist(ctx, l, n, ids0).serial, Hoist(ctx, l, n, ids0).ids).code);
        case SLogic(_, l, _) => HoistTries(l);
        case SIf(c, _, _) => HoistTries(c);
        case SRecv(ch) => HoistTries(ch);
        case STry(k, operand, _) =>
          ghost var before, n, ids0 := sb, serial, ids;
          HoistTries(operand);
          ghost var h := Hoist(ctx, operand, n, ids0);
          var id := Guard(operand);
          PrintSnoc(before, h.code, GGuard(id, GenExpr(operand, h.ids), LeavingOf(ctx)));
          ids := ids[k := id];
      }
    }

    method HoistEach(es: seq<SExpr>)
      modifies this
      ensures Wrote(HoistAll(ctx, es, old(serial), old(ids)))
      decreases es
    {
      ghost var before, n, ids0 := sb, serial, ids;
      var i := 0;
      while i < |es|
        invariant 0 <= i <= |es|
        invariant var h := HoistAll(ctx, es[..i], n, ids0);
                  sb == Print(before, h.code) && serial == h.serial && ids == h.ids
      {
        HoistSnoc(ctx, es[..i], es[i], n, ids0);
        assert es[..i + 1] == es[..i] + [es[i]];
        ghost var h := HoistAll(ctx, es[..i], n, ids0);
        PrintAppend(before, h.code, Hoist(ctx, es[i], h.serial, h.ids).code);
        HoistTries(es[i]);
        i := i + 1;
      }
      assert es[..i] == es;
    }

    method WriteStmt(s: SStmt)
      modifies this
      ensures Wrote(GenStmt(ctx, s, old(serial), old(ids)))
      decreases s, 1
    {
      ghost var before, n, ids0 := sb, serial, ids;
      HoistEach(StmtExprs(s));
      ghost var h := HoistAll(ctx, StmtExprs(s), n, ids0);
      match s {
        case SBreak => Write(LSimple(GBreak)); PrintSnoc(before, h.code, GBreak);
        case SContinue => Write(LSimple(GContinue)); PrintSnoc(before, h.code, GContinue);
        case SReturn(e) =>
          var value := if e.Some? then Some(GenExpr(e.value, ids)) else None;
          Write(LSimple(GReturn(value)));
          PrintSnoc(before, h.code, GReturn(value));
        case SLet(_, e) => WriteValue(s, e, h, before);
        case SSet(_, e) => WriteValue(s, e, h, before);
        case SDo(e) => WriteValue(s, e, h, before);
        case SIfStmt(_, _, _) => WriteIf(s, h, before);
        case SMatch(_, _, _, _, _) => WriteMatch(s, h, before);
        case SWhile(_, _) => WriteLoop(s, h, before);
        case SForRange(_, _, _, _) => WriteLoop(s, h, before);
      }
    }

    // The rest of a let, set or expression statement once its guards `h` are written behind `before`.
    method WriteValue(s: SStmt, e: SExpr, ghost h: Hoisted, ghost before: seq<GLine>)
      requires (s.SLet? && s.value == e) || (s.SSet? && s.value == e) || s == SDo(e)
      requires sb == Print(before, h.code) && serial == h.serial && ids == h.ids
      modifies this
      ensures var r := if !e.STry? then Then(h, LastLine(s, GenExpr(e, h.ids))) else
                       var g := TopGuard(ctx, h, e.operand);
                       if s.SDo? then g else Then(g, LastLine(s, GTempValue(g.serial)));
              sb == Print(before, r.code) && serial == r.serial && ids == r.ids
    {
      if e.STry? {
        var id := Guard(e.operand);
        PrintSnoc(before, h.code, GGuard(id, GenExpr(e.operand, h.ids), LeavingOf(ctx)));
        if !s.SDo? {
          Write(LSimple(LastLine(s, GTempValue(id))));
          PrintSnoc(before, TopGuard(ctx, h, e.operand).code, LastLine(s, GTempValue(id)));
        }
      } else {
        Write(LSimple(LastLine(s, GenExpr(e, ids))));
        PrintSnoc(before, h.code, LastLine(s, GenExpr(e, h.ids)));
      }
    }

    // The rest of a compound statement once its guards `h` are written behind `before`.
    method WriteIf(s: SStmt, ghost h: Hoisted, ghost before: seq<GLine>)
      requires s.SIfStmt? && sb == Print(before, h.code) && serial == h.serial && ids == h.ids
      modifies this
      ensures var bt := GenBody(ctx, s.thn, h.serial, h.ids);
              var bf := GenBody(ctx, s.els, bt.serial, bt.ids);
              && sb == Print(before, h.code + [GIfStmt(GenExpr(s.cond, h.ids), bt.code, bf.code)])
              && serial == bf.serial && ids == bf.ids
      decreases s, 0
    {
      ghost var cond := GenExpr(s.cond, ids);
      Write(LIf(GenExpr(s.cond, ids)));
      WriteBody(s.thn);
      ghost var bt := GenBody(ctx, s.thn, h.serial, h.ids);
      ghost var bf := GenBody(ctx, s.els, bt.serial, bt.ids);
      GenBodyEmpty(ctx, s.els, bt.serial, bt.ids);
      if |s.els| > 0 {
        Write(LElse);
        WriteBody(s.els);
      }
      Write(LEnd);
      PrintSnoc(before, h.code, GIfStmt(cond, bt.code, bf.code));
    }

    method WriteMatch(s: SStmt, ghost h: Hoisted, ghost before: seq<GLine>)
      requires s.SMatch? && sb == Print(before, h.code) && serial == h.serial && ids == h.ids
      modifies this
      ensures var bo := GenBody(ctx, s.ok, h.serial + 1, h.ids);
              var be := GenBody(ctx, s.err, bo.serial, bo.ids);
              && sb == Print(before, h.code + [GMatch(GenExpr(s.value, h.ids), s.okName, bo.code, s.errName, be.code)])
              && serial == be.serial && ids == be.ids
      decreases s, 0
    {
      serial := serial + 1;
      ghost var value := GenExpr(s.value, ids);
      Write(LMatch(GenExpr(s.value, ids), s.okName));
      ghost var head := sb;
      WriteBody(s.ok);
      ghost var bo := GenBody(ctx, s.ok, h.serial + 1, h.ids);
      Write(LMatchElse(s.errName));
      ghost var middle := sb;
      assert middle == Print(head, bo.code) + [LMatchElse(s.errName)];
      WriteBody(s.err);
      ghost var be := GenBody(ctx, s.err, bo.serial, bo.ids);
      Write(LEnd);
      assert sb == Print(middle, be.code) + [LEnd];
      PrintMatch(before, h.code, value, s.okName, bo.code, s.errName, be.code);
    }

    method WriteLoop(s: SStmt, ghost h: Hoisted, ghost before: seq<GLine>)
      requires (s.SWhile? || s.SForRange?) && sb == Print(before, h.code) && serial == h.serial && ids == h.ids
      modifies this
      ensures var b := GenBody(ctx, s.body, h.serial + 1, h.ids);
              var loop := if s.SWhile? then GWhile(GenExpr(s.cond, h.ids), b.code)
                          else GForRange(s.name, GenExpr(s.start, h.ids), GenExpr(s.end, h.ids), b.code);
              sb == Print(before, h.code + [loop]) && serial == b.serial && ids == b.ids
      decreases s, 0
    {
      serial := serial + 1;
      ghost var b := GenBody(ctx, s.body, h.serial + 1, h.ids);
      if s.SWhile? {
        PrintSnoc(before, h.code, GWhile(GenExpr(s.cond, h.ids), b.code));
        Write(LFor(GenExpr(s.cond, ids)));
      } else {
        PrintSnoc(before, h.code, GForRange(s.name, GenExpr(s.start, h.ids), GenExpr(s.end, h.ids), b.code));
        Write(LForRange(s.name, GenExpr(s.start, ids), GenExpr(s.end, ids)));
      }
      WriteBody(s.body);
      Write(LEnd);
    }

    method WriteBody(body: seq<SStmt>)
      modifies this
      ensures Wrote(GenBody(ctx, body, old(serial), old(ids)))
      decreases body
    {
      ghost var before, n, ids0 := sb, serial, ids;
      var i := 0;
      while i < |body|
        invariant 0 <= i <= |body|
        invariant var h := GenBody(ctx, body[..i], n, ids0);
                  sb == Print(before, h.code) && serial == h.serial && ids == h.ids
      {
        BodySnoc(ctx, body[..i], body[i], n, ids0);
        assert body[..i + 1] == body[..i] + [body[i]];
        ghost var h := GenBody(ctx, body[..i], n, ids0);
        PrintAppend(before, h.code, GenStmt(ctx, body[i], h.serial, h.ids).code);
        WriteStmt(body[i]);
        i := i + 1;
      }
      assert body[..i] == body;
    }
  }

  // ----- Lowering one more expression, or one more statement, at the end -----

  lemma {:induction false} HoistSnoc(ctx: Ctx, es: seq<SExpr>, e: SExpr, n: nat, ids: map<nat, nat>)
    ensures var a := HoistAll(ctx, es, n, ids);
            var b := Hoist(ctx, e, a.serial, a.ids);
            HoistAll(ctx, es + [e], n, ids) == Hoisted(a.code + b.code, b.serial, b.ids)
    decreases |es|
  {
    if es == [] {
      assert es + [e] == [e];
      assert Hoist(ctx, e, n, ids).code + [] == Hoist(ctx, e, n, ids).code == [] + Hoist(ctx, e, n, ids).code;
    } else {
      assert (es + [e])[1..] == es[1..] + [e];
      var a := Hoist(ctx, es[0], n, ids);
      HoistSnoc(ctx, es[1..], e, a.serial, a.ids);
    }
  }

  lemma {:induction false} BodySnoc(ctx: Ctx, body: seq<SStmt>, s: SStmt, n: nat, ids: map<nat, nat>)
    ensures var a := GenBody(ctx, body, n, ids);
            var b := GenStmt(ctx, s, a.serial, a.ids);
            GenBody(ctx, body + [s], n, ids) == Hoisted(a.code + b.code, b.serial, b.ids)
    decreases |body|
  {
    if body == [] {
      assert body + [s] == [s];
      assert GenStmt(ctx, s, n, ids).code + [] == GenStmt(ctx, s, n, ids).code == [] + GenStmt(ctx, s, n, ids).code;
    } else {
      assert (body + [s])[1..] == body[1..] + [s];
      var a := GenStmt(ctx, body[0], n, ids);
      BodySnoc(ctx, body[1..], s, a.serial, a.ids);
    }
  }

  lemma {:induction false} GenBodyEmpty(ctx: Ctx, body: seq<SStmt>, n: nat, ids: map<nat, nat>)
    ensures (GenBody(ctx, body, n, ids).code == []) == (body == [])
  {
    if body != [] { GenStmtSome(ctx, body[0], n, ids); }
  }

  lemma {:induction false} GenStmtSome(ctx: Ctx, s: SStmt, n: nat, ids: map<nat, nat>)
    ensures GenStmt(ctx, s, n, ids).code != []
  {
    match s
    case SBreak =>
    case SContinue =>
    case SReturn(_) =>
    case SLet(_, _) =>
    case SSet(_, _) =>
    case SDo(_) =>
    case SIfStmt(_, _, _) =>
    case SMatch(_, _, _, _, _) =>
    case SWhile(_, _) =>
    case SForRange(_, _, _, _) =>
  }
}
