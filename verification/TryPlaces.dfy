/**
Where a try may stand. Hoisting moves a try before the operands written in front of it, and leaves one
alone that is evaluated conditionally. Both keep the meaning only under a condition, given here exactly.
*/
module TryPlaces {
  import opened Wrappers
  import opened Liaf
  import opened TryLang
  import opened TryHoisting
  import opened TryCorrect

  lemma {:induction false} TryFree(w: World, m: Mode, e: SExpr, env: Env, tr: Trace)
    requires Nodes(e) == {}
    ensures !EvalS(w, m, e, env, tr).0.Failed? && EvalS(w, m, e, env, tr) == EvalS(w, Source, e, env, tr)
    decreases e
  {
    match e
    case SCall(_, args) => TryFreeAll(w, m, args, env, tr);
    case SBin(_, l, r) =>
      TryFree(w, m, l, env, tr);
      TryFree(w, m, r, env, EvalS(w, Source, l, env, tr).1);
    case SLogic(_, l, r) =>
      TryFree(w, m, l, env, tr);
      TryFree(w, Inner(m), r, env, EvalS(w, Source, l, env, tr).1);
    case SIf(c, t, f) =>
      TryFree(w, m, c, env, tr);
      TryFree(w, Inner(m), t, env, EvalS(w, Source, c, env, tr).1);
      TryFree(w, Inner(m), f, env, EvalS(w, Source, c, env, tr).1);
    case SRecv(ch) => TryFree(w, m, ch, env, tr);
    case SLit(_) =>
    case SIdent(_) =>
    case STry(_, _, _) => assert false;
  }

  lemma {:induction false} TryFreeAll(w: World, m: Mode, es: seq<SExpr>, env: Env, tr: Trace)
    requires NodesAll(es) == {}
    ensures !EvalSArgs(w, m, es, env, tr).0.Failed? && EvalSArgs(w, m, es, env, tr) == EvalSArgs(w, Source, es, env, tr)
    decreases es
  {
    if es != [] {
      TryFree(w, m, es[0], env, tr);
      TryFreeAll(w, m, es[1..], env, EvalS(w, Source, es[0], env, tr).1);
    }
  }

  // ----- An operand before a try -----

  // A world that answers nothing: an expression comes to its value, or to its first question.
  const MUTE: World := (tr: Trace, f: string, args: seq<Value>) => Halt(OutOfFuel)

  function Alone(e: SExpr, env: Env): (Out, Trace) { EvalS(MUTE, Source, e, env, []) }

  // What e comes to by itself does not depend on the world; and its first question is asked in every world.
  lemma {:induction false} FirstQuestion(w: World, e: SExpr, env: Env, tr: Trace)
    ensures |Alone(e, env).1| <= 1 && tr + Alone(e, env).1 <= EvalS(w, Source, e, env, tr).1
    ensures Alone(e, env).1 == [] ==> EvalS(w, Source, e, env, tr) == (Alone(e, env).0, tr)
    ensures Alone(e, env).1 != [] ==> Alone(e, env).0 == Stop(OutOfFuel)
    decreases e, 1
  {
    match e
    case SLit(_) =>
    case SIdent(_) =>
    case SCall(_, args) => FirstQuestionAll(w, args, env, tr);
    case SRecv(ch) => FirstQuestion(w, ch, env, tr);
    case STry(_, operand, _) => FirstQuestion(w, operand, env, tr);
    case SBin(_, l, r) =>
      FirstQuestion(w, l, env, tr);
      FirstQuestion(w, r, env, EvalS(w, Source, l, env, tr).1);
    case SLogic(_, _, _) => FirstQuestionLogic(w, e, env, tr);
    case SIf(_, _, _) => FirstQuestionIf(w, e, env, tr);
  }

  lemma {:induction false} FirstQuestionLogic(w: World, e: SExpr, env: Env, tr: Trace)
    requires e.SLogic?
    ensures |Alone(e, env).1| <= 1 && tr + Alone(e, env).1 <= EvalS(w, Source, e, env, tr).1
    ensures Alone(e, env).1 == [] ==> EvalS(w, Source, e, env, tr) == (Alone(e, env).0, tr)
    ensures Alone(e, env).1 != [] ==> Alone(e, env).0 == Stop(OutOfFuel)
    decreases e, 0
  {
    FirstQuestion(w, e.left, env, tr);
    FirstQuestion(w, e.right, env, EvalS(w, Source, e.left, env, tr).1);
  }

  lemma {:induction false} FirstQuestionIf(w: World, e: SExpr, env: Env, tr: Trace)
    requires e.SIf?
    ensures |Alone(e, env).1| <= 1 && tr + Alone(e, env).1 <= EvalS(w, Source, e, env, tr).1
    ensures Alone(e, env).1 == [] ==> EvalS(w, Source, e, env, tr) == (Alone(e, env).0, tr)
    ensures Alone(e, env).1 != [] ==> Alone(e, env).0 == Stop(OutOfFuel)
    decreases e, 0
  {
    FirstQuestion(w, e.cond, env, tr);
    FirstQuestion(w, e.thn, env, EvalS(w, Source, e.cond, env, tr).1);
    FirstQuestion(w, e.els, env, EvalS(w, Source, e.cond, env, tr).1);
  }

  lemma {:induction false} FirstQuestionAll(w: World, es: seq<SExpr>, env: Env, tr: Trace)
    ensures var (q, x) := (EvalSArgs(MUTE, Source, es, env, []), EvalSArgs(w, Source, es, env, tr));
            && |q.2| <= 1 && tr + q.2 <= x.2
            && (q.2 == [] ==> x == (q.0, q.1, tr))
            && (q.2 != [] ==> q.0 == Stop(OutOfFuel))
    decreases es, 0
  {
    if es != [] {
      FirstQuestion(w, es[0], env, tr);
      FirstQuestionAll(w, es[1..], env, EvalS(w, Source, es[0], env, tr).1);
    }
  }

  // The expression f(a, try b), or a op try b.
  predicate Pair(e: SExpr, a: SExpr, t: SExpr) { (e.SCall? && e.args == [a, t]) || (e.SBin? && e.left == a && e.right == t) }

  // The values of a and of try b, evaluated in this order, and in the other one.
  function InOrder(w: World, a: SExpr, t: SExpr, env: Env, tr: Trace): (Out, seq<Value>, Trace) {
    var (x, tr1) := EvalS(w, Source, a, env, tr);
    if !x.Val? then (x, [], tr1) else
    var (y, tr2) := EvalS(w, Source, t, env, tr1);
    if !y.Val? then (y, [], tr2) else (y, [x.v, y.v], tr2)
  }

  function Swapped(w: World, a: SExpr, t: SExpr, env: Env, tr: Trace): (Out, seq<Value>, Trace) {
    var (y, tr1) := EvalS(w, Source, t, env, tr);
    if !y.Val? then (y, [], tr1) else
    var (x, tr2) := EvalS(w, Source, a, env, tr1);
    if !x.Val? then (x, [], tr2) else (y, [x.v, y.v], tr2)
  }

  // The call or the operation itself, once both operands have their values.
  function Finish(w: World, e: SExpr, r: (Out, seq<Value>, Trace)): (Out, Trace)
    requires (e.SCall? || e.SBin?) && (r.0.Val? ==> |r.1| == 2)
  {
    if !r.0.Val? then (r.0, r.2)
    else if e.SCall? then var (res, tr) := Ask(w, e.func, r.1, r.2); (FromRes(res), tr)
    else (FromRes(Apply(e.op, r.1[0], r.1[1])), r.2)
  }

  lemma {:induction false} SourceInOrder(w: World, e: SExpr, a: SExpr, t: SExpr, env: Env, tr: Trace)
    requires Pair(e, a, t)
    ensures EvalS(w, Source, e, env, tr) == Finish(w, e, InOrder(w, a, t, env, tr))
  {
    if e.SCall? { PairSource(w, Source, a, t, env, tr); }
  }

  lemma {:induction false} PairCode(ctx: Ctx, e: SExpr, a: SExpr, k: nat, b: SExpr, zero: Value, n: nat, ids: map<nat, nat>)
    requires Pair(e, a, STry(k, b, zero)) && Nodes(a) == {} && Nodes(b) == {}
    ensures var ids' := ids[k := n + 1];
            Hoist(ctx, e, n, ids) == Hoisted([GGuard(n + 1, GenExpr(b, ids), LeavingOf(ctx))], n + 1, ids')
  {
    NothingHoisted(ctx, a, n, ids);
    TryCode(ctx, k, b, zero, n, ids);
    AfterNothing(ctx, a, STry(k, b, zero), n, ids);
    if e.SBin? { PairHoisted(ctx, e, n, ids); }
  }

  lemma {:induction false} NothingHoisted(ctx: Ctx, a: SExpr, n: nat, ids: map<nat, nat>)
    requires Nodes(a) == {}
    ensures Hoist(ctx, a, n, ids) == Hoisted([], n, ids)
  {
    LiftedAreNodes(a);
    HoistIds(ctx, a, n, ids);
  }

  lemma {:induction false} TryCode(ctx: Ctx, k: nat, b: SExpr, zero: Value, n: nat, ids: map<nat, nat>)
    requires Nodes(b) == {}
    ensures Hoist(ctx, STry(k, b, zero), n, ids) == Hoisted([GGuard(n + 1, GenExpr(b, ids), LeavingOf(ctx))], n + 1, ids[k := n + 1])
  {
    NothingHoisted(ctx, b, n, ids);
    var guard := GGuard(n + 1, GenExpr(b, ids), LeavingOf(ctx));
    assert [] + [guard] == [guard];
  }

  // An operand that hoists nothing leaves the guards of the other one.
  lemma {:induction false} AfterNothing(ctx: Ctx, a: SExpr, t: SExpr, n: nat, ids: map<nat, nat>)
    requires Hoist(ctx, a, n, ids) == Hoisted([], n, ids)
    ensures HoistAll(ctx, [a, t], n, ids) == Hoist(ctx, t, n, ids)
  {
    HoistSingle(ctx, t, n, ids);
    var h := Hoist(ctx, t, n, ids);
    assert [a, t][1..] == [t] && [] + h.code == h.code;
  }

  // Once its guard passed, the rewritten expression evaluates a and then reads the value of the try.
  lemma {:induction false} Residue(w: World, e: SExpr, a: SExpr, t: SExpr, ids: map<nat, nat>, id: nat, r: Value, env: Env, temps: TempMap, tr: Trace)
    requires Pair(e, a, t) && Nodes(a) == {}
    requires id in temps && temps[id] == r && r.VResult? && r.ok
    ensures var (x, tr1) := EvalS(w, Source, a, env, tr);
            var ge := if e.SCall? then GCall(e.func, [GenExpr(a, ids), GTempValue(id)]) else GBin(e.op, GenExpr(a, ids), GTempValue(id));
            Finish(w, e, if x.Val? then (x, [x.v, r.payload], tr1) else (x, [], tr1)) == Plain(EvalG(w, ge, env, temps, tr))
  {
    TryFree(w, Bare, a, env, tr);
    InPlaceEval(w, a, ids, env, temps, tr);
    if e.SCall? { PairArgs(w, GenExpr(a, ids), GTempValue(id), env, temps, tr); }
  }

  // What `let x = e` makes of an outcome of e.
  predicate Lets(ctx: Ctx, x: string, r: (Out, Trace), env: Env, g: (End, GState)) {
    && g.1.trace == r.1
    && if !r.0.Val? then g.0 == EndOf(ctx, r.0)
       else if Declare(env, x, r.0.v).Some? then g.0 == Next && g.1.env == Declare(env, x, r.0.v).value
       else g.0 == Ended(Wrong)
  }

  lemma {:induction false} GuardRuns(w: World, ctx: Ctx, t: SExpr, id: nat, ids: map<nat, nat>, st: GState, fuel: nat)
    requires t.STry? && Nodes(t.operand) == {}
    ensures var (y, tr) := EvalS(w, Source, t, st.env, st.trace);
            var g := StepG(w, GGuard(id, GenExpr(t.operand, ids), LeavingOf(ctx)), st, fuel);
            && g.1.trace == tr
            && (!y.Val? ==> g.0 == EndOf(ctx, y))
            && (y.Val? ==> g == (Next, st.(temps := st.temps[id := VResult(true, y.v)], trace := tr)))
  {
    TryFree(w, Bare, t.operand, st.env, st.trace);
    InPlaceEval(w, t.operand, map[], st.env, st.temps, st.trace);
    GenStable(t.operand, ids, map[]);
  }

  // `let x = e` runs, in the generated code, on the operands in the other order.
  lemma {:induction false} SwappedRun(w: World, ctx: Ctx, x: string, e: SExpr, a: SExpr, t: SExpr, n: nat, ids: map<nat, nat>, st: GState, fuel: nat)
    requires t.STry? && Pair(e, a, t) && Nodes(a) == {} && Nodes(t.operand) == {}
    ensures Lets(ctx, x, Finish(w, e, Swapped(w, a, t, st.env, st.trace)), st.env,
                 RunG(w, GenStmt(ctx, SLet(x, e), n, ids).code, st, fuel))
  {
    var guard := GGuard(n + 1, GenExpr(t.operand, ids), LeavingOf(ctx));
    var ids' := ids[t.node := n + 1];
    PairCode(ctx, e, a, t.node, t.operand, t.zero, n, ids);
    HoistSingle(ctx, e, n, ids);
    var last := GLet(x, GenExpr(e, ids'));
    assert GenStmt(ctx, SLet(x, e), n, ids).code == [guard] + [last];
    RunGAppend(w, [guard], [last], st, fuel);
    RunGOne(w, guard, st, fuel);
    GuardRuns(w, ctx, t, n + 1, ids, st, fuel);
    var (o, st1) := StepG(w, guard, st, fuel);
    RunGOne(w, last, st1, fuel);
    if o == Next { LastRuns(w, ctx, x, e, a, t, ids', n + 1, st, st1, fuel); }
  }

  lemma {:induction false} LastRuns(w: World, ctx: Ctx, x: string, e: SExpr, a: SExpr, t: SExpr, ids: map<nat, nat>, id: nat, st: GState, st1: GState, fuel: nat)
    requires t.STry? && Pair(e, a, t) && Nodes(a) == {} && t.node in ids && ids[t.node] == id
    requires var (y, tr) := EvalS(w, Source, t, st.env, st.trace);
             y.Val? && st1 == st.(temps := st.temps[id := VResult(true, y.v)], trace := tr)
    ensures Lets(ctx, x, Finish(w, e, Swapped(w, a, t, st.env, st.trace)), st.env, StepG(w, GLet(x, GenExpr(e, ids)), st1, fuel))
  {
    var (y, tr) := EvalS(w, Source, t, st.env, st.trace);
    Residue(w, e, a, t, ids, id, VResult(true, y.v), st.env, st1.temps, tr);
    var ge := if e.SCall? then GCall(e.func, [GenExpr(a, ids), GTempValue(id)]) else GBin(e.op, GenExpr(a, ids), GTempValue(id));
    if e.SCall? {
      assert [a, t][1..] == [t] && [t][1..] == [] && GenArgs([t], ids) == [GTempValue(id)];
      assert GenArgs([a, t], ids) == [GenExpr(a, ids), GTempValue(id)];
    }
    assert GenExpr(e, ids) == ge;
  }

  // Whether the order of a and of the try can be told: one of them that comes to its value by itself may
  // stand anywhere; two that both ask must ask and answer alike in both orders.
  predicate OrderUnseen(w: World, e: SExpr, a: SExpr, t: SExpr, env: Env, tr: Trace)
    requires Pair(e, a, t)
  {
    var (x, y) := (Alone(a, env), Alone(t, env));
    if x.1 == [] then x.0.Val? || (y.1 == [] && (y.0.Val? || y.0 == x.0))
    else if y.1 == [] then y.0.Val?
    else x.1 == y.1 && Finish(w, e, InOrder(w, a, t, env, tr)) == Finish(w, e, Swapped(w, a, t, env, tr))
  }

  lemma {:induction false} TraceGoesOn(w: World, e: SExpr, a: SExpr, t: SExpr, env: Env, tr: Trace)
    requires Pair(e, a, t)
    ensures EvalS(w, Source, a, env, tr).1 <= Finish(w, e, InOrder(w, a, t, env, tr)).1
    ensures EvalS(w, Source, t, env, tr).1 <= Finish(w, e, Swapped(w, a, t, env, tr)).1
  {
    FirstQuestion(w, t, env, EvalS(w, Source, a, env, tr).1);
    FirstQuestion(w, a, env, EvalS(w, Source, t, env, tr).1);
  }

  lemma {:induction false} OrderUnseenExactly(w: World, e: SExpr, a: SExpr, t: SExpr, env: Env, tr: Trace)
    requires Pair(e, a, t) && t.STry? && Nodes(a) == {} && Nodes(t.operand) == {}
    ensures OrderUnseen(w, e, a, t, env, tr) <==>
            Finish(w, e, InOrder(w, a, t, env, tr)) == Finish(w, e, Swapped(w, a, t, env, tr))
  {
    var (x, y) := (Alone(a, env), Alone(t, env));
    FirstQuestion(w, a, env, tr);
    FirstQuestion(w, t, env, tr);
    FirstQuestion(w, a, env, EvalS(w, Source, t, env, tr).1);
    FirstQuestion(w, t, env, EvalS(w, Source, a, env, tr).1);
    TryFree(MUTE, Source, a, env, []);
    if x.1 != [] && y.1 != [] { BothAsk(w, e, a, t, env, tr); }
  }

  // The first event tells which of the two asked first.
  lemma BothAsk(w: World, e: SExpr, a: SExpr, t: SExpr, env: Env, tr: Trace)
    requires Pair(e, a, t) && Alone(a, env).1 != [] && Alone(t, env).1 != []
    ensures Finish(w, e, InOrder(w, a, t, env, tr)) == Finish(w, e, Swapped(w, a, t, env, tr)) ==> Alone(a, env).1 == Alone(t, env).1
  {
    var (x, y) := (Alone(a, env).1, Alone(t, env).1);
    FirstQuestion(w, a, env, tr);
    FirstQuestion(w, t, env, tr);
    TraceGoesOn(w, e, a, t, env, tr);
    var (p, q) := (Finish(w, e, InOrder(w, a, t, env, tr)).1, Finish(w, e, Swapped(w, a, t, env, tr)).1);
    assert p[|tr|] == (tr + x)[|tr|] == x[0] && q[|tr|] == (tr + y)[|tr|] == y[0];
  }

  // Whatever fails here is lifted.
  lemma {:induction false} FailLifted(w: World, e: SExpr, a: SExpr, t: SExpr, env: Env, tr: Trace)
    requires Pair(e, a, t) && t.STry? && Nodes(a) == {} && Nodes(t.operand) == {}
    ensures var p, q := Finish(w, e, InOrder(w, a, t, env, tr)).0, Finish(w, e, Swapped(w, a, t, env, tr)).0;
            !(p.Failed? && p.inPlace) && !(q.Failed? && q.inPlace)
  {
    TryFree(w, Source, t.operand, env, EvalS(w, Source, a, env, tr).1);
    TryFree(w, Source, t.operand, env, tr);
    TryFree(w, Source, a, env, tr);
    TryFree(w, Source, a, env, EvalS(w, Source, t, env, tr).1);
  }

  // An operand written before a try, in f(a, try b) and in a op try b: hoisting keeps the meaning exactly
  // if the order of the two cannot be told.
  lemma {:induction false} OperandBeforeTry(w: World, ctx: Ctx, x: string, e: SExpr, a: SExpr, t: SExpr, n: nat, ids: map<nat, nat>, st: SState, temps: TempMap, fuel: nat)
    requires Pair(e, a, t) && t.STry? && Nodes(a) == {} && Nodes(t.operand) == {}
    requires RunStmt(w, Source, ctx, SLet(x, e), st, fuel).0 != Ended(Wrong)
    ensures Matches(ctx, RunStmt(w, Source, ctx, SLet(x, e), st, fuel), RunG(w, GenStmt(ctx, SLet(x, e), n, ids).code, GState(st.env, temps, st.trace), fuel))
            <==> OrderUnseen(w, e, a, t, st.env, st.trace)
  {
    var g := GState(st.env, temps, st.trace);
    SourceInOrder(w, e, a, t, st.env, st.trace);
    SwappedRun(w, ctx, x, e, a, t, n, ids, g, fuel);
    OrderUnseenExactly(w, e, a, t, st.env, st.trace);
    FailLifted(w, e, a, t, st.env, st.trace);
    OneOutcome(ctx, x, Finish(w, e, InOrder(w, a, t, st.env, st.trace)), Finish(w, e, Swapped(w, a, t, st.env, st.trace)),
               st, RunStmt(w, Source, ctx, SLet(x, e), st, fuel), RunG(w, GenStmt(ctx, SLet(x, e), n, ids).code, g, fuel));
  }

  // `let` tells two outcomes apart.
  lemma OneOutcome(ctx: Ctx, x: string, p: (Out, Trace), q: (Out, Trace), st: SState, src: (End, SState), tgt: (End, GState))
    requires Lets(ctx, x, q, st.env, tgt)
    requires !(p.0.Failed? && p.0.inPlace) && !(q.0.Failed? && q.0.inPlace) && src.0 != Ended(Wrong)
    requires src == if !p.0.Val? then (EndOf(ctx, p.0), SState(st.env, p.1)) else UpdatedS(Declare(st.env, x, p.0.v), st.env, p.1)
    ensures Matches(ctx, src, tgt) <==> p == q
  {
    if p.0.Val? && q.0.Val? { assert p.0.v == st.env.head[x := p.0.v][x] && q.0.v == st.env.head[x := q.0.v][x]; }
  }

  // The arguments of a call that ask nothing have these values.
  predicate Quietly(args: seq<SExpr>, env: Env, vs: seq<Value>) {
    var r := EvalSArgs(MUTE, Source, args, env, []);
    r.0.Val? && r.1 == vs && r.2 == []
  }

  lemma AskedAlone(f: string, args: seq<SExpr>, env: Env, vs: seq<Value>)
    requires Quietly(args, env, vs)
    ensures Alone(SCall(f, args), env) == (Stop(OutOfFuel), [Event(f, vs)])
  {
    assert [] + [Event(f, vs)] == [Event(f, vs)];
  }

  lemma {:induction false} AskedIn(w: World, f: string, args: seq<SExpr>, env: Env, vs: seq<Value>, tr: Trace)
    requires Quietly(args, env, vs)
    ensures EvalS(w, Source, SCall(f, args), env, tr) == (FromRes(w(tr, f, vs)), tr + [Event(f, vs)])
  {
    FirstQuestionAll(w, args, env, tr);
  }

  // A second call has the first one's answer, which is no error, or there is no second answer.
  predicate Repeats(r1: Res<Value>, r2: Res<Value>) {
    r1.Halt? || (r1.v.VResult? && r1.v.ok && (r2.Halt? || r2 == r1))
  }

  // Two calls that both ask, f(g(..), try h(..)): the meaning is kept exactly if it is the same call twice,
  // and answered alike.
  lemma {:induction false} CallBeforeTry(w: World, ctx: Ctx, x: string, e: SExpr, a: SExpr, t: SExpr, vs: seq<Value>, us: seq<Value>,
                      n: nat, ids: map<nat, nat>, st: SState, temps: TempMap, fuel: nat)
    requires Pair(e, a, t) && t.STry? && a.SCall? && t.operand.SCall? && Nodes(a) == {} && Nodes(t.operand) == {}
    requires Quietly(a.args, st.env, vs) && Quietly(t.operand.args, st.env, us)
    requires RunStmt(w, Source, ctx, SLet(x, e), st, fuel).0 != Ended(Wrong)
    ensures var first := w(st.trace, a.func, vs);
            var second := w(st.trace + [Event(a.func, vs)], a.func, vs);
            Matches(ctx, RunStmt(w, Source, ctx, SLet(x, e), st, fuel), RunG(w, GenStmt(ctx, SLet(x, e), n, ids).code, GState(st.env, temps, st.trace), fuel))
            <==> a.func == t.operand.func && vs == us && Repeats(first, second)
  {
    OperandBeforeTry(w, ctx, x, e, a, t, n, ids, st, temps, fuel);
    AskedAlone(a.func, a.args, st.env, vs);
    AskedAlone(t.operand.func, t.operand.args, st.env, us);
    assert Alone(t, st.env) == Alone(t.operand, st.env);
    if a.func == t.operand.func && vs == us { SameCallTwice(w, ctx, x, e, a, t, vs, st, fuel); }
  }

  // What a try makes of the answer of its operand.
  function Tried(r: Res<Value>): Out {
    if r.Halt? then Stop(r.why) else if !r.v.VResult? then Stop(Wrong) else if r.v.ok then Val(r.v.payload) else Failed(r.v.payload, false)
  }

  lemma {:induction false} SameCallTwice(w: World, ctx: Ctx, x: string, e: SExpr, a: SExpr, t: SExpr, vs: seq<Value>, st: SState, fuel: nat)
    requires Pair(e, a, t) && t.STry? && a.SCall? && t.operand.SCall? && a.func == t.operand.func
    requires Quietly(a.args, st.env, vs) && Quietly(t.operand.args, st.env, vs)
    requires RunStmt(w, Source, ctx, SLet(x, e), st, fuel).0 != Ended(Wrong)
    ensures var first := w(st.trace, a.func, vs);
            var second := w(st.trace + [Event(a.func, vs)], a.func, vs);
            Finish(w, e, InOrder(w, a, t, st.env, st.trace)) == Finish(w, e, Swapped(w, a, t, st.env, st.trace)) <==> Repeats(first, second)
  {
    var one := st.trace + [Event(a.func, vs)];
    var two := one + [Event(a.func, vs)];
    var r1, r2 := w(st.trace, a.func, vs), w(one, a.func, vs);
    SourceInOrder(w, e, a, t, st.env, st.trace);
    AskedIn(w, a.func, a.args, st.env, vs, st.trace);
    AskedIn(w, a.func, a.args, st.env, vs, one);
    AskedIn(w, a.func, t.operand.args, st.env, vs, st.trace);
    AskedIn(w, a.func, t.operand.args, st.env, vs, one);
    assert EvalS(w, Source, t, st.env, st.trace) == (Tried(r1), one) && EvalS(w, Source, t, st.env, one) == (Tried(r2), two);
    var p := if r1.Halt? then (Stop(r1.why), [], one) else (Tried(r2), if Tried(r2).Val? then [r1.v, Tried(r2).v] else [], two);
    var q := if !Tried(r1).Val? then (Tried(r1), [], one) else if r2.Halt? then (Stop(r2.why), [], two) else (Tried(r1), [r2.v, Tried(r1).v], two);
    assert InOrder(w, a, t, st.env, st.trace) == p && Swapped(w, a, t, st.env, st.trace) == q;
    TwiceFinished(w, e, r1, r2, p, q, one, two);
  }

  lemma TwiceFinished(w: World, e: SExpr, r1: Res<Value>, r2: Res<Value>, p: (Out, seq<Value>, Trace), q: (Out, seq<Value>, Trace), one: Trace, two: Trace)
    requires (e.SCall? || e.SBin?) && |two| == |one| + 1
    requires p == if r1.Halt? then (Stop(r1.why), [], one) else (Tried(r2), if Tried(r2).Val? then [r1.v, Tried(r2).v] else [], two)
    requires q == if !Tried(r1).Val? then (Tried(r1), [], one) else if r2.Halt? then (Stop(r2.why), [], two) else (Tried(r1), [r2.v, Tried(r1).v], two)
    requires Finish(w, e, p).0 != Stop(Wrong)
    ensures Finish(w, e, p) == Finish(w, e, q) <==> Repeats(r1, r2)
  {
    if p.0.Val? && q.0.Val? && e.SCall? {
      assert Finish(w, e, p).1[|two|] == Event(e.func, p.1) && Finish(w, e, q).1[|two|] == Event(e.func, q.1);
      assert p.1 == q.1 ==> p.1[0] == q.1[0];
    }
  }

  // In particular a call in front of a try of another call always moves behind it.
  lemma {:induction false} CallBeforeTryMoves(w: World, ctx: Ctx, x: string, e: SExpr, a: SExpr, t: SExpr, vs: seq<Value>, us: seq<Value>,
                           n: nat, ids: map<nat, nat>, st: SState, temps: TempMap, fuel: nat)
    requires Pair(e, a, t) && t.STry? && a.SCall? && t.operand.SCall? && Nodes(a) == {} && Nodes(t.operand) == {}
    requires Quietly(a.args, st.env, vs) && Quietly(t.operand.args, st.env, us)
    requires RunStmt(w, Source, ctx, SLet(x, e), st, fuel).0 != Ended(Wrong)
    requires a.func != t.operand.func || vs != us
    ensures !Matches(ctx, RunStmt(w, Source, ctx, SLet(x, e), st, fuel), RunG(w, GenStmt(ctx, SLet(x, e), n, ids).code, GState(st.env, temps, st.trace), fuel))
  {
    CallBeforeTry(w, ctx, x, e, a, t, vs, us, n, ids, st, temps, fuel);
  }

  // ----- A try that is evaluated conditionally -----

  // A statement that evaluates one expression, without a try on top of it.
  predicate Evaluates(s: SStmt, e: SExpr) {
    (s.SLet? && s.value == e) || (s.SSet? && s.value == e) || s == SDo(e) || s == SReturn(Some(e))
  }

  // The right of `and` and `or` and the arms of if-expressions keep their tries, without a guard. On a
  // statement with no other tries the meaning is kept exactly if none of them is reached with an error; or if
  // the value returned, made with the zero value, happens to be the error that the source returns.
  lemma {:induction false} InPlaceExactly(w: World, ctx: Ctx, s: SStmt, e: SExpr, n: nat, ids: map<nat, nat>, st: SState, temps: TempMap, fuel: nat)
    requires Evaluates(s, e) && Lifted(e) == {} && Liftable(e) && Nodes(e) !! ids.Keys
    requires RunStmt(w, Source, ctx, s, st, fuel).0 != Ended(Wrong)
    ensures var (o, tr) := EvalS(w, Source, e, st.env, st.trace);
            Matches(ctx, RunStmt(w, Source, ctx, s, st, fuel), RunG(w, GenStmt(ctx, s, n, ids).code, GState(st.env, temps, st.trace), fuel))
            <==> !o.Failed? || (s.SReturn? && !ctx.onErr && EvalS(w, Bare, e, st.env, st.trace) == (Val(VResult(false, o.error)), tr))
  {
    var o := EvalS(w, Source, e, st.env, st.trace).0;
    NoneLiftedSource(w, e, st.env, st.trace);
    if !o.Failed? {
      StmtCorrect(w, ctx, s, n, ids, st, temps, fuel);
    } else {
      FailingInPlace(w, ctx, s, e, n, ids, st, temps, fuel);
    }
  }

  lemma {:induction false} FailingInPlace(w: World, ctx: Ctx, s: SStmt, e: SExpr, n: nat, ids: map<nat, nat>, st: SState, temps: TempMap, fuel: nat)
    requires Evaluates(s, e) && Lifted(e) == {} && Nodes(e) !! ids.Keys && EvalS(w, Source, e, st.env, st.trace).0.Failed?
    ensures var (o, tr) := EvalS(w, Source, e, st.env, st.trace);
            Matches(ctx, RunStmt(w, Source, ctx, s, st, fuel), RunG(w, GenStmt(ctx, s, n, ids).code, GState(st.env, temps, st.trace), fuel))
            <==> s.SReturn? && !ctx.onErr && EvalS(w, Bare, e, st.env, st.trace) == (Val(VResult(false, o.error)), tr)
  {
    NoGuards(ctx, s, e, n, ids);
    InPlaceEval(w, e, ids, st.env, temps, st.trace);
    FailingValue(w, ctx, s, e, GenExpr(e, ids), st, temps, fuel);
  }

  // The source leaves with the error; the generated code goes on with the value it has instead.
  lemma {:induction false} FailingValue(w: World, ctx: Ctx, s: SStmt, e: SExpr, ge: GExpr, st: SState, temps: TempMap, fuel: nat)
    requires Evaluates(s, e) && EvalS(w, Source, e, st.env, st.trace).0.Failed?
    requires EvalS(w, Bare, e, st.env, st.trace) == Plain(EvalG(w, ge, st.env, temps, st.trace))
    ensures var (o, tr) := EvalS(w, Source, e, st.env, st.trace);
            Matches(ctx, RunStmt(w, Source, ctx, s, st, fuel), RunG(w, [LastLine(s, ge)], GState(st.env, temps, st.trace), fuel))
            <==> s.SReturn? && !ctx.onErr && EvalS(w, Bare, e, st.env, st.trace) == (Val(VResult(false, o.error)), tr)
  {
    RunGOne(w, LastLine(s, ge), GState(st.env, temps, st.trace), fuel);
    FailingSource(w, ctx, s, e, st, fuel);
    LastLineEnds(w, s, e, ge, GState(st.env, temps, st.trace), fuel);
  }

  lemma {:induction false} FailingSource(w: World, ctx: Ctx, s: SStmt, e: SExpr, st: SState, fuel: nat)
    requires Evaluates(s, e) && EvalS(w, Source, e, st.env, st.trace).0.Failed?
    ensures var (o, tr) := EvalS(w, Source, e, st.env, st.trace);
            RunStmt(w, Source, ctx, s, st, fuel) == (EndOf(ctx, o), SState(st.env, tr))
  {}

  // The last line of a statement: it goes on, or it returns its value.
  lemma {:induction false} LastLineEnds(w: World, s: SStmt, e: SExpr, ge: GExpr, g: GState, fuel: nat)
    requires Evaluates(s, e)
    ensures var (o, tr) := Plain(EvalG(w, ge, g.env, g.temps, g.trace));
            var (end, g') := StepG(w, LastLine(s, ge), g, fuel);
            g'.trace == tr && if o.Val? && s.SReturn? then end == Left(o.v) else end == Next || end.Ended?
  {}

  // Where no try is lifted, one that fails stands where evaluation is conditional.
  lemma {:induction false} NoneLiftedSource(w: World, e: SExpr, env: Env, tr: Trace)
    requires Lifted(e) == {}
    ensures var o := EvalS(w, Source, e, env, tr).0; o.Failed? ==> o.inPlace
    decreases e
  {
    match e
    case SCall(_, args) => NoneLiftedSourceAll(w, args, env, tr);
    case SBin(_, l, r) =>
      NoneLiftedSource(w, l, env, tr);
      NoneLiftedSource(w, r, env, EvalS(w, Source, l, env, tr).1);
    case SLogic(_, l, _) => NoneLiftedSource(w, l, env, tr);
    case SIf(c, _, _) => NoneLiftedSource(w, c, env, tr);
    case SRecv(ch) => NoneLiftedSource(w, ch, env, tr);
    case SLit(_) =>
    case SIdent(_) =>
    case STry(_, _, _) => assert false;
  }

  lemma {:induction false} NoneLiftedSourceAll(w: World, es: seq<SExpr>, env: Env, tr: Trace)
    requires LiftedAll(es) == {}
    ensures var o := EvalSArgs(w, Source, es, env, tr).0; o.Failed? ==> o.inPlace
    decreases es
  {
    if es != [] {
      NoneLiftedSource(w, es[0], env, tr);
      NoneLiftedSourceAll(w, es[1..], env, EvalS(w, Source, es[0], env, tr).1);
    }
  }

  lemma {:induction false} NoGuards(ctx: Ctx, s: SStmt, e: SExpr, n: nat, ids: map<nat, nat>)
    requires Evaluates(s, e) && Lifted(e) == {}
    ensures GenStmt(ctx, s, n, ids).code == [LastLine(s, GenExpr(e, ids))]
  {
    HoistIds(ctx, e, n, ids);
    HoistSingle(ctx, e, n, ids);
    assert !e.STry? && StmtExprs(s) == [e];
    assert [] + [LastLine(s, GenExpr(e, ids))] == [LastLine(s, GenExpr(e, ids))];
  }

  // A condition whose tries give the value of the whole condition, which is false when they fail.
  predicate Deciding(c: SExpr)
    decreases c
  {
    Nodes(c) == {} ||
    match c
    case STry(_, operand, zero) => Nodes(operand) == {} && zero == VBool(false)
    case SLogic(_, l, r) => Nodes(l) == {} && Deciding(r)
    case SIf(t, a, b) => Nodes(t) == {} && Deciding(a) && Deciding(b)
    case SCall(_, _) => false
    case SBin(_, _, _) => false
    case SRecv(_) => false
    case SLit(_) => true
    case SIdent(_) => true
  }

  lemma {:induction false} FailingDecides(w: World, c: SExpr, ids: map<nat, nat>, env: Env, temps: TempMap, tr: Trace)
    requires Deciding(c) && Nodes(c) !! ids.Keys && EvalS(w, Source, c, env, tr).0.Failed?
    ensures EvalG(w, GenExpr(c, ids), env, temps, tr) == (Ok(VBool(false)), EvalS(w, Source, c, env, tr).1)
    decreases c, 1
  {
    if Nodes(c) == {} {
      TryFree(w, Bare, c, env, tr);
    } else if c.STry? {
      assert c.node in Nodes(c);
      TryFree(w, Bare, c.operand, env, tr);
      InPlaceEval(w, c.operand, ids, env, temps, tr);
      assert GenExpr(c, ids) == GValueOf(GenExpr(c.operand, ids), c.zero);
    } else if c.SLogic? {
      FailingRight(w, c, ids, env, temps, tr);
    } else {
      TryFree(w, Bare, c.cond, env, tr);
      InPlaceEval(w, c.cond, ids, env, temps, tr);
      var (a, tr1) := EvalS(w, Source, c.cond, env, tr);
      FailingDecides(w, if a.v.b then c.thn else c.els, ids, env, temps, tr1);
      assert GenExpr(c, ids) == GIf(GenExpr(c.cond, ids), GenExpr(c.thn, ids), GenExpr(c.els, ids));
    }
  }

  lemma {:induction false} FailingRight(w: World, c: SExpr, ids: map<nat, nat>, env: Env, temps: TempMap, tr: Trace)
    requires c.SLogic? && Nodes(c.left) == {} && Deciding(c.right)
    requires Nodes(c) !! ids.Keys && EvalS(w, Source, c, env, tr).0.Failed?
    ensures EvalG(w, GenExpr(c, ids), env, temps, tr) == (Ok(VBool(false)), EvalS(w, Source, c, env, tr).1)
    decreases c, 0
  {
    TryFree(w, Bare, c.left, env, tr);
    InPlaceEval(w, c.left, ids, env, temps, tr);
    FailingDecides(w, c.right, ids, env, temps, EvalS(w, Source, c.left, env, tr).1);
    assert GenExpr(c, ids) == GLogic(c.isOr, GenExpr(c.left, ids), GenExpr(c.right, ids));
  }

  // The condition of the loop is reached with an error, in this turn or a later one.
  predicate ConditionFails(w: World, ctx: Ctx, s: SStmt, st: SState, fuel: nat)
    requires s.SWhile?
    decreases fuel
  {
    fuel > 0 &&
    var (o, tr) := EvalS(w, Source, s.cond, st.env, st.trace);
    o.Failed? ||
    (o == Val(VBool(true)) &&
      var (ob, st') := LeaveS(RunBody(w, Source, ctx, s.body, SState(Push(st.env), tr), fuel));
      Resumes(ob) && ConditionFails(w, ctx, s, st', fuel - 1))
  }

  // No try is evaluated conditionally.
  predicate Unconditional(e: SExpr)
    decreases e
  {
    match e
    case SLit(_) => true
    case SIdent(_) => true
    case SCall(_, args) => UnconditionalAll(args)
    case SBin(_, l, r) => Unconditional(l) && Unconditional(r)
    case SLogic(_, l, r) => Unconditional(l) && Nodes(r) == {}
    case SIf(c, t, f) => Unconditional(c) && Nodes(t) == {} && Nodes(f) == {}
    case SRecv(ch) => Unconditional(ch)
    case STry(_, operand, _) => Unconditional(operand)
  }

  predicate UnconditionalAll(es: seq<SExpr>)
    decreases es
  {
    es == [] || (Unconditional(es[0]) && UnconditionalAll(es[1..]))
  }

  lemma {:induction false} FailsLifted(w: World, e: SExpr, env: Env, tr: Trace)
    requires Unconditional(e)
    ensures var o := EvalS(w, Source, e, env, tr).0; o.Failed? ==> !o.inPlace
    decreases e
  {
    match e
    case SCall(_, args) => FailsLiftedAll(w, args, env, tr);
    case SBin(_, l, r) =>
      FailsLifted(w, l, env, tr);
      FailsLifted(w, r, env, EvalS(w, Source, l, env, tr).1);
    case SLogic(_, l, r) =>
      FailsLifted(w, l, env, tr);
      TryFree(w, Bare, r, env, EvalS(w, Source, l, env, tr).1);
    case SIf(c, t, f) =>
      FailsLifted(w, c, env, tr);
      TryFree(w, Bare, t, env, EvalS(w, Source, c, env, tr).1);
      TryFree(w, Bare, f, env, EvalS(w, Source, c, env, tr).1);
    case SRecv(ch) => FailsLifted(w, ch, env, tr);
    case STry(_, operand, _) => FailsLifted(w, operand, env, tr);
    case SLit(_) =>
    case SIdent(_) =>
  }

  lemma {:induction false} FailsLiftedAll(w: World, es: seq<SExpr>, env: Env, tr: Trace)
    requires UnconditionalAll(es)
    ensures var o := EvalSArgs(w, Source, es, env, tr).0; o.Failed? ==> !o.inPlace
    decreases es
  {
    if es != [] {
      FailsLifted(w, es[0], env, tr);
      FailsLiftedAll(w, es[1..], env, EvalS(w, Source, es[0], env, tr).1);
    }
  }

  predicate Settled(s: SStmt)
    decreases s, 0
  {
    match s
    case SLet(_, e) => Unconditional(e)
    case SSet(_, e) => Unconditional(e)
    case SDo(e) => Unconditional(e)
    case SReturn(e) => e.Some? ==> Unconditional(e.value)
    case SIfStmt(c, t, f) => Unconditional(c) && SettledIn(t) && SettledIn(f)
    case SMatch(e, _, ok, _, err) => Unconditional(e) && SettledIn(ok) && SettledIn(err)
    case SWhile(c, body) => Nodes(c) == {} && SettledIn(body)
    case SForRange(_, a, b, body) => UnconditionalAll([a, b]) && SettledIn(body)
    case SBreak => true
    case SContinue => true
  }

  predicate SettledIn(body: seq<SStmt>)
    decreases body
  {
    body == [] || (Settled(body[0]) && SettledIn(body[1..]))
  }

  lemma {:induction false} SettledStmt(w: World, ctx: Ctx, s: SStmt, st: SState, fuel: nat)
    requires Settled(s)
    ensures !RunStmt(w, Source, ctx, s, st, fuel).0.Misplaced?
    decreases fuel, s, 1
  {
    match s
    case SReturn(e) => if e.Some? { FailsLifted(w, e.value, st.env, st.trace); }
    case SDo(e) => FailsLifted(w, e, st.env, st.trace);
    case SLet(_, e) => FailsLifted(w, e, st.env, st.trace);
    case SSet(_, e) => FailsLifted(w, e, st.env, st.trace);
    case SIfStmt(c, t, f) =>
      FailsLifted(w, c, st.env, st.trace);
      var start := SState(Push(st.env), EvalS(w, Source, c, st.env, st.trace).1);
      SettledBody(w, ctx, t, start, fuel);
      SettledBody(w, ctx, f, start, fuel);
    case SMatch(e, okName, ok, errName, err) =>
      FailsLifted(w, e, st.env, st.trace);
      var (o, tr) := EvalS(w, Source, e, st.env, st.trace);
      if o.Val? && o.v.VResult? {
        SettledBody(w, ctx, ok, SState(Cons(map[okName := o.v.payload], st.env), tr), fuel);
        SettledBody(w, ctx, err, SState(Cons(map[errName := o.v.payload], st.env), tr), fuel);
      }
    case SWhile(_, _) => SettledWhile(w, ctx, s, st, fuel);
    case SForRange(x, a, b, _) =>
      FailsLiftedAll(w, [a, b], st.env, st.trace);
      var (o, vs, tr) := EvalSArgs(w, Source, [a, b], st.env, st.trace);
      if o.Val? && |vs| == 2 && vs[1].VInt? {
        SettledRange(w, ctx, s, vs[1].n, SState(Cons(map[x := vs[0]], st.env), tr), fuel);
      }
    case SBreak =>
    case SContinue =>
  }

  lemma {:induction false} SettledBody(w: World, ctx: Ctx, body: seq<SStmt>, st: SState, fuel: nat)
    requires SettledIn(body)
    ensures !RunBody(w, Source, ctx, body, st, fuel).0.Misplaced?
    decreases fuel, body
  {
    if body != [] {
      SettledStmt(w, ctx, body[0], st, fuel);
      SettledBody(w, ctx, body[1..], RunStmt(w, Source, ctx, body[0], st, fuel).1, fuel);
    }
  }

  lemma {:induction false} SettledWhile(w: World, ctx: Ctx, s: SStmt, st: SState, fuel: nat)
    requires s.SWhile? && Settled(s)
    ensures !RunWhile(w, Source, ctx, s, st, fuel).0.Misplaced?
    decreases fuel, s, 0
  {
    if fuel > 0 {
      var (o, tr) := EvalS(w, Source, s.cond, st.env, st.trace);
      TryFree(w, Bare, s.cond, st.env, st.trace);
      var start := SState(Push(st.env), tr);
      SettledBody(w, ctx, s.body, start, fuel);
      SettledWhile(w, ctx, s, LeaveS(RunBody(w, Source, ctx, s.body, start, fuel)).1, fuel - 1);
    }
  }

  lemma {:induction false} SettledRange(w: World, ctx: Ctx, s: SStmt, end: int, st: SState, fuel: nat)
    requires s.SForRange? && Settled(s)
    ensures !RunRange(w, Source, ctx, s, end, st, fuel).0.Misplaced?
    decreases fuel, s, 0
  {
    if fuel > 0 {
      var start := SState(Push(st.env), st.trace);
      SettledBody(w, ctx, s.body, start, fuel);
      var st' := LeaveS(RunBody(w, Source, ctx, s.body, start, fuel)).1;
      var env := Bump(st'.env, s.name);
      if env.Some? { SettledRange(w, ctx, s, end, SState(env.value, st'.trace), fuel - 1); }
    }
  }

  // A failing condition ends the generated loop as if it were false, where the source leaves the function:
  // the meaning of a while loop is kept exactly if its condition is never reached with an error.
  lemma {:induction false} WhileExactly(w: World, ctx: Ctx, s: SStmt, n: nat, ids: map<nat, nat>, st: SState, temps: TempMap, fuel: nat)
    requires s.SWhile? && Deciding(s.cond) && SettledIn(s.body) && Placed(s) && NodesOf(s) !! ids.Keys
    requires RunStmt(w, Source, ctx, s, st, fuel).0 != Ended(Wrong)
    ensures Matches(ctx, RunStmt(w, Source, ctx, s, st, fuel), RunG(w, GenStmt(ctx, s, n, ids).code, GState(st.env, temps, st.trace), fuel))
            <==> !ConditionFails(w, ctx, s, st, fuel)
  {
    WhileCode(w, ctx, s, n, ids, GState(st.env, temps, st.trace), fuel);
    if ConditionFails(w, ctx, s, st, fuel) {
      FailingLoop(w, ctx, s, n, ids, st, temps, fuel);
    } else {
      SafeLoop(w, ctx, s, st, fuel);
      StmtCorrect(w, ctx, s, n, ids, st, temps, fuel);
    }
  }

  lemma {:induction false} WhileCode(w: World, ctx: Ctx, s: SStmt, n: nat, ids: map<nat, nat>, st: GState, fuel: nat)
    requires s.SWhile?
    ensures RunG(w, GenStmt(ctx, s, n, ids).code, st, fuel) == LoopG(w, GWhile(GenExpr(s.cond, ids), GenBody(ctx, s.body, n + 1, ids).code), st, fuel)
  {
    var loop := GWhile(GenExpr(s.cond, ids), GenBody(ctx, s.body, n + 1, ids).code);
    assert HoistAll(ctx, [], n, ids) == Hoisted([], n, ids) && [] + [loop] == [loop];
    RunGOne(w, loop, st, fuel);
  }

  lemma {:induction false} SafeLoop(w: World, ctx: Ctx, s: SStmt, st: SState, fuel: nat)
    requires s.SWhile? && SettledIn(s.body) && !ConditionFails(w, ctx, s, st, fuel)
    ensures !RunWhile(w, Source, ctx, s, st, fuel).0.Misplaced?
    decreases fuel
  {
    if fuel > 0 {
      var (o, tr) := EvalS(w, Source, s.cond, st.env, st.trace);
      if o == Val(VBool(true)) {
        var start := SState(Push(st.env), tr);
        SettledBody(w, ctx, s.body, start, fuel);
        var (ob, st') := LeaveS(RunBody(w, Source, ctx, s.body, start, fuel));
        if Resumes(ob) { SafeLoop(w, ctx, s, st', fuel - 1); }
      }
    }
  }

  // A condition that holds is tested by the generated loop alike.
  lemma {:induction false} ConditionHolds(w: World, c: SExpr, ids: map<nat, nat>, body: seq<GStmt>, st: GState, fuel: nat)
    requires Nodes(c) !! ids.Keys && EvalS(w, Source, c, st.env, st.trace).0 == Val(VBool(true)) && fuel > 0
    ensures var loop := GWhile(GenExpr(c, ids), body);
            var start := st.(env := Push(st.env), trace := EvalS(w, Source, c, st.env, st.trace).1);
            LoopG(w, loop, st, fuel) == LoopRest(w, loop, LeaveG(RunG(w, body, start, fuel)), fuel)
  {
    BareAgrees(w, c, st.env, st.trace);
    InPlaceEval(w, c, ids, st.env, st.temps, st.trace);
  }

  lemma {:induction false} FailingTest(w: World, ctx: Ctx, s: SStmt, ids: map<nat, nat>, body: seq<GStmt>, st: SState, temps: TempMap, fuel: nat)
    requires s.SWhile? && Deciding(s.cond) && Nodes(s.cond) !! ids.Keys && fuel > 0 && EvalS(w, Source, s.cond, st.env, st.trace).0.Failed?
    ensures RunWhile(w, Source, ctx, s, st, fuel).0.Misplaced?
    ensures LoopG(w, GWhile(GenExpr(s.cond, ids), body), GState(st.env, temps, st.trace), fuel).0 == Next
  {
    FailingDecides(w, s.cond, ids, st.env, temps, st.trace);
  }

  lemma {:induction false} FailingLoop(w: World, ctx: Ctx, s: SStmt, n: nat, ids: map<nat, nat>, st: SState, temps: TempMap, fuel: nat)
    requires s.SWhile? && Deciding(s.cond) && SettledIn(s.body) && Placed(s) && NodesOf(s) !! ids.Keys
    requires RunWhile(w, Source, ctx, s, st, fuel).0 != Ended(Wrong) && ConditionFails(w, ctx, s, st, fuel)
    ensures var loop := GWhile(GenExpr(s.cond, ids), GenBody(ctx, s.body, n + 1, ids).code);
            RunWhile(w, Source, ctx, s, st, fuel).0.Misplaced? && LoopG(w, loop, GState(st.env, temps, st.trace), fuel).0 == Next
    decreases fuel, 1
  {
    var (o, tr) := EvalS(w, Source, s.cond, st.env, st.trace);
    if o.Failed? {
      FailingTest(w, ctx, s, ids, GenBody(ctx, s.body, n + 1, ids).code, st, temps, fuel);
    } else {
      var body := GenBody(ctx, s.body, n + 1, ids).code;
      ConditionHolds(w, s.cond, ids, body, GState(st.env, temps, st.trace), fuel);
      var start := SState(Push(st.env), tr);
      var r := RunBody(w, Source, ctx, s.body, start, fuel);
      assert RunWhile(w, Source, ctx, s, st, fuel) == WhileRest(w, Source, ctx, s, LeaveS(r), fuel);
      SettledBody(w, ctx, s.body, start, fuel);
      BodyCorrect(w, ctx, s.body, n + 1, ids, start, temps, fuel);
      FailingTurn(w, ctx, s, n, ids, LeaveS(r), LeaveG(RunG(w, body, GState(start.env, temps, tr), fuel)), fuel);
    }
  }

  lemma {:induction false} FailingTurn(w: World, ctx: Ctx, s: SStmt, n: nat, ids: map<nat, nat>, r: (End, SState), g: (End, GState), fuel: nat)
    requires s.SWhile? && Deciding(s.cond) && SettledIn(s.body) && Placed(s) && NodesOf(s) !! ids.Keys && fuel > 0
    requires Matches(ctx, r, g) && Resumes(r.0) && ConditionFails(w, ctx, s, r.1, fuel - 1)
    requires WhileRest(w, Source, ctx, s, r, fuel).0 != Ended(Wrong)
    ensures var loop := GWhile(GenExpr(s.cond, ids), GenBody(ctx, s.body, n + 1, ids).code);
            WhileRest(w, Source, ctx, s, r, fuel).0.Misplaced? && LoopRest(w, loop, g, fuel).0 == Next
    decreases fuel, 0
  {
    assert g.1 == GState(r.1.env, g.1.temps, r.1.trace);
    FailingLoop(w, ctx, s, n, ids, r.1, g.1.temps, fuel - 1);
  }
}
