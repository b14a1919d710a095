/**
Hoisting preserves meaning. The guards written before a statement, followed by the rewritten
statement, do what the source does: the same calls in the same order, the same variables, and
when a try fails the same way out of the function with the error of the first one to fail.
*/
module TryCorrect {
  import opened Wrappers
  import opened Liaf
  import opened TryLang
  import opened TryHoisting

  // ----- Where a try may stand -----

  function Nodes(e: SExpr): set<nat>
    decreases e
  {
    match e
    case SLit(_) => {}
    case SIdent(_) => {}
    case SCall(_, args) => NodesAll(args)
    case SBin(_, l, r) => Nodes(l) + Nodes(r)
    case SLogic(_, l, r) => Nodes(l) + Nodes(r)
    case SIf(c, t, f) => Nodes(c) + Nodes(t) + Nodes(f)
    case SRecv(ch) => Nodes(ch)
    case STry(k, operand, _) => {k} + Nodes(operand)
  }

  function NodesAll(es: seq<SExpr>): set<nat>
    decreases es
  {
    if es == [] then {} else Nodes(es[0]) + NodesAll(es[1..])
  }

  // The tries that get a guard: those that are evaluated in any case.
  function Lifted(e: SExpr): set<nat>
    decreases e
  {
    match e
    case SLit(_) => {}
    case SIdent(_) => {}
    case SCall(_, args) => LiftedAll(args)
    case SBin(_, l, r) => Lifted(l) + Lifted(r)
    case SLogic(_, l, _) => Lifted(l)
    case SIf(c, _, _) => Lifted(c)
    case SRecv(ch) => Lifted(ch)
    case STry(k, operand, _) => {k} + Lifted(operand)
  }

  function LiftedAll(es: seq<SExpr>): set<nat>
    decreases es
  {
    if es == [] then {} else Lifted(es[0]) + LiftedAll(es[1..])
  }

  lemma {:induction false} LiftedAreNodes(e: SExpr)
    ensures Lifted(e) <= Nodes(e)
    decreases e
  {
    match e
    case SLit(_) =>
    case SIdent(_) =>
    case SCall(_, args) => LiftedAreNodesAll(args);
    case SBin(_, l, r) => LiftedAreNodes(l); LiftedAreNodes(r);
    case SLogic(_, l, _) => LiftedAreNodes(l);
    case SIf(c, _, _) => LiftedAreNodes(c);
    case SRecv(ch) => LiftedAreNodes(ch);
    case STry(_, operand, _) => LiftedAreNodes(operand);
  }

  lemma {:induction false} LiftedAreNodesAll(es: seq<SExpr>)
    ensures LiftedAll(es) <= NodesAll(es)
    decreases es
  {
    if es != [] {
      LiftedAreNodes(es[0]);
      LiftedAreNodesAll(es[1..]);
    }
  }

  // Evaluating e calls nothing and cannot abort.
  predicate Still(e: SExpr)
    decreases e
  {
    match e
    case SLit(_) => true
    case SIdent(_) => true
    case STry(_, operand, _) => Still(operand)
    case SCall(_, _) => false
    case SRecv(_) => false
    case SBin(op, l, r) => !op.Add? && !op.Sub? && !op.Mul? && !op.Div? && Still(l) && Still(r)
    case SLogic(_, l, r) => Still(l) && Still(r)
    case SIf(c, t, f) => Still(c) && Still(t) && Still(f)
  }

  // The same of what is left of e once its guarded tries have their values.
  predicate Quiet(e: SExpr)
    decreases e
  {
    match e
    case SLit(_) => true
    case SIdent(_) => true
    case STry(_, _, _) => true
    case SCall(_, _) => false
    case SRecv(_) => false
    case SBin(op, l, r) => !op.Add? && !op.Sub? && !op.Mul? && !op.Div? && Quiet(l) && Quiet(r)
    case SLogic(_, l, r) => Quiet(l) && Still(r)
    case SIf(c, t, f) => Quiet(c) && Still(t) && Still(f)
  }

  // Nothing but quiet operands before a try that is lifted; no node occurs twice.
  predicate Liftable(e: SExpr)
    decreases e
  {
    match e
    case SLit(_) => true
    case SIdent(_) => true
    case SCall(_, args) => LiftableAll(args)
    case SBin(_, l, r) => Liftable(l) && Liftable(r) && Nodes(l) !! Nodes(r) && (Lifted(r) != {} ==> Quiet(l))
    case SLogic(_, l, r) => Liftable(l) && Nodes(l) !! Nodes(r)
    case SIf(c, t, f) => Liftable(c) && Nodes(c) !! Nodes(t) + Nodes(f)
    case SRecv(ch) => Liftable(ch)
    case STry(k, operand, _) => Liftable(operand) && k !in Nodes(operand)
  }

  predicate LiftableAll(es: seq<SExpr>)
    decreases es
  {
    es == [] ||
    (Liftable(es[0]) && LiftableAll(es[1..]) && Nodes(es[0]) !! NodesAll(es[1..]) && (LiftedAll(es[1..]) != {} ==> Quiet(es[0])))
  }

  // Neither what the checker rules out, nor a try that fails where evaluation is conditional.
  predicate Proper(o: Out) { o != Stop(Wrong) && !(o.Failed? && o.inPlace) }

  predicate ProperEnd(e: End) { e != Ended(Wrong) && !e.Misplaced? }


  function Size(e: SExpr): nat
    decreases e
  {
    match e
    case SLit(_) => 1
    case SIdent(_) => 1
    case SCall(_, args) => 1 + SizeAll(args)
    case SBin(_, l, r) => 4 + Size(l) + Size(r)
    case SLogic(_, l, r) => 1 + Size(l) + Size(r)
    case SIf(c, t, f) => 1 + Size(c) + Size(t) + Size(f)
    case SRecv(ch) => 1 + Size(ch)
    case STry(_, operand, _) => 1 + Size(operand)
  }

  function SizeAll(es: seq<SExpr>): nat
    decreases es
  {
    if es == [] then 0 else 1 + Size(es[0]) + SizeAll(es[1..])
  }

  // ----- What hoisting does to the map of guarded tries -----

  ghost predicate SameOn(a: map<nat, nat>, b: map<nat, nat>, keys: set<nat>) {
    forall k :: k in keys ==> (k in a <==> k in b) && (k in a ==> a[k] == b[k])
  }

  ghost predicate GuardedWithin(ids: map<nat, nat>, keys: set<nat>, m: nat) {
    forall k :: k in keys ==> k in ids && ids[k] <= m
  }

  lemma {:induction false} GenStable(e: SExpr, a: map<nat, nat>, b: map<nat, nat>)
    requires SameOn(a, b, Nodes(e))
    ensures GenExpr(e, a) == GenExpr(e, b)
    decreases e
  {
    match e
    case SLit(_) =>
    case SIdent(_) =>
    case SCall(_, args) => GenStableAll(args, a, b);
    case SBin(_, l, r) => GenStable(l, a, b); GenStable(r, a, b);
    case SLogic(_, l, r) => GenStable(l, a, b); GenStable(r, a, b);
    case SIf(c, t, f) => GenStable(c, a, b); GenStable(t, a, b); GenStable(f, a, b);
    case SRecv(ch) => GenStable(ch, a, b);
    case STry(k, operand, _) => assert k in Nodes(e); GenStable(operand, a, b);
  }

  lemma {:induction false} GenStableAll(es: seq<SExpr>, a: map<nat, nat>, b: map<nat, nat>)
    requires SameOn(a, b, NodesAll(es))
    ensures GenArgs(es, a) == GenArgs(es, b)
    decreases es
  {
    if es != [] {
      GenStable(es[0], a, b);
      GenStableAll(es[1..], a, b);
    }
  }

  lemma {:induction false} HoistIds(ctx: Ctx, e: SExpr, n: nat, ids: map<nat, nat>)
    ensures var h := Hoist(ctx, e, n, ids);
            && (forall k :: k !in Lifted(e) ==> (k in ids <==> k in h.ids) && (k in ids ==> ids[k] == h.ids[k]))
            && (Liftable(e) ==> GuardedWithin(h.ids, Lifted(e), h.serial))
            && (Lifted(e) == {} ==> h == Hoisted([], n, ids)) && Lifted(e) <= Nodes(e)
    decreases e
  {
    LiftedAreNodes(e);
    match e
    case SLit(_) =>
    case SIdent(_) =>
    case SCall(_, args) => HoistIdsAll(ctx, args, n, ids);
    case SBin(_, l, r) =>
      HoistIds(ctx, l, n, ids);
      var a := Hoist(ctx, l, n, ids);
      HoistIds(ctx, r, a.serial, a.ids);
    case SLogic(_, l, r) => HoistIds(ctx, l, n, ids);
    case SIf(c, t, f) => HoistIds(ctx, c, n, ids);
    case SRecv(ch) => HoistIds(ctx, ch, n, ids);
    case STry(k, operand, _) =>
      HoistIds(ctx, operand, n, ids);
      assert k in Lifted(e);
  }

  lemma {:induction false} HoistIdsAll(ctx: Ctx, es: seq<SExpr>, n: nat, ids: map<nat, nat>)
    ensures var h := HoistAll(ctx, es, n, ids);
            && (forall k :: k !in LiftedAll(es) ==> (k in ids <==> k in h.ids) && (k in ids ==> ids[k] == h.ids[k]))
            && (LiftableAll(es) ==> GuardedWithin(h.ids, LiftedAll(es), h.serial))
            && (LiftedAll(es) == {} ==> h == Hoisted([], n, ids)) && LiftedAll(es) <= NodesAll(es)
    decreases es
  {
    LiftedAreNodesAll(es);
    if es != [] {
      HoistIds(ctx, es[0], n, ids);
      var a := Hoist(ctx, es[0], n, ids);
      HoistIdsAll(ctx, es[1..], a.serial, a.ids);
    }
  }

  // ----- Expressions evaluated where they stand, and quiet ones -----

  function Plain(r: (Res<Value>, Trace)): (Out, Trace) { (FromRes(r.0), r.1) }

  // Without guards a failing try gives its zero value.
  lemma {:induction false} InPlaceEval(w: World, e: SExpr, ids: map<nat, nat>, env: Env, temps: TempMap, tr: Trace)
    requires Nodes(e) !! ids.Keys
    ensures EvalS(w, Bare, e, env, tr) == Plain(EvalG(w, GenExpr(e, ids), env, temps, tr))
    decreases e
  {
    var ge := GenExpr(e, ids);
    match e
    case SLit(_) =>
    case SIdent(_) =>
    case SCall(f, args) =>
      InPlaceEvalAll(w, args, ids, env, temps, tr);
      assert ge == GCall(f, GenArgs(args, ids));
    case SBin(op, l, r) =>
      InPlaceEval(w, l, ids, env, temps, tr);
      InPlaceEval(w, r, ids, env, temps, EvalS(w, Bare, l, env, tr).1);
      assert ge == GBin(op, GenExpr(l, ids), GenExpr(r, ids));
    case SLogic(_, _, _) => InPlaceBranch(w, e, ids, env, temps, tr);
    case SIf(_, _, _) => InPlaceBranch(w, e, ids, env, temps, tr);
    case SRecv(ch) =>
      InPlaceEval(w, ch, ids, env, temps, tr);
      assert ge == GRecv(GenExpr(ch, ids));
    case STry(k, operand, zero) =>
      InPlaceEval(w, operand, ids, env, temps, tr);
      assert k in Nodes(e) && ge == GValueOf(GenExpr(operand, ids), zero);
  }

  lemma {:induction false} InPlaceBranch(w: World, e: SExpr, ids: map<nat, nat>, env: Env, temps: TempMap, tr: Trace)
    requires (e.SLogic? || e.SIf?) && Nodes(e) !! ids.Keys
    ensures EvalS(w, Bare, e, env, tr) == Plain(EvalG(w, GenExpr(e, ids), env, temps, tr))
    decreases e, 0
  {
    if e.SLogic? {
      InPlaceEval(w, e.left, ids, env, temps, tr);
      InPlaceEval(w, e.right, ids, env, temps, EvalS(w, Bare, e.left, env, tr).1);
      assert GenExpr(e, ids) == GLogic(e.isOr, GenExpr(e.left, ids), GenExpr(e.right, ids));
    } else {
      InPlaceEval(w, e.cond, ids, env, temps, tr);
      InPlaceEval(w, e.thn, ids, env, temps, EvalS(w, Bare, e.cond, env, tr).1);
      InPlaceEval(w, e.els, ids, env, temps, EvalS(w, Bare, e.cond, env, tr).1);
      assert GenExpr(e, ids) == GIf(GenExpr(e.cond, ids), GenExpr(e.thn, ids), GenExpr(e.els, ids));
    }
  }

  lemma {:induction false} InPlaceEvalAll(w: World, es: seq<SExpr>, ids: map<nat, nat>, env: Env, temps: TempMap, tr: Trace)
    requires NodesAll(es) !! ids.Keys
    ensures var (r, tr') := EvalGArgs(w, GenArgs(es, ids), env, temps, tr);
            var (o, vs, trs) := EvalSArgs(w, Bare, es, env, tr);
            trs == tr' && (if r.Ok? then o.Val? && vs == r.v else o == Stop(r.why))
    decreases es
  {
    if es != [] {
      InPlaceEval(w, es[0], ids, env, temps, tr);
      InPlaceEvalAll(w, es[1..], ids, env, temps, EvalS(w, Bare, es[0], env, tr).1);
      var ges := GenArgs(es, ids);
      assert ges[0] == GenExpr(es[0], ids) && ges[1..] == GenArgs(es[1..], ids);
    }
  }

  // Where no try is lifted, none has a guard.
  lemma {:induction false} NoneLifted(w: World, e: SExpr, env: Env, tr: Trace)
    requires Lifted(e) == {}
    ensures EvalS(w, Guarded, e, env, tr) == EvalS(w, Bare, e, env, tr)
    decreases e
  {
    match e
    case SCall(_, args) => NoneLiftedAll(w, args, env, tr);
    case SBin(_, l, r) =>
      NoneLifted(w, l, env, tr);
      NoneLifted(w, r, env, EvalS(w, Bare, l, env, tr).1);
    case SLogic(_, l, _) => NoneLifted(w, l, env, tr);
    case SIf(c, _, _) => NoneLifted(w, c, env, tr);
    case SRecv(ch) => NoneLifted(w, ch, env, tr);
    case SLit(_) =>
    case SIdent(_) =>
    case STry(_, _, _) => assert false;
  }

  lemma {:induction false} NoneLiftedAll(w: World, es: seq<SExpr>, env: Env, tr: Trace)
    requires LiftedAll(es) == {}
    ensures EvalSArgs(w, Guarded, es, env, tr) == EvalSArgs(w, Bare, es, env, tr)
    decreases es
  {
    if es != [] {
      NoneLifted(w, es[0], env, tr);
      NoneLiftedAll(w, es[1..], env, EvalS(w, Bare, es[0], env, tr).1);
    }
  }

  lemma {:induction false} StillEval(w: World, e: SExpr, ids: map<nat, nat>, env: Env, a: TempMap, b: TempMap, tr1: Trace, tr2: Trace)
    requires Still(e) && Nodes(e) !! ids.Keys
    ensures var (r, tr') := EvalG(w, GenExpr(e, ids), env, a, tr1);
            && tr' == tr1 && (r.Ok? || r == Halt(Wrong))
            && EvalG(w, GenExpr(e, ids), env, b, tr2) == (r, tr2)
    decreases e
  {
    var ge := GenExpr(e, ids);
    match e
    case SLit(_) =>
    case SIdent(_) =>
    case STry(k, operand, zero) =>
      StillEval(w, operand, ids, env, a, b, tr1, tr2);
      assert k in Nodes(e) && ge == GValueOf(GenExpr(operand, ids), zero);
    case SBin(op, l, r) =>
      StillEval(w, l, ids, env, a, b, tr1, tr2);
      StillEval(w, r, ids, env, a, b, tr1, tr2);
      assert ge == GBin(op, GenExpr(l, ids), GenExpr(r, ids));
    case SLogic(isOr, l, r) =>
      StillEval(w, l, ids, env, a, b, tr1, tr2);
      StillEval(w, r, ids, env, a, b, tr1, tr2);
      assert ge == GLogic(isOr, GenExpr(l, ids), GenExpr(r, ids));
    case SIf(_, _, _) => StillIf(w, e, ids, env, a, b, tr1, tr2);
  }

  lemma {:induction false} StillIf(w: World, e: SExpr, ids: map<nat, nat>, env: Env, a: TempMap, b: TempMap, tr1: Trace, tr2: Trace)
    requires e.SIf? && Still(e) && Nodes(e) !! ids.Keys
    ensures var (r, tr') := EvalG(w, GenExpr(e, ids), env, a, tr1);
            && tr' == tr1 && (r.Ok? || r == Halt(Wrong))
            && EvalG(w, GenExpr(e, ids), env, b, tr2) == (r, tr2)
    decreases e, 0
  {
    StillEval(w, e.cond, ids, env, a, b, tr1, tr2);
    StillEval(w, e.thn, ids, env, a, b, tr1, tr2);
    StillEval(w, e.els, ids, env, a, b, tr1, tr2);
    assert GenExpr(e, ids) == GIf(GenExpr(e.cond, ids), GenExpr(e.thn, ids), GenExpr(e.els, ids));
  }

  ghost predicate AgreeUpTo(a: TempMap, b: TempMap, m: nat) {
    forall k: nat :: k <= m ==> (k in a <==> k in b) && (k in a ==> a[k] == b[k])
  }

  lemma {:induction false} QuietEval(w: World, e: SExpr, ids: map<nat, nat>, m: nat, env: Env, a: TempMap, b: TempMap, tr1: Trace, tr2: Trace)
    requires Quiet(e) && Liftable(e) && GuardedWithin(ids, Lifted(e), m) && (Nodes(e) - Lifted(e)) !! ids.Keys && AgreeUpTo(a, b, m)
    ensures var (r, tr') := EvalG(w, GenExpr(e, ids), env, a, tr1);
            && tr' == tr1 && (r.Ok? || r == Halt(Wrong))
            && EvalG(w, GenExpr(e, ids), env, b, tr2) == (r, tr2)
    decreases e, 1
  {
    var ge := GenExpr(e, ids);
    match e
    case SLit(_) =>
    case SIdent(_) =>
    case STry(k, _, _) =>
      assert k in Lifted(e) && ge == GTempValue(ids[k]);
    case SBin(op, l, r) =>
      LiftedAreNodes(l);
      LiftedAreNodes(r);
      QuietEval(w, l, ids, m, env, a, b, tr1, tr2);
      QuietEval(w, r, ids, m, env, a, b, tr1, tr2);
      assert ge == GBin(op, GenExpr(l, ids), GenExpr(r, ids));
    case SLogic(_, _, _) => QuietLogic(w, e, ids, m, env, a, b, tr1, tr2);
    case SIf(_, _, _) => QuietIf(w, e, ids, m, env, a, b, tr1, tr2);
  }

  lemma {:induction false} QuietLogic(w: World, e: SExpr, ids: map<nat, nat>, m: nat, env: Env, a: TempMap, b: TempMap, tr1: Trace, tr2: Trace)
    requires e.SLogic? && Quiet(e) && Liftable(e) && GuardedWithin(ids, Lifted(e), m) && (Nodes(e) - Lifted(e)) !! ids.Keys && AgreeUpTo(a, b, m)
    ensures var (r, tr') := EvalG(w, GenExpr(e, ids), env, a, tr1);
            && tr' == tr1 && (r.Ok? || r == Halt(Wrong))
            && EvalG(w, GenExpr(e, ids), env, b, tr2) == (r, tr2)
    decreases e, 0
  {
    LiftedAreNodes(e.left);
    QuietEval(w, e.left, ids, m, env, a, b, tr1, tr2);
    StillEval(w, e.right, ids, env, a, b, tr1, tr2);
    assert GenExpr(e, ids) == GLogic(e.isOr, GenExpr(e.left, ids), GenExpr(e.right, ids));
  }

  lemma {:induction false} QuietIf(w: World, e: SExpr, ids: map<nat, nat>, m: nat, env: Env, a: TempMap, b: TempMap, tr1: Trace, tr2: Trace)
    requires e.SIf? && Quiet(e) && Liftable(e) && GuardedWithin(ids, Lifted(e), m) && (Nodes(e) - Lifted(e)) !! ids.Keys && AgreeUpTo(a, b, m)
    ensures var (r, tr') := EvalG(w, GenExpr(e, ids), env, a, tr1);
            && tr' == tr1 && (r.Ok? || r == Halt(Wrong))
            && EvalG(w, GenExpr(e, ids), env, b, tr2) == (r, tr2)
    decreases e, 0
  {
    LiftedAreNodes(e.cond);
    QuietEval(w, e.cond, ids, m, env, a, b, tr1, tr2);
    StillEval(w, e.thn, ids, env, a, b, tr1, tr2);
    StillEval(w, e.els, ids, env, a, b, tr1, tr2);
    assert GenExpr(e, ids) == GIf(GenExpr(e.cond, ids), GenExpr(e.thn, ids), GenExpr(e.els, ids));
  }

  // ----- Guards first, then what is left of the expression -----

  // Every guard passed: variables untouched, older temporaries too.
  ghost predicate Passed(g: (End, GState), st: GState, n: nat) {
    g.0 == Next && g.1.env == st.env && AgreeUpTo(st.temps, g.1.temps, n)
  }

  ghost predicate TwoPhase(w: World, ctx: Ctx, src: (Out, Trace), g: (End, GState), ge: GExpr, st: GState, n: nat) {
    match src.0
    case Val(v) => Passed(g, st, n) && EvalG(w, ge, st.env, g.1.temps, g.1.trace) == (Ok(v), src.1)
    case Failed(error, _) => g.0 == Escape(ctx, error) && g.1.trace == src.1
    case Stop(why) =>
      || (g.0 == Ended(why) && g.1.trace == src.1)
      || (Passed(g, st, n) && EvalG(w, ge, st.env, g.1.temps, g.1.trace) == (Halt(why), src.1))
  }

  ghost predicate TwoPhaseAll(w: World, ctx: Ctx, src: (Out, seq<Value>, Trace), g: (End, GState), ges: seq<GExpr>, st: GState, n: nat) {
    match src.0
    case Val(_) => Passed(g, st, n) && EvalGArgs(w, ges, st.env, g.1.temps, g.1.trace) == (Ok(src.1), src.2)
    case Failed(error, _) => g.0 == Escape(ctx, error) && g.1.trace == src.2
    case Stop(why) =>
      || (g.0 == Ended(why) && g.1.trace == src.2)
      || (Passed(g, st, n) && EvalGArgs(w, ges, st.env, g.1.temps, g.1.trace) == (Halt(why), src.2))
  }

  lemma {:induction false} HoistPhases(w: World, ctx: Ctx, e: SExpr, n: nat, ids: map<nat, nat>, st: GState, fuel: nat)
    requires Liftable(e) && Nodes(e) !! ids.Keys
    requires EvalS(w, Guarded, e, st.env, st.trace).0 != Stop(Wrong)
    ensures var h := Hoist(ctx, e, n, ids);
            TwoPhase(w, ctx, EvalS(w, Guarded, e, st.env, st.trace), RunG(w, h.code, st, fuel), GenExpr(e, h.ids), st, n)
    decreases Size(e), 1
  {
    match e
    case SLit(_) =>
    case SIdent(_) =>
    case SCall(_, _) => CallPhases(w, ctx, e, n, ids, st, fuel);
    case SRecv(_) => RecvPhases(w, ctx, e, n, ids, st, fuel);
    case SBin(_, _, _) => BinPhases(w, ctx, e, n, ids, st, fuel);
    case SLogic(_, _, _) => LogicPhases(w, ctx, e, n, ids, st, fuel);
    case SIf(_, _, _) => IfPhases(w, ctx, e, n, ids, st, fuel);
    case STry(_, _, _) => TryPhases(w, ctx, e, n, ids, st, fuel);
  }

  lemma {:induction false} CallPhases(w: World, ctx: Ctx, e: SExpr, n: nat, ids: map<nat, nat>, st: GState, fuel: nat)
    requires e.SCall? && Liftable(e) && Nodes(e) !! ids.Keys
    requires EvalS(w, Guarded, e, st.env, st.trace).0 != Stop(Wrong)
    ensures var h := Hoist(ctx, e, n, ids);
            TwoPhase(w, ctx, EvalS(w, Guarded, e, st.env, st.trace), RunG(w, h.code, st, fuel), GenExpr(e, h.ids), st, n)
    decreases Size(e), 0
  {
    HoistAllPhases(w, ctx, e.args, n, ids, st, fuel);
    var h := Hoist(ctx, e, n, ids);
    assert GenExpr(e, h.ids) == GCall(e.func, GenArgs(e.args, h.ids));
  }

  lemma {:induction false} RecvPhases(w: World, ctx: Ctx, e: SExpr, n: nat, ids: map<nat, nat>, st: GState, fuel: nat)
    requires e.SRecv? && Liftable(e) && Nodes(e) !! ids.Keys
    requires EvalS(w, Guarded, e, st.env, st.trace).0 != Stop(Wrong)
    ensures var h := Hoist(ctx, e, n, ids);
            TwoPhase(w, ctx, EvalS(w, Guarded, e, st.env, st.trace), RunG(w, h.code, st, fuel), GenExpr(e, h.ids), st, n)
    decreases Size(e), 0
  {
    HoistPhases(w, ctx, e.chan, n, ids, st, fuel);
    var h := Hoist(ctx, e, n, ids);
    assert GenExpr(e, h.ids) == GRecv(GenExpr(e.chan, h.ids));
  }

  lemma {:induction false} TryHoisted(ctx: Ctx, e: SExpr, n: nat, ids: map<nat, nat>)
    requires e.STry?
    ensures var (a, h) := (Hoist(ctx, e.operand, n, ids), Hoist(ctx, e, n, ids));
            h.code == a.code + [GGuard(a.serial + 1, GenExpr(e.operand, a.ids), LeavingOf(ctx))] && GenExpr(e, h.ids) == GTempValue(a.serial + 1)
  {}

  lemma {:induction false} TryPhases(w: World, ctx: Ctx, e: SExpr, n: nat, ids: map<nat, nat>, st: GState, fuel: nat)
    requires e.STry? && Liftable(e) && Nodes(e) !! ids.Keys
    requires EvalS(w, Guarded, e, st.env, st.trace).0 != Stop(Wrong)
    ensures var h := Hoist(ctx, e, n, ids);
            TwoPhase(w, ctx, EvalS(w, Guarded, e, st.env, st.trace), RunG(w, h.code, st, fuel), GenExpr(e, h.ids), st, n)
    decreases Size(e), 0
  {
    HoistPhases(w, ctx, e.operand, n, ids, st, fuel);
    var src := EvalS(w, Guarded, e, st.env, st.trace);
    assert src == EvalS(w, Guarded, STry(0, e.operand, VNone), st.env, st.trace);
    GuardPhases(w, ctx, e.operand, n, ids, st, fuel);
    TryHoisted(ctx, e, n, ids);
  }

  lemma {:induction false} LogicPhases(w: World, ctx: Ctx, e: SExpr, n: nat, ids: map<nat, nat>, st: GState, fuel: nat)
    requires e.SLogic? && Liftable(e) && Nodes(e) !! ids.Keys
    requires EvalS(w, Guarded, e, st.env, st.trace).0 != Stop(Wrong)
    ensures var h := Hoist(ctx, e, n, ids);
            TwoPhase(w, ctx, EvalS(w, Guarded, e, st.env, st.trace), RunG(w, h.code, st, fuel), GenExpr(e, h.ids), st, n)
    decreases Size(e), 0
  {
    HoistPhases(w, ctx, e.left, n, ids, st, fuel);
    HoistIds(ctx, e.left, n, ids);
    var h := Hoist(ctx, e.left, n, ids);
    LogicTail(w, ctx, e, RunG(w, h.code, st, fuel), h.ids, st, n);
  }

  lemma {:induction false} IfPhases(w: World, ctx: Ctx, e: SExpr, n: nat, ids: map<nat, nat>, st: GState, fuel: nat)
    requires e.SIf? && Liftable(e) && Nodes(e) !! ids.Keys
    requires EvalS(w, Guarded, e, st.env, st.trace).0 != Stop(Wrong)
    ensures var h := Hoist(ctx, e, n, ids);
            TwoPhase(w, ctx, EvalS(w, Guarded, e, st.env, st.trace), RunG(w, h.code, st, fuel), GenExpr(e, h.ids), st, n)
    decreases Size(e), 0
  {
    HoistPhases(w, ctx, e.cond, n, ids, st, fuel);
    HoistIds(ctx, e.cond, n, ids);
    var h := Hoist(ctx, e.cond, n, ids);
    IfTail(w, ctx, e, RunG(w, h.code, st, fuel), h.ids, st, n);
  }

  // What is conditional follows the residue of what decides about it, where it stands.
  lemma {:induction false} LogicTail(w: World, ctx: Ctx, e: SExpr, g: (End, GState), ids: map<nat, nat>, st: GState, n: nat)
    requires e.SLogic? && Nodes(e.right) !! ids.Keys && EvalS(w, Guarded, e, st.env, st.trace).0 != Stop(Wrong)
    requires TwoPhase(w, ctx, EvalS(w, Guarded, e.left, st.env, st.trace), g, GenExpr(e.left, ids), st, n)
    ensures TwoPhase(w, ctx, EvalS(w, Guarded, e, st.env, st.trace), g, GenExpr(e, ids), st, n)
  {
    var (a, tr) := EvalS(w, Guarded, e.left, st.env, st.trace);
    assert GenExpr(e, ids) == GLogic(e.isOr, GenExpr(e.left, ids), GenExpr(e.right, ids));
    if a == Val(VBool(!e.isOr)) {
      InPlaceEval(w, e.right, ids, st.env, g.1.temps, tr);
      assert EvalS(w, Guarded, e, st.env, st.trace) == EvalS(w, Bare, e.right, st.env, tr);
      assert EvalG(w, GenExpr(e, ids), st.env, g.1.temps, g.1.trace) == EvalG(w, GenExpr(e.right, ids), st.env, g.1.temps, tr);
    }
  }

  lemma {:induction false} IfTail(w: World, ctx: Ctx, e: SExpr, g: (End, GState), ids: map<nat, nat>, st: GState, n: nat)
    requires e.SIf? && (Nodes(e.thn) + Nodes(e.els)) !! ids.Keys && EvalS(w, Guarded, e, st.env, st.trace).0 != Stop(Wrong)
    requires TwoPhase(w, ctx, EvalS(w, Guarded, e.cond, st.env, st.trace), g, GenExpr(e.cond, ids), st, n)
    ensures TwoPhase(w, ctx, EvalS(w, Guarded, e, st.env, st.trace), g, GenExpr(e, ids), st, n)
  {
    var (src0, src) := (EvalS(w, Guarded, e.cond, st.env, st.trace), EvalS(w, Guarded, e, st.env, st.trace));
    var (ge0, ge) := (GenExpr(e.cond, ids), GIf(GenExpr(e.cond, ids), GenExpr(e.thn, ids), GenExpr(e.els, ids)));
    assert GenExpr(e, ids) == ge;
    if src0.0.Val? { ArmTail(w, e, src0.0.v, src0.1, ids, st.env, g.1.temps, g.1.trace); }
    GoesOn(w, ctx, src0, src, g, ge0, ge, st, n);
  }

  // The arm that is taken, wherever the condition was evaluated.
  lemma {:induction false} ArmTail(w: World, e: SExpr, c: Value, tr: Trace, ids: map<nat, nat>, env: Env, temps: TempMap, tr0: Trace)
    requires e.SIf? && (Nodes(e.thn) + Nodes(e.els)) !! ids.Keys && c.VBool?
    requires EvalG(w, GenExpr(e.cond, ids), env, temps, tr0) == (Ok(c), tr)
    ensures var src := Conditional(EvalS(w, Bare, if c.b then e.thn else e.els, env, tr));
            Plain(EvalG(w, GIf(GenExpr(e.cond, ids), GenExpr(e.thn, ids), GenExpr(e.els, ids)), env, temps, tr0)) == src
  {
    InPlaceEval(w, if c.b then e.thn else e.els, ids, env, temps, tr);
  }

  // What is evaluated after the residue of a part goes on from it.
  lemma {:induction false} GoesOn(w: World, ctx: Ctx, src0: (Out, Trace), src: (Out, Trace), g: (End, GState), ge0: GExpr, ge: GExpr, st: GState, n: nat)
    requires TwoPhase(w, ctx, src0, g, ge0, st, n) && src.0 != Stop(Wrong)
    requires !src0.0.Val? ==> src == src0
    requires var r0 := EvalG(w, ge0, st.env, g.1.temps, g.1.trace); r0.0.Halt? ==> EvalG(w, ge, st.env, g.1.temps, g.1.trace) == r0
    requires src0.0.Val? ==> !src.0.Failed? && Plain(EvalG(w, ge, st.env, g.1.temps, g.1.trace)) == src
    ensures TwoPhase(w, ctx, src, g, ge, st, n)
  {}

  lemma {:induction false} RunGSnoc(w: World, code: seq<GStmt>, last: GStmt, st: GState, fuel: nat)
    ensures var g := RunG(w, code, st, fuel);
            RunG(w, code + [last], st, fuel) == if g.0 == Next then StepG(w, last, g.1, fuel) else g
  {
    RunGAppend(w, code, [last], st, fuel);
    RunGOne(w, last, RunG(w, code, st, fuel).1, fuel);
  }

  // A lifted try, once its operand has been evaluated.
  function TriedOut(r: (Out, Trace)): (Out, Trace) {
    if !r.0.Val? then r else
    (if !r.0.v.VResult? then Stop(Wrong) else if r.0.v.ok then Val(r.0.v.payload) else Failed(r.0.v.payload, false), r.1)
  }

  lemma {:induction false} GuardTail(w: World, ctx: Ctx, src: (Out, Trace), g: (End, GState), ge: GExpr, id: nat, st: GState, n: nat, fuel: nat)
    requires TwoPhase(w, ctx, src, g, ge, st, n) && TriedOut(src).0 != Stop(Wrong) && n < id
    ensures var tried := TriedOut(src);
            var r := if g.0 == Next then StepG(w, GGuard(id, ge, LeavingOf(ctx)), g.1, fuel) else g;
            && TwoPhase(w, ctx, tried, r, GTempValue(id), st, n)
            && (tried.0.Stop? ==> r.0 == Ended(tried.0.why) && r.1.trace == tried.1)
            && (tried.0.Val? ==> r.1.trace == tried.1)
  {}

  // The guard of a try behind the guards of its operand.
  lemma {:induction false} GuardPhases(w: World, ctx: Ctx, operand: SExpr, n: nat, ids: map<nat, nat>, st: GState, fuel: nat)
    requires var h := Hoist(ctx, operand, n, ids);
             TwoPhase(w, ctx, EvalS(w, Guarded, operand, st.env, st.trace), RunG(w, h.code, st, fuel), GenExpr(operand, h.ids), st, n)
    requires EvalS(w, Guarded, STry(0, operand, VNone), st.env, st.trace).0 != Stop(Wrong)
    ensures var h := Hoist(ctx, operand, n, ids);
            var guard := GGuard(h.serial + 1, GenExpr(operand, h.ids), LeavingOf(ctx));
            var src := EvalS(w, Guarded, STry(0, operand, VNone), st.env, st.trace);
            var g := RunG(w, h.code + [guard], st, fuel);
            && TwoPhase(w, ctx, src, g, GTempValue(h.serial + 1), st, n)
            && (src.0.Stop? ==> g.0 == Ended(src.0.why) && g.1.trace == src.1)
            && (src.0.Val? ==> g.1.trace == src.1)
  {
    var h := Hoist(ctx, operand, n, ids);
    var ge := GenExpr(operand, h.ids);
    var guard := GGuard(h.serial + 1, ge, LeavingOf(ctx));
    var src, g := EvalS(w, Guarded, operand, st.env, st.trace), RunG(w, h.code, st, fuel);
    assert EvalS(w, Guarded, STry(0, operand, VNone), st.env, st.trace) == TriedOut(src);
    RunGSnoc(w, h.code, guard, st, fuel);
    GuardTail(w, ctx, src, g, ge, h.serial + 1, st, n, fuel);
  }

  lemma {:induction false} HoistAllPhases(w: World, ctx: Ctx, es: seq<SExpr>, n: nat, ids: map<nat, nat>, st: GState, fuel: nat)
    requires LiftableAll(es) && NodesAll(es) !! ids.Keys
    requires EvalSArgs(w, Guarded, es, st.env, st.trace).0 != Stop(Wrong)
    ensures var h := HoistAll(ctx, es, n, ids);
            TwoPhaseAll(w, ctx, EvalSArgs(w, Guarded, es, st.env, st.trace), RunG(w, h.code, st, fuel), GenArgs(es, h.ids), st, n)
    decreases SizeAll(es), 2
  {
    if es != [] {
      HoistPhases(w, ctx, es[0], n, ids, st, fuel);
      if LiftedAll(es[1..]) == {} { PlainPhases(w, ctx, es, n, ids, st, fuel); } else { QuietPhases(w, ctx, es, n, ids, st, fuel); }
    }
  }

  // Only the head has guards.
  lemma {:induction false} PlainPhases(w: World, ctx: Ctx, es: seq<SExpr>, n: nat, ids: map<nat, nat>, st: GState, fuel: nat)
    requires es != [] && LiftableAll(es) && NodesAll(es) !! ids.Keys && LiftedAll(es[1..]) == {}
    requires var h := Hoist(ctx, es[0], n, ids);
             TwoPhase(w, ctx, EvalS(w, Guarded, es[0], st.env, st.trace), RunG(w, h.code, st, fuel), GenExpr(es[0], h.ids), st, n)
    ensures var h := HoistAll(ctx, es, n, ids);
            TwoPhaseAll(w, ctx, EvalSArgs(w, Guarded, es, st.env, st.trace), RunG(w, h.code, st, fuel), GenArgs(es, h.ids), st, n)
  {
    var e, rest := es[0], es[1..];
    var ha := Hoist(ctx, e, n, ids);
    var hb := HoistAll(ctx, rest, ha.serial, ha.ids);
    HoistIds(ctx, e, n, ids);
    HoistIdsAll(ctx, rest, ha.serial, ha.ids);
    GenStable(e, ha.ids, hb.ids);
    assert ha.code + hb.code == ha.code;
    var g := RunG(w, ha.code, st, fuel);
    var (a, tr1) := EvalS(w, Guarded, e, st.env, st.trace);
    if a.Val? { PlainRest(w, rest, hb.ids, st.env, g.1.temps, tr1); }
    PlainTail(w, ctx, es, n, st, g, ha.ids, hb.ids);
  }

  // The rest has guards too, and the head is quiet.
  lemma {:induction false} QuietPhases(w: World, ctx: Ctx, es: seq<SExpr>, n: nat, ids: map<nat, nat>, st: GState, fuel: nat)
    requires es != [] && LiftableAll(es) && NodesAll(es) !! ids.Keys && LiftedAll(es[1..]) != {}
    requires EvalSArgs(w, Guarded, es, st.env, st.trace).0 != Stop(Wrong)
    requires var h := Hoist(ctx, es[0], n, ids);
             TwoPhase(w, ctx, EvalS(w, Guarded, es[0], st.env, st.trace), RunG(w, h.code, st, fuel), GenExpr(es[0], h.ids), st, n)
    ensures var h := HoistAll(ctx, es, n, ids);
            TwoPhaseAll(w, ctx, EvalSArgs(w, Guarded, es, st.env, st.trace), RunG(w, h.code, st, fuel), GenArgs(es, h.ids), st, n)
    decreases SizeAll(es), 1
  {
    var e, rest := es[0], es[1..];
    var ha := Hoist(ctx, e, n, ids);
    var hb := HoistAll(ctx, rest, ha.serial, ha.ids);
    HoistIds(ctx, e, n, ids);
    HoistIdsAll(ctx, rest, ha.serial, ha.ids);
    GenStable(e, ha.ids, hb.ids);
    RunGAppend(w, ha.code, hb.code, st, fuel);
    var (oa, st1) := RunG(w, ha.code, st, fuel);
    var (a, tr1) := EvalS(w, Guarded, e, st.env, st.trace);
    if oa == Next {
      QuietEval(w, e, ha.ids, ha.serial, st.env, st1.temps, st1.temps, st1.trace, st1.trace);
    }
    if a.Val? {
      HoistAllPhases(w, ctx, rest, ha.serial, ha.ids, st1, fuel);
      var (ob, st2) := RunG(w, hb.code, st1, fuel);
      if ob == Next {
        QuietEval(w, e, ha.ids, ha.serial, st.env, st1.temps, st2.temps, st1.trace, st2.trace);
      }
      QuietHead(w, ctx, es, n, ha.serial, a.v, st, st1, (ob, st2), ha.ids, hb.ids);
    }
  }

  lemma {:induction false} PlainRest(w: World, es: seq<SExpr>, ids: map<nat, nat>, env: Env, temps: TempMap, tr: Trace)
    requires LiftedAll(es) == {} && NodesAll(es) !! ids.Keys && LiftableAll(es)
    ensures var (r, tr') := EvalGArgs(w, GenArgs(es, ids), env, temps, tr);
            var (o, vs, trs) := EvalSArgs(w, Guarded, es, env, tr);
            trs == tr' && (if r.Ok? then o.Val? && vs == r.v else o == Stop(r.why))
  {
    NoneLiftedAll(w, es, env, tr);
    InPlaceEvalAll(w, es, ids, env, temps, tr);
  }

  // No try of the rest is lifted: its operands follow the residue of the head in source order.
  lemma {:induction false} PlainTail(w: World, ctx: Ctx, es: seq<SExpr>, n: nat, st: GState, g: (End, GState), ia: map<nat, nat>, ib: map<nat, nat>)
    requires es != [] && GenExpr(es[0], ia) == GenExpr(es[0], ib)
    requires TwoPhase(w, ctx, EvalS(w, Guarded, es[0], st.env, st.trace), g, GenExpr(es[0], ia), st, n)
    requires EvalS(w, Guarded, es[0], st.env, st.trace).0.Val? ==>
               var (r, tr) := EvalGArgs(w, GenArgs(es[1..], ib), st.env, g.1.temps, EvalS(w, Guarded, es[0], st.env, st.trace).1);
               var (o, vs, trs) := EvalSArgs(w, Guarded, es[1..], st.env, EvalS(w, Guarded, es[0], st.env, st.trace).1);
               trs == tr && (if r.Ok? then o.Val? && vs == r.v else o == Stop(r.why))
    ensures TwoPhaseAll(w, ctx, EvalSArgs(w, Guarded, es, st.env, st.trace), g, GenArgs(es, ib), st, n)
  {
    var ges := GenArgs(es, ib);
    assert ges[0] == GenExpr(es[0], ia) && ges[1..] == GenArgs(es[1..], ib);
  }

  // The head is quiet: its residue means the same behind the guards of the rest.
  lemma {:induction false} QuietHead(w: World, ctx: Ctx, es: seq<SExpr>, n: nat, m: nat, v: Value, st: GState, st1: GState, g: (End, GState), ia: map<nat, nat>, ib: map<nat, nat>)
    requires es != [] && n <= m && GenExpr(es[0], ia) == GenExpr(es[0], ib)
    requires EvalS(w, Guarded, es[0], st.env, st.trace) == (Val(v), st1.trace)
    requires Passed((Next, st1), st, n)
    requires TwoPhaseAll(w, ctx, EvalSArgs(w, Guarded, es[1..], st.env, st1.trace), g, GenArgs(es[1..], ib), st1, m)
    requires g.0 == Next ==> EvalG(w, GenExpr(es[0], ia), st.env, g.1.temps, g.1.trace) == (Ok(v), g.1.trace)
    ensures TwoPhaseAll(w, ctx, EvalSArgs(w, Guarded, es, st.env, st.trace), g, GenArgs(es, ib), st, n)
  {
    var ges := GenArgs(es, ib);
    assert ges[0] == GenExpr(es[0], ia) && ges[1..] == GenArgs(es[1..], ib);
  }

  lemma {:induction false} Single(e: SExpr)
    ensures NodesAll([e]) == Nodes(e) && LiftableAll([e]) == Liftable(e) && SizeAll([e]) == 1 + Size(e)
  {
    assert [e][1..] == [] && NodesAll([]) == {} && LiftableAll([]) && SizeAll([]) == 0;
  }

  lemma {:induction false} PairHoisted(ctx: Ctx, e: SExpr, n: nat, ids: map<nat, nat>)
    requires e.SBin?
    ensures var (es, h) := ([e.left, e.right], Hoist(ctx, e, n, ids));
            && HoistAll(ctx, es, n, ids) == h
            && GenArgs(es, h.ids) == [GenExpr(e.left, h.ids), GenExpr(e.right, h.ids)]
            && NodesAll(es) == Nodes(e) && LiftableAll(es) == Liftable(e) && SizeAll(es) == 2 + Size(e.left) + Size(e.right)
  {
    var l, r := e.left, e.right;
    assert [l, r][1..] == [r];
    Single(r);
    LiftedSingle(r);
    var a := Hoist(ctx, l, n, ids);
    HoistSingle(ctx, r, a.serial, a.ids);
    var ids' := Hoist(ctx, e, n, ids).ids;
    assert [r][1..] == [] && GenArgs([r], ids') == [GenExpr(r, ids')] + GenArgs([], ids');
  }

  lemma {:induction false} LiftedSingle(e: SExpr)
    ensures LiftedAll([e]) == Lifted(e)
  {
    assert [e][1..] == [] && LiftedAll([]) == {};
  }

  // A binary operator is its two operands, evaluated like arguments.
  lemma {:induction false} BinPhases(w: World, ctx: Ctx, e: SExpr, n: nat, ids: map<nat, nat>, st: GState, fuel: nat)
    requires e.SBin? && Liftable(e) && Nodes(e) !! ids.Keys
    requires EvalS(w, Guarded, e, st.env, st.trace).0 != Stop(Wrong)
    ensures var h := Hoist(ctx, e, n, ids);
            TwoPhase(w, ctx, EvalS(w, Guarded, e, st.env, st.trace), RunG(w, h.code, st, fuel), GenExpr(e, h.ids), st, n)
    decreases Size(e), 0
  {
    PairHoisted(ctx, e, n, ids);
    PairSource(w, Guarded, e.left, e.right, st.env, st.trace);
    HoistAllPhases(w, ctx, [e.left, e.right], n, ids, st, fuel);
    var h := Hoist(ctx, e, n, ids);
    var g := RunG(w, h.code, st, fuel);
    PairArgs(w, GenExpr(e.left, h.ids), GenExpr(e.right, h.ids), st.env, g.1.temps, g.1.trace);
  }

  lemma {:induction false} PairSource(w: World, m: Mode, a: SExpr, b: SExpr, env: Env, tr: Trace)
    ensures var x := EvalS(w, m, a, env, tr);
            var y := EvalS(w, m, b, env, x.1);
            var all := EvalSArgs(w, m, [a, b], env, tr);
            if !x.0.Val? then all.0 == x.0 && all.2 == x.1
            else if !y.0.Val? then all.0 == y.0 && all.2 == y.1
            else all.0.Val? && all.1 == [x.0.v, y.0.v] && all.2 == y.1
  {
    assert [a, b][1..] == [b] && [b][1..] == [];
    var x := EvalS(w, m, a, env, tr);
    if x.0.Val? {
      var y := EvalS(w, m, b, env, x.1);
      assert EvalSArgs(w, m, [], env, y.1) == (Val(VNone), [], y.1);
      if y.0.Val? {
        assert EvalSArgs(w, m, [b], env, x.1) == (Val(VNone), [y.0.v] + [], y.1);
      }
    }
  }

  lemma {:induction false} PairArgs(w: World, a: GExpr, b: GExpr, env: Env, temps: TempMap, tr: Trace)
    ensures var (x, tr1) := EvalG(w, a, env, temps, tr);
            EvalGArgs(w, [a, b], env, temps, tr) ==
            if x.Halt? then (Halt(x.why), tr1) else
            var (y, tr2) := EvalG(w, b, env, temps, tr1);
            if y.Halt? then (Halt(y.why), tr2) else (Ok([x.v, y.v]), tr2)
  {
    assert [a, b][1..] == [b] && [b][1..] == [];
    var (x, tr1) := EvalG(w, a, env, temps, tr);
    if x.Ok? {
      var (y, tr2) := EvalG(w, b, env, temps, tr1);
      assert EvalGArgs(w, [], env, temps, tr2) == (Ok([]), tr2);
      if y.Ok? {
        assert [y.v] + [] == [y.v] && [x.v] + [y.v] == [x.v, y.v];
      }
      assert EvalGArgs(w, [b], env, temps, tr1) == if y.Halt? then (Halt(y.why), tr2) else (Ok([y.v]), tr2);
    }
  }

  // ----- Statements -----

  function NodesOf(s: SStmt): set<nat>
    decreases s, 0
  {
    match s
    case SLet(_, e) => Nodes(e)
    case SSet(_, e) => Nodes(e)
    case SDo(e) => Nodes(e)
    case SReturn(e) => if e.Some? then Nodes(e.value) else {}
    case SIfStmt(c, t, f) => Nodes(c) + NodesIn(t) + NodesIn(f)
    case SMatch(e, _, ok, _, err) => Nodes(e) + NodesIn(ok) + NodesIn(err)
    case SWhile(c, body) => Nodes(c) + NodesIn(body)
    case SForRange(_, a, b, body) => Nodes(a) + Nodes(b) + NodesIn(body)
    case SBreak => {}
    case SContinue => {}
  }

  function NodesIn(body: seq<SStmt>): set<nat>
    decreases body
  {
    if body == [] then {} else NodesOf(body[0]) + NodesIn(body[1..])
  }

  // Every try stands where it may.
  predicate Placed(s: SStmt)
    decreases s, 0
  {
    match s
    case SLet(_, e) => Liftable(e)
    case SSet(_, e) => Liftable(e)
    case SDo(e) => Liftable(e)
    case SReturn(e) => e.Some? ==> Liftable(e.value)
    case SIfStmt(c, t, f) =>
      Liftable(c) && PlacedIn(t) && PlacedIn(f) && Nodes(c) !! NodesIn(t) && Nodes(c) + NodesIn(t) !! NodesIn(f)
    case SMatch(e, _, ok, _, err) =>
      Liftable(e) && PlacedIn(ok) && PlacedIn(err) && Nodes(e) !! NodesIn(ok) && Nodes(e) + NodesIn(ok) !! NodesIn(err)
    case SWhile(c, body) => Nodes(c) !! NodesIn(body) && PlacedIn(body)
    case SForRange(_, a, b, body) => LiftableAll([a, b]) && PlacedIn(body) && NodesAll([a, b]) !! NodesIn(body)
    case SBreak => true
    case SContinue => true
  }

  predicate PlacedIn(body: seq<SStmt>)
    decreases body
  {
    body == [] || (Placed(body[0]) && PlacedIn(body[1..]) && NodesOf(body[0]) !! NodesIn(body[1..]))
  }

  ghost predicate Matches(ctx: Ctx, src: (End, SState), tgt: (End, GState)) {
    && tgt.0 == Meaning(ctx, src.0) && tgt.1.trace == src.1.trace
    && (src.0 == Next || src.0 == Broken || src.0 == Continuing ==> tgt.1.env == src.1.env)
  }

  lemma {:induction false} HoistSingle(ctx: Ctx, e: SExpr, n: nat, ids: map<nat, nat>)
    ensures HoistAll(ctx, [e], n, ids) == Hoist(ctx, e, n, ids)
  {
    var h := Hoist(ctx, e, n, ids);
    assert [e][1..] == [] && h.code + [] == h.code;
    assert HoistAll(ctx, [], h.serial, h.ids) == Hoisted([], h.serial, h.ids);
  }

  lemma {:induction false} PairNodes(a: SExpr, b: SExpr)
    ensures NodesAll([a, b]) == Nodes(a) + Nodes(b)
  {
    assert [a, b][1..] == [b];
    Single(b);
  }

  // Generating code adds no try to the map but its own.
  ghost predicate OnlyAdds(ids: map<nat, nat>, ids': map<nat, nat>, keys: set<nat>) {
    ids'.Keys <= ids.Keys + keys
  }

  lemma {:induction false} HeaderIds(ctx: Ctx, s: SStmt, n: nat, ids: map<nat, nat>)
    ensures OnlyAdds(ids, HoistAll(ctx, StmtExprs(s), n, ids).ids, NodesAll(StmtExprs(s)))
    ensures NodesAll(StmtExprs(s)) <= NodesOf(s)
  {
    HoistIdsAll(ctx, StmtExprs(s), n, ids);
    match s
    case SLet(_, e) => Single(InnerOfTopTry(e));
    case SSet(_, e) => Single(InnerOfTopTry(e));
    case SDo(e) => Single(InnerOfTopTry(e));
    case SReturn(e) => if e.Some? { Single(e.value); }
    case SIfStmt(c, _, _) => Single(c);
    case SMatch(e, _, _, _, _) => Single(e);
    case SForRange(_, a, b, _) => PairNodes(a, b);
    case SWhile(_, _) =>
    case SBreak =>
    case SContinue =>
  }

  lemma {:induction false} StmtIds(ctx: Ctx, s: SStmt, n: nat, ids: map<nat, nat>)
    ensures OnlyAdds(ids, GenStmt(ctx, s, n, ids).ids, NodesOf(s))
    decreases s, 0
  {
    HeaderIds(ctx, s, n, ids);
    var h := HoistAll(ctx, StmtExprs(s), n, ids);
    match s
    case SIfStmt(_, t, f) =>
      BodyIds(ctx, t, h.serial, h.ids);
      var bt := GenBody(ctx, t, h.serial, h.ids);
      BodyIds(ctx, f, bt.serial, bt.ids);
    case SMatch(_, _, ok, _, err) =>
      BodyIds(ctx, ok, h.serial + 1, h.ids);
      var bo := GenBody(ctx, ok, h.serial + 1, h.ids);
      BodyIds(ctx, err, bo.serial, bo.ids);
    case SWhile(_, body) => BodyIds(ctx, body, h.serial + 1, h.ids);
    case SForRange(_, _, _, body) => BodyIds(ctx, body, h.serial + 1, h.ids);
    case SLet(_, _) =>
    case SSet(_, _) =>
    case SDo(_) =>
    case SReturn(_) =>
    case SBreak =>
    case SContinue =>
  }

  lemma {:induction false} BodyIds(ctx: Ctx, body: seq<SStmt>, n: nat, ids: map<nat, nat>)
    ensures OnlyAdds(ids, GenBody(ctx, body, n, ids).ids, NodesIn(body))
    decreases body
  {
    if body != [] {
      StmtIds(ctx, body[0], n, ids);
      var s := GenStmt(ctx, body[0], n, ids);
      BodyIds(ctx, body[1..], s.serial, s.ids);
    }
  }

  // The theorem for a body: whatever the world answers, the generated code does what the source does.
  lemma {:induction false} BodyRuns(w: World, ctx: Ctx, body: seq<SStmt>, n: nat, ids: map<nat, nat>, st: SState, temps: TempMap, fuel: nat)
    requires PlacedIn(body) && NodesIn(body) !! ids.Keys
    requires RunBody(w, Guarded, ctx, body, st, fuel).0 != Ended(Wrong)
    ensures Matches(ctx, RunBody(w, Guarded, ctx, body, st, fuel), RunG(w, GenBody(ctx, body, n, ids).code, GState(st.env, temps, st.trace), fuel))
    decreases fuel, body, 0
  {
    if body != [] {
      var s := GenStmt(ctx, body[0], n, ids);
      var rest := GenBody(ctx, body[1..], s.serial, s.ids);
      var g := GState(st.env, temps, st.trace);
      StmtRuns(w, ctx, body[0], n, ids, st, temps, fuel);
      StmtIds(ctx, body[0], n, ids);
      RunGAppend(w, s.code, rest.code, g, fuel);
      var (o, st') := RunStmt(w, Guarded, ctx, body[0], st, fuel);
      var (og, g') := RunG(w, s.code, g, fuel);
      if o == Next {
        assert g' == GState(st'.env, g'.temps, st'.trace);
        BodyRuns(w, ctx, body[1..], s.serial, s.ids, st', g'.temps, fuel);
      }
    }
  }

  lemma {:induction false} StmtRuns(w: World, ctx: Ctx, s: SStmt, n: nat, ids: map<nat, nat>, st: SState, temps: TempMap, fuel: nat)
    requires Placed(s) && NodesOf(s) !! ids.Keys
    requires RunStmt(w, Guarded, ctx, s, st, fuel).0 != Ended(Wrong)
    ensures Matches(ctx, RunStmt(w, Guarded, ctx, s, st, fuel), RunG(w, GenStmt(ctx, s, n, ids).code, GState(st.env, temps, st.trace), fuel))
    decreases fuel, s, 4
  {
    if s.SIfStmt? { IfRuns(w, ctx, s, n, ids, st, temps, fuel); }
    else if s.SMatch? { MatchRuns(w, ctx, s, n, ids, st, temps, fuel); }
    else if s.SWhile? { WhileRuns(w, ctx, s, n, ids, st, temps, fuel); }
    else if s.SForRange? { ForRangeRuns(w, ctx, s, n, ids, st, temps, fuel); }
    else { PlainRuns(w, ctx, s, n, ids, st, temps, fuel); }
  }

  // The statements without a block.
  lemma {:induction false} PlainRuns(w: World, ctx: Ctx, s: SStmt, n: nat, ids: map<nat, nat>, st: SState, temps: TempMap, fuel: nat)
    requires !s.SIfStmt? && !s.SMatch? && !s.SWhile? && !s.SForRange? && Placed(s) && NodesOf(s) !! ids.Keys
    requires RunStmt(w, Guarded, ctx, s, st, fuel).0 != Ended(Wrong)
    ensures Matches(ctx, RunStmt(w, Guarded, ctx, s, st, fuel), RunG(w, GenStmt(ctx, s, n, ids).code, GState(st.env, temps, st.trace), fuel))
  {
    var g := GState(st.env, temps, st.trace);
    match s
    case SBreak => RunGOne(w, GBreak, g, fuel);
    case SContinue => RunGOne(w, GContinue, g, fuel);
    case SReturn(e) =>
      if e.None? { RunGOne(w, GReturn(None), g, fuel); } else { SimpleRuns(w, ctx, s, e.value, n, ids, st, temps, fuel); }
    case SLet(_, e) => ValueRuns(w, ctx, s, e, n, ids, st, temps, fuel);
    case SSet(_, e) => ValueRuns(w, ctx, s, e, n, ids, st, temps, fuel);
    case SDo(e) => ValueRuns(w, ctx, s, e, n, ids, st, temps, fuel);
  }

  lemma {:induction false} LastLineRuns(w: World, ctx: Ctx, s: SStmt, e: SExpr, ge: GExpr, g: (End, GState), n: nat, st: SState, temps: TempMap, fuel: nat)
    requires s == SReturn(Some(e)) || (s.SLet? && s.value == e) || (s.SSet? && s.value == e) || s == SDo(e)
    requires TwoPhase(w, ctx, EvalS(w, Guarded, e, st.env, st.trace), g, ge, GState(st.env, temps, st.trace), n)
    requires RunStmt(w, Guarded, ctx, s, st, fuel).0 != Ended(Wrong)
    ensures Matches(ctx, RunStmt(w, Guarded, ctx, s, st, fuel), if g.0 == Next then StepG(w, LastLine(s, ge), g.1, fuel) else g)
  {}

  // No try on top of a let, set or expression.
  lemma {:induction false} SimpleRuns(w: World, ctx: Ctx, s: SStmt, e: SExpr, n: nat, ids: map<nat, nat>, st: SState, temps: TempMap, fuel: nat)
    requires s == SReturn(Some(e)) || (((s.SLet? && s.value == e) || (s.SSet? && s.value == e) || s == SDo(e)) && !e.STry?)
    requires Liftable(e) && Nodes(e) !! ids.Keys
    requires RunStmt(w, Guarded, ctx, s, st, fuel).0 != Ended(Wrong)
    ensures Matches(ctx, RunStmt(w, Guarded, ctx, s, st, fuel), RunG(w, GenStmt(ctx, s, n, ids).code, GState(st.env, temps, st.trace), fuel))
  {
    var g := GState(st.env, temps, st.trace);
    HoistSingle(ctx, e, n, ids);
    var h := Hoist(ctx, e, n, ids);
    var last := LastLine(s, GenExpr(e, h.ids));
    assert StmtExprs(s) == [e];
    assert GenStmt(ctx, s, n, ids).code == h.code + [last];
    HoistPhases(w, ctx, e, n, ids, g, fuel);
    RunGSnoc(w, h.code, last, g, fuel);
    LastLineRuns(w, ctx, s, e, GenExpr(e, h.ids), RunG(w, h.code, g, fuel), n, st, temps, fuel);
  }

  lemma {:induction false} TopTryRuns(w: World, ctx: Ctx, s: SStmt, e: SExpr, n: nat, ids: map<nat, nat>, st: SState, temps: TempMap, fuel: nat)
    requires ((s.SLet? && s.value == e) || (s.SSet? && s.value == e) || s == SDo(e)) && e.STry?
    requires Liftable(e) && Nodes(e) !! ids.Keys
    requires RunStmt(w, Guarded, ctx, s, st, fuel).0 != Ended(Wrong)
    ensures Matches(ctx, RunStmt(w, Guarded, ctx, s, st, fuel), RunG(w, GenStmt(ctx, s, n, ids).code, GState(st.env, temps, st.trace), fuel))
  {
    var g := GState(st.env, temps, st.trace);
    var op := e.operand;
    HoistSingle(ctx, op, n, ids);
    var h := Hoist(ctx, op, n, ids);
    var top := TopGuard(ctx, h, op);
    assert StmtExprs(s) == [op];
    assert EvalS(w, Guarded, e, st.env, st.trace) == EvalS(w, Guarded, STry(0, op, VNone), st.env, st.trace);
    HoistPhases(w, ctx, op, n, ids, g, fuel);
    GuardPhases(w, ctx, op, n, ids, g, fuel);
    TopTryEnds(w, ctx, s, e, n, ids, h, st, temps, fuel);
  }

  lemma {:induction false} TopTryCode(ctx: Ctx, s: SStmt, e: SExpr, n: nat, ids: map<nat, nat>)
    requires ((s.SLet? && s.value == e) || (s.SSet? && s.value == e) || s == SDo(e)) && e.STry?
    requires HoistAll(ctx, StmtExprs(s), n, ids) == Hoist(ctx, e.operand, n, ids)
    ensures var top := TopGuard(ctx, Hoist(ctx, e.operand, n, ids), e.operand);
            GenStmt(ctx, s, n, ids).code == if s.SDo? then top.code else top.code + [LastLine(s, GTempValue(top.serial))]
  {}

  lemma {:induction false} TopTryEnds(w: World, ctx: Ctx, s: SStmt, e: SExpr, n: nat, ids: map<nat, nat>, h: Hoisted, st: SState, temps: TempMap, fuel: nat)
    requires ((s.SLet? && s.value == e) || (s.SSet? && s.value == e) || s == SDo(e)) && e.STry?
    requires h == Hoist(ctx, e.operand, n, ids) && HoistAll(ctx, StmtExprs(s), n, ids) == h
    requires var src := EvalS(w, Guarded, e, st.env, st.trace);
             var g := RunG(w, TopGuard(ctx, h, e.operand).code, GState(st.env, temps, st.trace), fuel);
             && TwoPhase(w, ctx, src, g, GTempValue(h.serial + 1), GState(st.env, temps, st.trace), n)
             && (src.0.Stop? ==> g.0 == Ended(src.0.why) && g.1.trace == src.1)
             && (src.0.Val? ==> g.1.trace == src.1)
    requires RunStmt(w, Guarded, ctx, s, st, fuel).0 != Ended(Wrong)
    ensures Matches(ctx, RunStmt(w, Guarded, ctx, s, st, fuel), RunG(w, GenStmt(ctx, s, n, ids).code, GState(st.env, temps, st.trace), fuel))
  {
    var g := GState(st.env, temps, st.trace);
    var top := TopGuard(ctx, h, e.operand);
    TopTryCode(ctx, s, e, n, ids);
    if !s.SDo? {
      var last := LastLine(s, GTempValue(top.serial));
      RunGSnoc(w, top.code, last, g, fuel);
      LastLineRuns(w, ctx, s, e, GTempValue(top.serial), RunG(w, top.code, g, fuel), n, st, temps, fuel);
    }
  }

  lemma {:induction false} ValueRuns(w: World, ctx: Ctx, s: SStmt, e: SExpr, n: nat, ids: map<nat, nat>, st: SState, temps: TempMap, fuel: nat)
    requires (s.SLet? && s.value == e) || (s.SSet? && s.value == e) || s == SDo(e)
    requires Liftable(e) && Nodes(e) !! ids.Keys
    requires RunStmt(w, Guarded, ctx, s, st, fuel).0 != Ended(Wrong)
    ensures Matches(ctx, RunStmt(w, Guarded, ctx, s, st, fuel), RunG(w, GenStmt(ctx, s, n, ids).code, GState(st.env, temps, st.trace), fuel))
  {
    if e.STry? { TopTryRuns(w, ctx, s, e, n, ids, st, temps, fuel); } else { SimpleRuns(w, ctx, s, e, n, ids, st, temps, fuel); }
  }

  // The guards of a statement with one header, and its last part.
  lemma {:induction false} HeaderRuns(w: World, ctx: Ctx, e: SExpr, n: nat, ids: map<nat, nat>, last: GStmt, g: GState, fuel: nat)
    requires Liftable(e) && Nodes(e) !! ids.Keys && EvalS(w, Guarded, e, g.env, g.trace).0 != Stop(Wrong)
    ensures var h := Hoist(ctx, e, n, ids);
            var r := RunG(w, h.code, g, fuel);
            && HoistAll(ctx, [e], n, ids) == h
            && RunG(w, h.code + [last], g, fuel) == (if r.0 == Next then StepG(w, last, r.1, fuel) else r)
            && TwoPhase(w, ctx, EvalS(w, Guarded, e, g.env, g.trace), r, GenExpr(e, h.ids), g, n)
  {
    HoistSingle(ctx, e, n, ids);
    HoistPhases(w, ctx, e, n, ids, g, fuel);
    RunGSnoc(w, Hoist(ctx, e, n, ids).code, last, g, fuel);
  }

  lemma {:induction false} IfRuns(w: World, ctx: Ctx, s: SStmt, n: nat, ids: map<nat, nat>, st: SState, temps: TempMap, fuel: nat)
    requires s.SIfStmt? && Placed(s) && NodesOf(s) !! ids.Keys
    requires RunStmt(w, Guarded, ctx, s, st, fuel).0 != Ended(Wrong)
    ensures Matches(ctx, RunStmt(w, Guarded, ctx, s, st, fuel), RunG(w, GenStmt(ctx, s, n, ids).code, GState(st.env, temps, st.trace), fuel))
    decreases fuel, s, 3
  {
    var g := GState(st.env, temps, st.trace);
    HeaderIds(ctx, s, n, ids);
    Single(s.cond);
    var h := Hoist(ctx, s.cond, n, ids);
    var bt := GenBody(ctx, s.thn, h.serial, h.ids);
    var bf := GenBody(ctx, s.els, bt.serial, bt.ids);
    var last := GIfStmt(GenExpr(s.cond, h.ids), bt.code, bf.code);
    HeaderRuns(w, ctx, s.cond, n, ids, last, g, fuel);
    assert GenStmt(ctx, s, n, ids).code == h.code + [last];
    var r := RunG(w, h.code, g, fuel);
    var (o, tr) := EvalS(w, Guarded, s.cond, st.env, st.trace);
    if o.Val? {
      BodyIds(ctx, s.thn, h.serial, h.ids);
      if o.v.b {
        BodyRuns(w, ctx, s.thn, h.serial, h.ids, SState(Push(st.env), tr), r.1.temps, fuel);
      } else {
        BodyRuns(w, ctx, s.els, bt.serial, bt.ids, SState(Push(st.env), tr), r.1.temps, fuel);
      }
    }
    IfEnds(w, ctx, s, last, r, n, st, temps, fuel);
  }

  lemma {:induction false} IfEnds(w: World, ctx: Ctx, s: SStmt, last: GStmt, r: (End, GState), n: nat, st: SState, temps: TempMap, fuel: nat)
    requires s.SIfStmt? && last.GIfStmt? && RunStmt(w, Guarded, ctx, s, st, fuel).0 != Ended(Wrong)
    requires TwoPhase(w, ctx, EvalS(w, Guarded, s.cond, st.env, st.trace), r, last.cond, GState(st.env, temps, st.trace), n)
    requires var (o, tr) := EvalS(w, Guarded, s.cond, st.env, st.trace);
             o.Val? && o.v.VBool? ==>
               Matches(ctx, RunBody(w, Guarded, ctx, if o.v.b then s.thn else s.els, SState(Push(st.env), tr), fuel),
                       RunG(w, if o.v.b then last.thn else last.els, GState(Push(st.env), r.1.temps, tr), fuel))
    ensures Matches(ctx, RunStmt(w, Guarded, ctx, s, st, fuel), if r.0 == Next then StepG(w, last, r.1, fuel) else r)
  {
    var (o, tr) := EvalS(w, Guarded, s.cond, st.env, st.trace);
    if o.Val? { assert EvalG(w, last.cond, r.1.env, r.1.temps, r.1.trace) == (Ok(o.v), tr) && r.1.env == st.env; }
  }

  lemma {:induction false} MatchRuns(w: World, ctx: Ctx, s: SStmt, n: nat, ids: map<nat, nat>, st: SState, temps: TempMap, fuel: nat)
    requires s.SMatch? && Placed(s) && NodesOf(s) !! ids.Keys
    requires RunStmt(w, Guarded, ctx, s, st, fuel).0 != Ended(Wrong)
    ensures Matches(ctx, RunStmt(w, Guarded, ctx, s, st, fuel), RunG(w, GenStmt(ctx, s, n, ids).code, GState(st.env, temps, st.trace), fuel))
    decreases fuel, s, 3
  {
    var g := GState(st.env, temps, st.trace);
    var h := Hoist(ctx, s.value, n, ids);
    var last := MatchLine(ctx, s, n, ids);
    HeaderRuns(w, ctx, s.value, n, ids, last, g, fuel);
    var r := RunG(w, h.code, g, fuel);
    var (o, tr) := EvalS(w, Guarded, s.value, st.env, st.trace);
    if o.Val? { ArmRuns(w, ctx, s, n, ids, o.v, SState(st.env, tr), r.1.temps, fuel); }
    MatchEnds(w, ctx, s, last, r, n, st, temps, fuel);
  }

  function MatchLine(ctx: Ctx, s: SStmt, n: nat, ids: map<nat, nat>): (g: GStmt)
    requires s.SMatch?
    ensures g.GMatch? && GenStmt(ctx, s, n, ids).code == HoistAll(ctx, [s.value], n, ids).code + [g]
  {
    HoistSingle(ctx, s.value, n, ids);
    var h := Hoist(ctx, s.value, n, ids);
    var bo := GenBody(ctx, s.ok, h.serial + 1, h.ids);
    var be := GenBody(ctx, s.err, bo.serial, bo.ids);
    GMatch(GenExpr(s.value, h.ids), s.okName, bo.code, s.errName, be.code)
  }

  lemma {:induction false} ArmRuns(w: World, ctx: Ctx, s: SStmt, n: nat, ids: map<nat, nat>, v: Value, st: SState, temps: TempMap, fuel: nat)
    requires s.SMatch? && Placed(s) && NodesOf(s) !! ids.Keys && v.VResult?
    requires RunBody(w, Guarded, ctx, if v.ok then s.ok else s.err, Arm(s, v, st.env, st.trace), fuel).0 != Ended(Wrong)
    ensures var last := MatchLine(ctx, s, n, ids);
            var start := Arm(s, v, st.env, st.trace);
            Matches(ctx, RunBody(w, Guarded, ctx, if v.ok then s.ok else s.err, start, fuel),
                    RunG(w, if v.ok then last.ok else last.err, GState(start.env, temps, start.trace), fuel))
    decreases fuel, s, 2
  {
    var h := Hoist(ctx, s.value, n, ids);
    var bo := GenBody(ctx, s.ok, h.serial + 1, h.ids);
    ArmIds(ctx, s, n, ids);
    if v.ok {
      BodyRuns(w, ctx, s.ok, h.serial + 1, h.ids, Arm(s, v, st.env, st.trace), temps, fuel);
    } else {
      BodyRuns(w, ctx, s.err, bo.serial, bo.ids, Arm(s, v, st.env, st.trace), temps, fuel);
    }
  }

  // Where the arm of a match starts.
  function Arm(s: SStmt, v: Value, env: Env, tr: Trace): SState
    requires s.SMatch? && v.VResult?
  {
    SState(Cons(map[if v.ok then s.okName else s.errName := v.payload], env), tr)
  }

  lemma {:induction false} MatchEnds(w: World, ctx: Ctx, s: SStmt, last: GStmt, r: (End, GState), n: nat, st: SState, temps: TempMap, fuel: nat)
    requires s.SMatch? && last.GMatch? && last.okName == s.okName && last.errName == s.errName
    requires RunStmt(w, Guarded, ctx, s, st, fuel).0 != Ended(Wrong)
    requires TwoPhase(w, ctx, EvalS(w, Guarded, s.value, st.env, st.trace), r, last.value, GState(st.env, temps, st.trace), n)
    requires var (o, tr) := EvalS(w, Guarded, s.value, st.env, st.trace);
             o.Val? && o.v.VResult? ==>
               var start := Arm(s, o.v, st.env, tr);
               Matches(ctx, RunBody(w, Guarded, ctx, if o.v.ok then s.ok else s.err, start, fuel),
                       RunG(w, if o.v.ok then last.ok else last.err, GState(start.env, r.1.temps, tr), fuel))
    ensures Matches(ctx, RunStmt(w, Guarded, ctx, s, st, fuel), if r.0 == Next then StepG(w, last, r.1, fuel) else r)
  {
    var (o, tr) := EvalS(w, Guarded, s.value, st.env, st.trace);
    if o.Val? { assert EvalG(w, last.value, r.1.env, r.1.temps, r.1.trace) == (Ok(o.v), tr) && r.1.env == st.env; }
  }

  // The tries of the arms have no guard before the arms are written.
  lemma {:induction false} ArmIds(ctx: Ctx, s: SStmt, n: nat, ids: map<nat, nat>)
    requires s.SMatch? && Placed(s) && NodesOf(s) !! ids.Keys
    ensures var h := Hoist(ctx, s.value, n, ids);
            NodesIn(s.ok) !! h.ids.Keys && NodesIn(s.err) !! GenBody(ctx, s.ok, h.serial + 1, h.ids).ids.Keys
  {
    HeaderIds(ctx, s, n, ids);
    HoistSingle(ctx, s.value, n, ids);
    Single(s.value);
    var h := Hoist(ctx, s.value, n, ids);
    assert NodesIn(s.ok) !! h.ids.Keys && NodesIn(s.err) !! h.ids.Keys + NodesIn(s.ok);
    BodyIds(ctx, s.ok, h.serial + 1, h.ids);
  }

  lemma {:induction false} WhileRuns(w: World, ctx: Ctx, s: SStmt, n: nat, ids: map<nat, nat>, st: SState, temps: TempMap, fuel: nat)
    requires s.SWhile? && Placed(s) && NodesOf(s) !! ids.Keys
    requires RunStmt(w, Guarded, ctx, s, st, fuel).0 != Ended(Wrong)
    ensures Matches(ctx, RunStmt(w, Guarded, ctx, s, st, fuel), RunG(w, GenStmt(ctx, s, n, ids).code, GState(st.env, temps, st.trace), fuel))
    decreases fuel, s, 3
  {
    var b := GenBody(ctx, s.body, n + 1, ids);
    var loop := GWhile(GenExpr(s.cond, ids), b.code);
    assert HoistAll(ctx, [], n, ids) == Hoisted([], n, ids) && [] + [loop] == [loop];
    RunGOne(w, loop, GState(st.env, temps, st.trace), fuel);
    LoopRuns(w, ctx, s, n, ids, st, temps, fuel);
  }

  lemma {:induction false} LoopRuns(w: World, ctx: Ctx, s: SStmt, n: nat, ids: map<nat, nat>, st: SState, temps: TempMap, fuel: nat)
    requires s.SWhile? && Placed(s) && NodesOf(s) !! ids.Keys
    requires RunWhile(w, Guarded, ctx, s, st, fuel).0 != Ended(Wrong)
    ensures var loop := GWhile(GenExpr(s.cond, ids), GenBody(ctx, s.body, n + 1, ids).code);
            Matches(ctx, RunWhile(w, Guarded, ctx, s, st, fuel), LoopG(w, loop, GState(st.env, temps, st.trace), fuel))
    decreases fuel, s, 2
  {
    if fuel > 0 {
      InPlaceEval(w, s.cond, ids, st.env, temps, st.trace);
      var (o, tr) := EvalS(w, Bare, s.cond, st.env, st.trace);
      if o.Val? && o.v.b {
        var start := SState(Push(st.env), tr);
        var body := GenBody(ctx, s.body, n + 1, ids).code;
        BodyRuns(w, ctx, s.body, n + 1, ids, start, temps, fuel);
        var r, g := LeaveS(RunBody(w, Guarded, ctx, s.body, start, fuel)), LeaveG(RunG(w, body, GState(start.env, temps, tr), fuel));
        LoopUnfolds(w, ctx, s, GWhile(GenExpr(s.cond, ids), body), st, temps, fuel);
        LoopTurn(w, ctx, s, n, ids, r, g, fuel);
      }
    }
  }

  // What the loops do after one run of their bodies.
  function WhileRest(w: World, m: Mode, ctx: Ctx, s: SStmt, r: (End, SState), fuel: nat): (End, SState)
    requires s.SWhile? && fuel > 0
  {
    if Resumes(r.0) then RunWhile(w, m, ctx, s, r.1, fuel - 1) else (AfterLoop(r.0), r.1)
  }

  function LoopRest(w: World, c: GStmt, r: (End, GState), fuel: nat): (End, GState)
    requires c.GWhile? && fuel > 0
  {
    if Resumes(r.0) then LoopG(w, c, r.1, fuel - 1) else (AfterLoop(r.0), r.1)
  }

  lemma {:induction false} LoopUnfolds(w: World, ctx: Ctx, s: SStmt, loop: GStmt, st: SState, temps: TempMap, fuel: nat)
    requires s.SWhile? && loop.GWhile? && fuel > 0 && EvalS(w, Bare, s.cond, st.env, st.trace).0 == Val(VBool(true))
    requires EvalS(w, Bare, s.cond, st.env, st.trace) == Plain(EvalG(w, loop.cond, st.env, temps, st.trace))
    ensures var (env, tr) := (Push(st.env), EvalS(w, Bare, s.cond, st.env, st.trace).1);
            && RunWhile(w, Guarded, ctx, s, st, fuel) == WhileRest(w, Guarded, ctx, s, LeaveS(RunBody(w, Guarded, ctx, s.body, SState(env, tr), fuel)), fuel)
            && LoopG(w, loop, GState(st.env, temps, st.trace), fuel) == LoopRest(w, loop, LeaveG(RunG(w, loop.body, GState(env, temps, tr), fuel)), fuel)
  {}

  lemma {:induction false} LoopTurn(w: World, ctx: Ctx, s: SStmt, n: nat, ids: map<nat, nat>, r: (End, SState), g: (End, GState), fuel: nat)
    requires s.SWhile? && Placed(s) && NodesOf(s) !! ids.Keys && fuel > 0
    requires Matches(ctx, r, g) && WhileRest(w, Guarded, ctx, s, r, fuel).0 != Ended(Wrong)
    ensures var loop := GWhile(GenExpr(s.cond, ids), GenBody(ctx, s.body, n + 1, ids).code);
            Matches(ctx, WhileRest(w, Guarded, ctx, s, r, fuel), LoopRest(w, loop, g, fuel))
    decreases fuel, s, 1
  {
    if Resumes(r.0) {
      assert g.1 == GState(r.1.env, g.1.temps, r.1.trace);
      LoopRuns(w, ctx, s, n, ids, r.1, g.1.temps, fuel - 1);
    }
  }

  lemma {:induction false} ForRangeRuns(w: World, ctx: Ctx, s: SStmt, n: nat, ids: map<nat, nat>, st: SState, temps: TempMap, fuel: nat)
    requires s.SForRange? && Placed(s) && NodesOf(s) !! ids.Keys
    requires RunStmt(w, Guarded, ctx, s, st, fuel).0 != Ended(Wrong)
    ensures Matches(ctx, RunStmt(w, Guarded, ctx, s, st, fuel), RunG(w, GenStmt(ctx, s, n, ids).code, GState(st.env, temps, st.trace), fuel))
    decreases fuel, s, 3
  {
    var g := GState(st.env, temps, st.trace);
    var es := [s.start, s.end];
    var h := HoistAll(ctx, es, n, ids);
    var last := RangeLine(ctx, s, n, ids);
    BoundIds(ctx, s, n, ids);
    HeaderAllRuns(w, ctx, es, n, ids, last, g, fuel);
    var r := RunG(w, h.code, g, fuel);
    if EvalSArgs(w, Guarded, es, st.env, st.trace).0.Val? { FromBounds(w, ctx, s, n, ids, st, r.1.temps, fuel); }
    RangeEnds(w, ctx, s, last, r, n, st, temps, fuel);
  }

  lemma {:induction false} FromBounds(w: World, ctx: Ctx, s: SStmt, n: nat, ids: map<nat, nat>, st: SState, temps: TempMap, fuel: nat)
    requires s.SForRange? && Placed(s) && NodesOf(s) !! ids.Keys
    requires RunStmt(w, Guarded, ctx, s, st, fuel).0 != Ended(Wrong) && EvalSArgs(w, Guarded, [s.start, s.end], st.env, st.trace).0.Val?
    ensures var (_, vs, tr) := EvalSArgs(w, Guarded, [s.start, s.end], st.env, st.trace);
            |vs| == 2 && vs[0].VInt? && vs[1].VInt? &&
            var start := Cons(map[s.name := vs[0]], st.env);
            Matches(ctx, RunRange(w, Guarded, ctx, s, vs[1].n, SState(start, tr), fuel),
                    RangeG(w, RangeLine(ctx, s, n, ids), vs[1].n, GState(start, temps, tr), fuel))
    decreases fuel, s, 2, 1
  {
    var h := HoistAll(ctx, [s.start, s.end], n, ids);
    var last := RangeLine(ctx, s, n, ids);
    BoundIds(ctx, s, n, ids);
    var (o, vs, tr) := EvalSArgs(w, Guarded, [s.start, s.end], st.env, st.trace);
    RangeRuns(w, ctx, s, h.serial, h.ids, vs[1].n, last.start, last.end, SState(Cons(map[s.name := vs[0]], st.env), tr), temps, fuel);
  }

  lemma {:induction false} HeaderAllRuns(w: World, ctx: Ctx, es: seq<SExpr>, n: nat, ids: map<nat, nat>, last: GStmt, g: GState, fuel: nat)
    requires LiftableAll(es) && NodesAll(es) !! ids.Keys
    requires EvalSArgs(w, Guarded, es, g.env, g.trace).0 != Stop(Wrong)
    ensures var h := HoistAll(ctx, es, n, ids);
            var r := RunG(w, h.code, g, fuel);
            && TwoPhaseAll(w, ctx, EvalSArgs(w, Guarded, es, g.env, g.trace), r, GenArgs(es, h.ids), g, n)
            && RunG(w, h.code + [last], g, fuel) == if r.0 == Next then StepG(w, last, r.1, fuel) else r
  {
    HoistAllPhases(w, ctx, es, n, ids, g, fuel);
    RunGSnoc(w, HoistAll(ctx, es, n, ids).code, last, g, fuel);
  }

  function RangeLine(ctx: Ctx, s: SStmt, n: nat, ids: map<nat, nat>): (g: GStmt)
    requires s.SForRange?
    ensures g.GForRange? && GenStmt(ctx, s, n, ids).code == HoistAll(ctx, [s.start, s.end], n, ids).code + [g]
  {
    var h := HoistAll(ctx, [s.start, s.end], n, ids);
    GForRange(s.name, GenExpr(s.start, h.ids), GenExpr(s.end, h.ids), GenBody(ctx, s.body, h.serial + 1, h.ids).code)
  }

  lemma {:induction false} RangeEnds(w: World, ctx: Ctx, s: SStmt, last: GStmt, r: (End, GState), n: nat, st: SState, temps: TempMap, fuel: nat)
    requires s.SForRange? && last.GForRange? && last.name == s.name && RunStmt(w, Guarded, ctx, s, st, fuel).0 != Ended(Wrong)
    requires TwoPhaseAll(w, ctx, EvalSArgs(w, Guarded, [s.start, s.end], st.env, st.trace), r, [last.start, last.end], GState(st.env, temps, st.trace), n)
    requires var (o, vs, tr) := EvalSArgs(w, Guarded, [s.start, s.end], st.env, st.trace);
             o.Val? && |vs| == 2 && vs[0].VInt? && vs[1].VInt? ==>
               var start := Cons(map[s.name := vs[0]], st.env);
               Matches(ctx, RunRange(w, Guarded, ctx, s, vs[1].n, SState(start, tr), fuel),
                       RangeG(w, last, vs[1].n, GState(start, r.1.temps, tr), fuel))
    ensures Matches(ctx, RunStmt(w, Guarded, ctx, s, st, fuel), if r.0 == Next then StepG(w, last, r.1, fuel) else r)
  {
    var (o, vs, tr) := EvalSArgs(w, Guarded, [s.start, s.end], st.env, st.trace);
    if o.Val? { assert EvalGArgs(w, [last.start, last.end], r.1.env, r.1.temps, r.1.trace) == (Ok(vs), tr) && r.1.env == st.env; }
  }

  // The tries of the body have no guard before the body is written.
  lemma {:induction false} BoundIds(ctx: Ctx, s: SStmt, n: nat, ids: map<nat, nat>)
    requires s.SForRange? && Placed(s) && NodesOf(s) !! ids.Keys
    ensures var h := HoistAll(ctx, [s.start, s.end], n, ids);
            && NodesAll([s.start, s.end]) !! ids.Keys && NodesIn(s.body) !! h.ids.Keys
            && GenArgs([s.start, s.end], h.ids) == [GenExpr(s.start, h.ids), GenExpr(s.end, h.ids)]
  {
    HeaderIds(ctx, s, n, ids);
    PairNodes(s.start, s.end);
    var h := HoistAll(ctx, [s.start, s.end], n, ids);
    assert [s.start, s.end][1..] == [s.end] && GenArgs([s.end], h.ids) == [GenExpr(s.end, h.ids)] + GenArgs([], h.ids);
  }

  lemma {:induction false} RangeRuns(w: World, ctx: Ctx, s: SStmt, n: nat, ids: map<nat, nat>, end: int, ga: GExpr, gb: GExpr, st: SState, temps: TempMap, fuel: nat)
    requires s.SForRange? && Placed(s) && NodesIn(s.body) !! ids.Keys
    requires RunRange(w, Guarded, ctx, s, end, st, fuel).0 != Ended(Wrong)
    ensures var loop := GForRange(s.name, ga, gb, GenBody(ctx, s.body, n + 1, ids).code);
            Matches(ctx, RunRange(w, Guarded, ctx, s, end, st, fuel), RangeG(w, loop, end, GState(st.env, temps, st.trace), fuel))
    decreases fuel, s, 2, 0
  {
    if fuel > 0 && Lookup(st.env, s.name).value.n < end {
      var start := SState(Push(st.env), st.trace);
      var loop := GForRange(s.name, ga, gb, GenBody(ctx, s.body, n + 1, ids).code);
      RangeSteps(w, ctx, s, loop, end, st, temps, fuel);
      BodyRuns(w, ctx, s.body, n + 1, ids, start, temps, fuel);
      RangeTurn(w, ctx, s, n, ids, end, ga, gb, LeaveS(RunBody(w, Guarded, ctx, s.body, start, fuel)),
                LeaveG(RunG(w, loop.body, GState(start.env, temps, st.trace), fuel)), fuel);
    }
  }

  // Both loops run their bodies once, and go on.
  lemma {:induction false} RangeSteps(w: World, ctx: Ctx, s: SStmt, loop: GStmt, end: int, st: SState, temps: TempMap, fuel: nat)
    requires s.SForRange? && loop.GForRange? && loop.name == s.name && fuel > 0
    requires var i := Lookup(st.env, s.name); i.Some? && i.value.VInt? && i.value.n < end
    ensures RunRange(w, Guarded, ctx, s, end, st, fuel) ==
            RangeRest(w, Guarded, ctx, s, end, LeaveS(RunBody(w, Guarded, ctx, s.body, SState(Push(st.env), st.trace), fuel)), fuel)
    ensures RangeG(w, loop, end, GState(st.env, temps, st.trace), fuel) ==
            CountRest(w, loop, end, LeaveG(RunG(w, loop.body, GState(Push(st.env), temps, st.trace), fuel)), fuel)
  {}

  function RangeRest(w: World, m: Mode, ctx: Ctx, s: SStmt, end: int, r: (End, SState), fuel: nat): (End, SState)
    requires s.SForRange? && fuel > 0
  {
    if !Resumes(r.0) then (AfterLoop(r.0), r.1) else
    var env := Bump(r.1.env, s.name);
    if env.None? then (Ended(Wrong), r.1) else RunRange(w, m, ctx, s, end, SState(env.value, r.1.trace), fuel - 1)
  }

  function CountRest(w: World, c: GStmt, end: int, r: (End, GState), fuel: nat): (End, GState)
    requires c.GForRange? && fuel > 0
  {
    if !Resumes(r.0) then (AfterLoop(r.0), r.1) else
    var env := Bump(r.1.env, c.name);
    if env.None? then (Ended(Wrong), r.1) else RangeG(w, c, end, r.1.(env := env.value), fuel - 1)
  }

  lemma {:induction false} RangeTurn(w: World, ctx: Ctx, s: SStmt, n: nat, ids: map<nat, nat>, end: int, ga: GExpr, gb: GExpr,
                                     r: (End, SState), g: (End, GState), fuel: nat)
    requires s.SForRange? && Placed(s) && NodesIn(s.body) !! ids.Keys && fuel > 0
    requires Matches(ctx, r, g) && RangeRest(w, Guarded, ctx, s, end, r, fuel).0 != Ended(Wrong)
    ensures var loop := GForRange(s.name, ga, gb, GenBody(ctx, s.body, n + 1, ids).code);
            Matches(ctx, RangeRest(w, Guarded, ctx, s, end, r, fuel), CountRest(w, loop, end, g, fuel))
    decreases fuel, s, 1
  {
    if Resumes(r.0) {
      var env := Bump(r.1.env, s.name).value;
      assert g.1.(env := env) == GState(env, g.1.temps, r.1.trace);
      RangeRuns(w, ctx, s, n, ids, end, ga, gb, SState(env, r.1.trace), g.1.temps, fuel - 1);
    }
  }

  // ----- The source, and what hoisting makes of it -----

  // As long as no try fails that has no guard, the source does the same.
  lemma {:induction false} BareAgrees(w: World, e: SExpr, env: Env, tr: Trace)
    ensures !EvalS(w, Source, e, env, tr).0.Failed? ==> EvalS(w, Bare, e, env, tr) == EvalS(w, Source, e, env, tr)
    decreases e
  {
    match e
    case SLit(_) =>
    case SIdent(_) =>
    case SCall(_, args) => BareAgreesAll(w, args, env, tr);
    case SBin(_, l, r) =>
      BareAgrees(w, l, env, tr);
      BareAgrees(w, r, env, EvalS(w, Source, l, env, tr).1);
    case SLogic(_, l, r) =>
      BareAgrees(w, l, env, tr);
      BareAgrees(w, r, env, EvalS(w, Source, l, env, tr).1);
    case SIf(c, t, f) =>
      BareAgrees(w, c, env, tr);
      BareAgrees(w, t, env, EvalS(w, Source, c, env, tr).1);
      BareAgrees(w, f, env, EvalS(w, Source, c, env, tr).1);
    case SRecv(ch) => BareAgrees(w, ch, env, tr);
    case STry(_, operand, _) => BareAgrees(w, operand, env, tr);
  }

  lemma {:induction false} BareAgreesAll(w: World, es: seq<SExpr>, env: Env, tr: Trace)
    ensures !EvalSArgs(w, Source, es, env, tr).0.Failed? ==> EvalSArgs(w, Bare, es, env, tr) == EvalSArgs(w, Source, es, env, tr)
    decreases es
  {
    if es != [] {
      BareAgrees(w, es[0], env, tr);
      BareAgreesAll(w, es[1..], env, EvalS(w, Source, es[0], env, tr).1);
    }
  }

  lemma {:induction false} GuardedAgrees(w: World, e: SExpr, env: Env, tr: Trace)
    ensures var src := EvalS(w, Source, e, env, tr);
            (src.0.Failed? && src.0.inPlace) || EvalS(w, Guarded, e, env, tr) == src
    decreases e
  {
    match e
    case SLit(_) =>
    case SIdent(_) =>
    case SCall(_, args) => GuardedAgreesAll(w, args, env, tr);
    case SBin(_, l, r) =>
      GuardedAgrees(w, l, env, tr);
      GuardedAgrees(w, r, env, EvalS(w, Source, l, env, tr).1);
    case SLogic(_, l, r) =>
      GuardedAgrees(w, l, env, tr);
      BareAgrees(w, r, env, EvalS(w, Source, l, env, tr).1);
    case SIf(c, t, f) =>
      GuardedAgrees(w, c, env, tr);
      BareAgrees(w, t, env, EvalS(w, Source, c, env, tr).1);
      BareAgrees(w, f, env, EvalS(w, Source, c, env, tr).1);
    case SRecv(ch) => GuardedAgrees(w, ch, env, tr);
    case STry(_, operand, _) => GuardedAgrees(w, operand, env, tr);
  }

  lemma {:induction false} GuardedAgreesAll(w: World, es: seq<SExpr>, env: Env, tr: Trace)
    ensures var src := EvalSArgs(w, Source, es, env, tr);
            (src.0.Failed? && src.0.inPlace) || EvalSArgs(w, Guarded, es, env, tr) == src
    decreases es
  {
    if es != [] {
      GuardedAgrees(w, es[0], env, tr);
      GuardedAgreesAll(w, es[1..], env, EvalS(w, Source, es[0], env, tr).1);
    }
  }

  lemma {:induction false} StmtAgrees(w: World, ctx: Ctx, s: SStmt, st: SState, fuel: nat)
    requires !RunStmt(w, Source, ctx, s, st, fuel).0.Misplaced?
    ensures RunStmt(w, Guarded, ctx, s, st, fuel) == RunStmt(w, Source, ctx, s, st, fuel)
    decreases fuel, s, 1
  {
    match s
    case SReturn(e) => if e.Some? { GuardedAgrees(w, e.value, st.env, st.trace); }
    case SDo(e) => GuardedAgrees(w, e, st.env, st.trace);
    case SLet(_, e) => GuardedAgrees(w, e, st.env, st.trace);
    case SSet(_, e) => GuardedAgrees(w, e, st.env, st.trace);
    case SIfStmt(c, t, f) =>
      GuardedAgrees(w, c, st.env, st.trace);
      var (o, tr) := EvalS(w, Source, c, st.env, st.trace);
      if o.Val? && o.v.VBool? { BodyAgrees(w, ctx, if o.v.b then t else f, SState(Push(st.env), tr), fuel); }
    case SMatch(e, okName, ok, errName, err) =>
      GuardedAgrees(w, e, st.env, st.trace);
      var (o, tr) := EvalS(w, Source, e, st.env, st.trace);
      if o.Val? && o.v.VResult? {
        BodyAgrees(w, ctx, if o.v.ok then ok else err, SState(Cons(map[if o.v.ok then okName else errName := o.v.payload], st.env), tr), fuel);
      }
    case SWhile(_, _) => LoopAgrees(w, ctx, s, st, fuel);
    case SForRange(x, a, b, _) =>
      GuardedAgreesAll(w, [a, b], st.env, st.trace);
      var (o, vs, tr) := EvalSArgs(w, Source, [a, b], st.env, st.trace);
      if o.Val? && |vs| == 2 && vs[0].VInt? && vs[1].VInt? {
        RangeAgrees(w, ctx, s, vs[1].n, SState(Cons(map[x := vs[0]], st.env), tr), fuel);
      }
    case SBreak =>
    case SContinue =>
  }

  lemma {:induction false} BodyAgrees(w: World, ctx: Ctx, body: seq<SStmt>, st: SState, fuel: nat)
    requires !RunBody(w, Source, ctx, body, st, fuel).0.Misplaced?
    ensures RunBody(w, Guarded, ctx, body, st, fuel) == RunBody(w, Source, ctx, body, st, fuel)
    decreases fuel, body
  {
    if body != [] {
      StmtAgrees(w, ctx, body[0], st, fuel);
      var (o, st') := RunStmt(w, Source, ctx, body[0], st, fuel);
      if o == Next { BodyAgrees(w, ctx, body[1..], st', fuel); }
    }
  }

  lemma {:induction false} LoopAgrees(w: World, ctx: Ctx, s: SStmt, st: SState, fuel: nat)
    requires s.SWhile? && !RunWhile(w, Source, ctx, s, st, fuel).0.Misplaced?
    ensures RunWhile(w, Guarded, ctx, s, st, fuel) == RunWhile(w, Source, ctx, s, st, fuel)
    decreases fuel, s, 0
  {
    if fuel > 0 {
      BareAgrees(w, s.cond, st.env, st.trace);
      var (o, tr) := EvalS(w, Source, s.cond, st.env, st.trace);
      if o == Val(VBool(true)) {
        var start := SState(Push(st.env), tr);
        BodyAgrees(w, ctx, s.body, start, fuel);
        var (ob, st') := LeaveS(RunBody(w, Source, ctx, s.body, start, fuel));
        if Resumes(ob) { LoopAgrees(w, ctx, s, st', fuel - 1); }
      }
    }
  }

  lemma {:induction false} RangeAgrees(w: World, ctx: Ctx, s: SStmt, end: int, st: SState, fuel: nat)
    requires s.SForRange? && !RunRange(w, Source, ctx, s, end, st, fuel).0.Misplaced?
    ensures RunRange(w, Guarded, ctx, s, end, st, fuel) == RunRange(w, Source, ctx, s, end, st, fuel)
    decreases fuel, s, 0
  {
    if fuel > 0 {
      var i := Lookup(st.env, s.name);
      if i.Some? && i.value.VInt? && i.value.n < end {
        var start := SState(Push(st.env), st.trace);
        BodyAgrees(w, ctx, s.body, start, fuel);
        var (ob, st') := LeaveS(RunBody(w, Source, ctx, s.body, start, fuel));
        if Resumes(ob) {
          var env := Bump(st'.env, s.name);
          if env.Some? { RangeAgrees(w, ctx, s, end, SState(env.value, st'.trace), fuel - 1); }
        }
      }
    }
  }

  // ----- The theorems -----

  // The guards of an expression leave as the source does when a lifted try fails; otherwise what is left of
  // the expression comes to the value of the source.
  lemma {:induction false} HoistCorrect(w: World, ctx: Ctx, e: SExpr, n: nat, ids: map<nat, nat>, st: GState, fuel: nat)
    requires Liftable(e) && Nodes(e) !! ids.Keys
    requires Proper(EvalS(w, Source, e, st.env, st.trace).0)
    ensures var h := Hoist(ctx, e, n, ids);
            TwoPhase(w, ctx, EvalS(w, Source, e, st.env, st.trace), RunG(w, h.code, st, fuel), GenExpr(e, h.ids), st, n)
  {
    GuardedAgrees(w, e, st.env, st.trace);
    HoistPhases(w, ctx, e, n, ids, st, fuel);
  }

  lemma {:induction false} StmtCorrect(w: World, ctx: Ctx, s: SStmt, n: nat, ids: map<nat, nat>, st: SState, temps: TempMap, fuel: nat)
    requires Placed(s) && NodesOf(s) !! ids.Keys
    requires ProperEnd(RunStmt(w, Source, ctx, s, st, fuel).0)
    ensures Matches(ctx, RunStmt(w, Source, ctx, s, st, fuel), RunG(w, GenStmt(ctx, s, n, ids).code, GState(st.env, temps, st.trace), fuel))
  {
    StmtAgrees(w, ctx, s, st, fuel);
    StmtRuns(w, ctx, s, n, ids, st, temps, fuel);
  }

  // Whatever the world answers, the generated code does what the source does, in every run in which no try
  // fails where evaluation is conditional.
  lemma {:induction false} BodyCorrect(w: World, ctx: Ctx, body: seq<SStmt>, n: nat, ids: map<nat, nat>, st: SState, temps: TempMap, fuel: nat)
    requires PlacedIn(body) && NodesIn(body) !! ids.Keys
    requires ProperEnd(RunBody(w, Source, ctx, body, st, fuel).0)
    ensures Matches(ctx, RunBody(w, Source, ctx, body, st, fuel), RunG(w, GenBody(ctx, body, n, ids).code, GState(st.env, temps, st.trace), fuel))
  {
    BodyAgrees(w, ctx, body, st, fuel);
    BodyRuns(w, ctx, body, n, ids, st, temps, fuel);
  }

  // Two runs of the source semantics that cannot be told apart.
  ghost predicate SameRun(ctx: Ctx, a: (End, SState), b: (End, SState)) {
    && Meaning(ctx, a.0) == Meaning(ctx, b.0) && a.1.trace == b.1.trace
    && (a.0 == Next || a.0 == Broken || a.0 == Continuing ==> a.1.env == b.1.env)
  }

  // And in all runs: it keeps the meaning exactly if the source would run alike with every try that has no
  // guard giving its zero value on an error.
  lemma {:induction false} BodyExactly(w: World, ctx: Ctx, body: seq<SStmt>, n: nat, ids: map<nat, nat>, st: SState, temps: TempMap, fuel: nat)
    requires PlacedIn(body) && NodesIn(body) !! ids.Keys
    requires RunBody(w, Guarded, ctx, body, st, fuel).0 != Ended(Wrong)
    ensures Matches(ctx, RunBody(w, Source, ctx, body, st, fuel), RunG(w, GenBody(ctx, body, n, ids).code, GState(st.env, temps, st.trace), fuel))
            <==> SameRun(ctx, RunBody(w, Source, ctx, body, st, fuel), RunBody(w, Guarded, ctx, body, st, fuel))
  {
    BodyRuns(w, ctx, body, n, ids, st, temps, fuel);
  }
}
