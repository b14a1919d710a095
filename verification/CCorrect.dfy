/**
The lowering preserves meaning: at every fuel, the emitted C gives the same value or exit,
the same ordered call trace and the same user variables as the LIAF source.
*/
module CCorrect {
  import opened Wrappers
  import opened Liaf
  import opened CCode
  import opened CLowering
  import Int64

  // ----- What a C environment keeps for the source, and what it keeps for itself -----

  function Users(cenv: CEnv): Env {
    match cenv
    case Nil => Nil
    case Cons(s, up) => Cons(s.user, Users(up))
  }

  function Temps(cenv: CEnv): List<map<nat, Value>> {
    match cenv
    case Nil => Nil
    case Cons(s, up) => Cons(s.temp, Temps(up))
  }

  ghost predicate Sees(env: Env, cenv: CEnv) {
    forall x :: LookupVar(cenv, x) == Lookup(env, x)
  }

  // No temporary beyond n is declared in the innermost block.
  ghost predicate Below(cenv: CEnv, n: nat) {
    cenv.Cons? && forall k: nat :: k in cenv.head.temp ==> k <= n
  }

  ghost predicate SameOld(a: map<nat, Value>, b: map<nat, Value>, n: nat) {
    forall k: nat :: k <= n ==> (k in a <==> k in b) && (k in a ==> a[k] == b[k])
  }

  // b is a with some temporaries n+1 .. n' more in its innermost block.
  ghost predicate Extends(a: CEnv, b: CEnv, n: nat, n': nat) {
    && a.Cons? && b.Cons? && b.tail == a.tail && b.head.user == a.head.user
    && SameOld(a.head.temp, b.head.temp, n) && Below(b, n')
  }

  // The same, except that user variables may have changed.
  ghost predicate Advances(a: CEnv, b: CEnv, n: nat, n': nat) {
    && a.Cons? && b.Cons? && Temps(b.tail) == Temps(a.tail)
    && SameOld(a.head.temp, b.head.temp, n) && Below(b, n')
  }

  // Each C function is the lowering of its source, from whatever serial it started at.
  ghost predicate Linked(p: Program, cp: CProgram) {
    cp.Keys == p.Keys && forall f :: f in p ==> exists n: nat :: cp[f] == LowerFunc(p[f], n)
  }

  ghost predicate MatchesExpr(src: (Res<Value>, Trace), tgt: (Outcome, CState), cenv: CEnv, n: nat, c: Lowered) {
    && tgt.1.trace == src.1
    && match src.0
       case Ok(v) => tgt.0 == Normal && Extends(cenv, tgt.1.env, n, c.serial) && LookupTemp(tgt.1.env, c.temp) == Some(v)
       case Halt(why) => tgt.0 == Stopped(why)
  }

  ghost predicate MatchesArgs(src: (Res<seq<Value>>, Trace), tgt: (Outcome, CState), cenv: CEnv, n: nat, c: LoweredArgs) {
    && tgt.1.trace == src.1
    && match src.0
       case Ok(vs) => tgt.0 == Normal && Extends(cenv, tgt.1.env, n, c.serial) && LookupTemps(tgt.1.env, c.temps) == Some(vs)
       case Halt(why) => tgt.0 == Stopped(why)
  }

  ghost predicate MatchesStmt(src: (Outcome, State), tgt: (Outcome, CState), cenv: CEnv, n: nat, serial: nat) {
    && tgt.0 == src.0 && tgt.1.trace == src.1.trace
    && (src.0 == Normal || src.0 == Broke || src.0 == Continued ==>
          Users(tgt.1.env) == src.1.env && Advances(cenv, tgt.1.env, n, serial))
  }

  // After a loop or a block: the temporaries are exactly those before it.
  ghost predicate MatchesBlock(src: (Outcome, State), tgt: (Outcome, CState), cenv: CEnv) {
    && tgt.0 == src.0 && tgt.1.trace == src.1.trace
    && (src.0 == Normal || src.0 == Broke || src.0 == Continued ==>
          Users(tgt.1.env) == src.1.env && Temps(tgt.1.env) == Temps(cenv))
  }

  // ----- Environments -----

  lemma {:induction false} UsersLookup(cenv: CEnv, x: string)
    ensures LookupVar(cenv, x) == Lookup(Users(cenv), x)
  {
    if cenv.Cons? { UsersLookup(cenv.tail, x); }
  }

  lemma {:induction false} UsersSees(cenv: CEnv)
    ensures Sees(Users(cenv), cenv)
  {
    forall x ensures LookupVar(cenv, x) == Lookup(Users(cenv), x) { UsersLookup(cenv, x); }
  }

  lemma {:induction false} TempsLookup(a: CEnv, b: CEnv, t: nat)
    requires Temps(a) == Temps(b)
    ensures LookupTemp(a, t) == LookupTemp(b, t)
  {
    if a.Cons? { TempsLookup(a.tail, b.tail, t); }
  }

  lemma {:induction false} StoreUsers(cenv: CEnv, x: string, v: Value)
    ensures var r, s := StoreVar(cenv, x, v), Assign(Users(cenv), x, v);
            r.Some? == s.Some? && (r.Some? ==> Users(r.value) == s.value && Temps(r.value) == Temps(cenv))
  {
    if cenv.Cons? { StoreUsers(cenv.tail, x, v); }
  }

  lemma SeesExtended(env: Env, a: CEnv, b: CEnv, n: nat, n': nat)
    requires Sees(env, a) && Extends(a, b, n, n')
    ensures Sees(env, b)
  {
    forall x ensures LookupVar(b, x) == Lookup(env, x) {
      assert LookupVar(b, x) == LookupVar(a, x);
    }
  }

  lemma ExtendsTrans(a: CEnv, b: CEnv, c: CEnv, n: nat, m: nat, k: nat)
    requires Extends(a, b, n, m) && Extends(b, c, m, k) && n <= m
    ensures Extends(a, c, n, k)
  {}

  lemma AdvancesTrans(a: CEnv, b: CEnv, c: CEnv, n: nat, m: nat, k: nat)
    requires Advances(a, b, n, m) && Advances(b, c, m, k) && n <= m
    ensures Advances(a, c, n, k)
  {}

  lemma {:induction false} OldTemp(a: CEnv, b: CEnv, n: nat, n': nat, t: nat)
    requires Extends(a, b, n, n') && t <= n
    ensures LookupTemp(b, t) == LookupTemp(a, t)
  {}

  lemma {:induction false} SameTempsAdvance(a: CEnv, b: CEnv, n: nat, n': nat)
    requires Temps(b) == Temps(a) && Below(a, n) && n <= n'
    ensures Advances(a, b, n, n')
  {
    assert b.Cons? && Temps(b).head == Temps(a).head;
    assert Temps(b.tail) == Temps(a.tail);
  }

  // ----- Single steps -----

  lemma {:induction false} RunOne(cp: CProgram, c: Code, st: CState, fuel: nat)
    ensures Run(cp, [c], st, fuel) == Step(cp, c, st, fuel)
  {
    assert Run(cp, [c][1..], Step(cp, c, st, fuel).1, fuel) == (Normal, Step(cp, c, st, fuel).1);
  }

  lemma {:induction false} RunSnoc(cp: CProgram, code: seq<Code>, last: Code, st: CState, fuel: nat)
    ensures var r := Run(cp, code, st, fuel);
            Run(cp, code + [last], st, fuel) == if r.0 == Normal then Step(cp, last, r.1, fuel) else r
  {
    RunAppend(cp, code, [last], st, fuel);
    RunOne(cp, last, Run(cp, code, st, fuel).1, fuel);
  }

  // Declaring the next temporary behind code that ran normally.
  lemma {:induction false} DeclareNext(cp: CProgram, code: seq<Code>, rhs: Rhs, n: nat, m: nat, start: CState, mid: CState, fuel: nat)
    requires Run(cp, code, start, fuel) == (Normal, mid)
    requires Extends(start.env, mid.env, n, m) && n <= m
    ensures MatchesExpr(EvalRhs(cp, rhs, mid, fuel), Run(cp, Fresh(code, rhs, m).code, start, fuel), start.env, n, Fresh(code, rhs, m))
  {
    RunAppend(cp, code, [DeclTemp(m + 1, rhs)], start, fuel);
    RunOne(cp, DeclTemp(m + 1, rhs), mid, fuel);
  }

  lemma SameField(a: Value, b: Value)
    requires Comparable(a, b)
    ensures SameC(a, b) == (a == b)
  {}

  // Each C operator computes what the source operator means on the operands the checker admits.
  lemma SameApply(op: Liaf.Op, a: Value, b: Value)
    requires Apply(op, a, b) != Halt(Wrong)
    ensures ApplyC(op, a, b) == Apply(op, a, b)
  {
    if op == Eq || op == Neq {
      SameField(a, b);
    }
  }

  // `out = value;}` inside a branch: the branch's block disappears, `out` stays.
  lemma {:induction false} CopyOut(cp: CProgram, code: seq<Code>, out: nat, from: nat, outer: CEnv, v: Value, n': nat, st: CState, tr: Trace, fuel: nat)
    requires outer.Cons? && out in outer.head.temp
    requires Run(cp, code, CState(Cons(EMPTY, outer), tr), fuel) == (Normal, st)
    requires Extends(Cons(EMPTY, outer), st.env, out, n')
    requires LookupTemp(st.env, from) == Some(v)
    ensures LeaveC(Run(cp, code + [CopyTemp(out, from)], CState(Cons(EMPTY, outer), tr), fuel)) ==
            (Normal, CState(Cons(outer.head.(temp := outer.head.temp[out := v]), outer.tail), st.trace))
  {
    RunAppend(cp, code, [CopyTemp(out, from)], CState(Cons(EMPTY, outer), tr), fuel);
    RunOne(cp, CopyTemp(out, from), st, fuel);
    assert out !in EMPTY.temp && out !in st.env.head.temp;
    assert StoreTemp(outer, out, v) == Some(Cons(outer.head.(temp := outer.head.temp[out := v]), outer.tail));
  }

  // ----- Expressions -----

  lemma {:induction false} ExprCorrect(p: Program, cp: CProgram, e: Expr, n: nat, env: Env, cenv: CEnv, tr: Trace, fuel: nat)
    requires Linked(p, cp) && Sees(env, cenv) && Below(cenv, n)
    requires Eval(p, e, env, tr, fuel).0 != Halt(Wrong)
    ensures MatchesExpr(Eval(p, e, env, tr, fuel), Run(cp, LowerExpr(e, n).code, CState(cenv, tr), fuel), cenv, n, LowerExpr(e, n))
    decreases fuel, e, 1
  {
    var st := CState(cenv, tr);
    match e
    case IntLit(k) => DeclareNext(cp, [], Literal(k), n, n, st, st, fuel);
    case BoolLit(b) => DeclareNext(cp, [], Bool(b), n, n, st, st, fuel);
    case Ident(x) => DeclareNext(cp, [], Var(x), n, n, st, st, fuel);
    case Bin(_, _, _) => BinCorrect(p, cp, e, n, env, cenv, tr, fuel);
    case Logic(_, _, _) => LogicCorrect(p, cp, e, n, env, cenv, tr, fuel);
    case IfExpr(_, _, _) => IfExprCorrect(p, cp, e, n, env, cenv, tr, fuel);
    case Call(_, _) => CallCorrect(p, cp, e, n, env, cenv, tr, fuel);
  }

  // Two operands, the left one first.
  ghost predicate MatchesTwo(src: (Res<(Value, Value)>, Trace), tgt: (Outcome, CState), cenv: CEnv, n: nat, cl: Lowered, cr: Lowered) {
    && tgt.1.trace == src.1
    && match src.0
       case Ok(v) => tgt.0 == Normal && Extends(cenv, tgt.1.env, n, cr.serial)
                     && LookupTemp(tgt.1.env, cl.temp) == Some(v.0) && LookupTemp(tgt.1.env, cr.temp) == Some(v.1)
       case Halt(why) => tgt.0 == Stopped(why)
  }

  function Both(a: (Res<Value>, Trace), b: (Res<Value>, Trace)): (Res<(Value, Value)>, Trace) {
    if a.0.Halt? then (Halt(a.0.why), a.1) else if b.0.Halt? then (Halt(b.0.why), b.1) else (Ok((a.0.v, b.0.v)), b.1)
  }

  lemma {:induction false} TwoJoined(cp: CProgram, a: (Res<Value>, Trace), b: (Res<Value>, Trace), cl: Lowered, cr: Lowered, n: nat, st: CState, fuel: nat)
    requires n <= cl.serial && cl.temp <= cl.serial
    requires MatchesExpr(a, Run(cp, cl.code, st, fuel), st.env, n, cl)
    requires var mid := Run(cp, cl.code, st, fuel).1;
             a.0.Ok? ==> MatchesExpr(b, Run(cp, cr.code, mid, fuel), mid.env, cl.serial, cr)
    ensures MatchesTwo(Both(a, b), Run(cp, cl.code + cr.code, st, fuel), st.env, n, cl, cr)
  {
    RunAppend(cp, cl.code, cr.code, st, fuel);
    if a.0.Ok? && b.0.Ok? {
      var mid := Run(cp, cl.code, st, fuel).1;
      var end := Run(cp, cr.code, mid, fuel).1;
      OldTemp(mid.env, end.env, cl.serial, cr.serial, cl.temp);
      ExtendsTrans(st.env, mid.env, end.env, n, cl.serial, cr.serial);
    }
  }

  lemma {:induction false} BinCorrect(p: Program, cp: CProgram, e: Expr, n: nat, env: Env, cenv: CEnv, tr: Trace, fuel: nat)
    requires e.Bin? && Linked(p, cp) && Sees(env, cenv) && Below(cenv, n)
    requires Eval(p, e, env, tr, fuel).0 != Halt(Wrong)
    ensures MatchesExpr(Eval(p, e, env, tr, fuel), Run(cp, LowerExpr(e, n).code, CState(cenv, tr), fuel), cenv, n, LowerExpr(e, n))
    decreases fuel, e, 0
  {
    var st := CState(cenv, tr);
    var cl := LowerExpr(e.left, n);
    var cr := LowerExpr(e.right, cl.serial);
    var rhs := Op(e.op, cl.temp, cr.temp);
    var a := Eval(p, e.left, env, tr, fuel);
    var b := Eval(p, e.right, env, a.1, fuel);
    ExprCorrect(p, cp, e.left, n, env, cenv, tr, fuel);
    if a.0.Ok? {
      var mid := Run(cp, cl.code, st, fuel).1;
      SeesExtended(env, cenv, mid.env, n, cl.serial);
      ExprCorrect(p, cp, e.right, cl.serial, env, mid.env, a.1, fuel);
    }
    TwoJoined(cp, a, b, cl, cr, n, st, fuel);
    OpDeclared(cp, a, b, e.op, cl, cr, n, st, fuel);
  }

  lemma {:induction false} OpDeclared(cp: CProgram, a: (Res<Value>, Trace), b: (Res<Value>, Trace), op: Liaf.Op, cl: Lowered, cr: Lowered, n: nat, st: CState, fuel: nat)
    requires MatchesTwo(Both(a, b), Run(cp, cl.code + cr.code, st, fuel), st.env, n, cl, cr) && n <= cl.serial <= cr.serial
    requires a.0.Ok? && b.0.Ok? ==> Apply(op, a.0.v, b.0.v) != Halt(Wrong)
    ensures var c := Fresh(cl.code + cr.code, Op(op, cl.temp, cr.temp), cr.serial);
            MatchesExpr(if a.0.Halt? then a else if b.0.Halt? then b else (Apply(op, a.0.v, b.0.v), b.1), Run(cp, c.code, st, fuel), st.env, n, c)
  {
    var rhs := Op(op, cl.temp, cr.temp);
    RunSnoc(cp, cl.code + cr.code, DeclTemp(cr.serial + 1, rhs), st, fuel);
    if a.0.Ok? && b.0.Ok? {
      SameApply(op, a.0.v, b.0.v);
      DeclareNext(cp, cl.code + cr.code, rhs, n, cr.serial, st, Run(cp, cl.code + cr.code, st, fuel).1, fuel);
    }
  }

  // The temporary of a result, declared behind the code of a part whose value it may start with.
  lemma {:induction false} DeclaredNext(cp: CProgram, src: (Res<Value>, Trace), c: Lowered, rhs: Rhs, n: nat, cenv: CEnv, tr: Trace, fuel: nat)
    requires MatchesExpr(src, Run(cp, c.code, CState(cenv, tr), fuel), cenv, n, c) && n <= c.serial && c.temp <= c.serial
    requires rhs == Nothing || rhs == Temp(c.temp)
    ensures var out := Fresh(c.code, rhs, c.serial);
            var r := Run(cp, out.code, CState(cenv, tr), fuel);
            && r.1.trace == src.1
            && (src.0.Halt? ==> r.0 == Stopped(src.0.why))
            && (src.0.Ok? ==>
                  && r.0 == Normal && Extends(cenv, r.1.env, n, out.serial) && out.temp in r.1.env.head.temp
                  && LookupTemp(r.1.env, c.temp) == Some(src.0.v)
                  && LookupTemp(r.1.env, out.temp) == Some(if rhs == Nothing then VNone else src.0.v))
  {
    RunSnoc(cp, c.code, DeclTemp(c.serial + 1, rhs), CState(cenv, tr), fuel);
  }

  lemma {:induction false} LogicCorrect(p: Program, cp: CProgram, e: Expr, n: nat, env: Env, cenv: CEnv, tr: Trace, fuel: nat)
    requires e.Logic? && Linked(p, cp) && Sees(env, cenv) && Below(cenv, n)
    requires Eval(p, e, env, tr, fuel).0 != Halt(Wrong)
    ensures MatchesExpr(Eval(p, e, env, tr, fuel), Run(cp, LowerExpr(e, n).code, CState(cenv, tr), fuel), cenv, n, LowerExpr(e, n))
    decreases fuel, e, 0
  {
    var st := CState(cenv, tr);
    var cl := LowerExpr(e.left, n);
    var out := Fresh(cl.code, Temp(cl.temp), cl.serial);
    var cr := LowerExpr(e.right, out.serial);
    ExprCorrect(p, cp, e.left, n, env, cenv, tr, fuel);
    var (a, tr1) := Eval(p, e.left, env, tr, fuel);
    DeclaredNext(cp, (a, tr1), cl, Temp(cl.temp), n, cenv, tr, fuel);
    RunSnoc(cp, out.code, When(LogicGuard(e.isOr, out.temp), cr.code + [CopyTemp(out.temp, cr.temp)]), st, fuel);
    if a.Ok? {
      LogicGuarded(p, cp, e, n, env, cenv, Run(cp, out.code, st, fuel).1, out, fuel, a.v, tr1);
    }
  }

  // The guarded part, once the left operand is in the temporary of the result.
  lemma {:induction false} LogicGuarded(
      p: Program, cp: CProgram, e: Expr, n: nat, env: Env, cenv: CEnv, st1: CState, out: Lowered, fuel: nat, v: Value, tr1: Trace)
    requires e.Logic? && Linked(p, cp) && Sees(env, cenv) && v.VBool?
    requires n < out.temp <= out.serial && Extends(cenv, st1.env, n, out.serial) && st1.trace == tr1
    requires st1.env.Cons? && out.temp in st1.env.head.temp && LookupTemp(st1.env, out.temp) == Some(v)
    requires v.b != e.isOr ==> Eval(p, e.right, env, tr1, fuel).0 != Halt(Wrong)
    ensures var cr := LowerExpr(e.right, out.serial);
            MatchesExpr(if v.b == e.isOr then (Ok(v), tr1) else Eval(p, e.right, env, tr1, fuel),
                        Step(cp, When(LogicGuard(e.isOr, out.temp), cr.code + [CopyTemp(out.temp, cr.temp)]), st1, fuel),
                        cenv, n, Lowered(cr.code, out.temp, cr.serial))
    decreases fuel, e.right, 3
  {
    if v.b != e.isOr {
      BranchCorrect(p, cp, e.right, out.serial, env, st1.env, tr1, fuel, out.temp, cenv, n);
    }
  }

  // One arm of a short-circuit or an if-expression: `{ code; out = value; }`.
  lemma SeesInside(env: Env, outer: CEnv)
    requires Sees(env, outer)
    ensures Sees(env, Cons(EMPTY, outer))
  {
    var inner := Cons(EMPTY, outer);
    forall x ensures LookupVar(inner, x) == Lookup(env, x) { assert LookupVar(inner, x) == LookupVar(outer, x); }
  }

  lemma {:induction false} BranchCorrect(
      p: Program, cp: CProgram, e: Expr, m: nat, env: Env, outer: CEnv, tr: Trace, fuel: nat, out: nat, base: CEnv, n: nat)
    requires Linked(p, cp) && Sees(env, base) && Extends(base, outer, n, m)
    requires n < out <= m && out in outer.head.temp
    requires Eval(p, e, env, tr, fuel).0 != Halt(Wrong)
    ensures var c := LowerExpr(e, m);
            MatchesExpr(Eval(p, e, env, tr, fuel),
                        LeaveC(Run(cp, c.code + [CopyTemp(out, c.temp)], CState(Cons(EMPTY, outer), tr), fuel)),
                        base, n, Lowered(c.code, out, c.serial))
    decreases fuel, e, 2
  {
    var c := LowerExpr(e, m);
    var inner := Cons(EMPTY, outer);
    SeesExtended(env, base, outer, n, m);
    SeesInside(env, outer);
    ExprCorrect(p, cp, e, m, env, inner, tr, fuel);
    var (o, tr') := Eval(p, e, env, tr, fuel);
    var (ot, st) := Run(cp, c.code, CState(inner, tr), fuel);
    if o.Ok? {
      assert Extends(inner, st.env, out, c.serial);
      CopyOut(cp, c.code, out, c.temp, outer, o.v, c.serial, st, tr, fuel);
    } else {
      RunAppend(cp, c.code, [CopyTemp(out, c.temp)], CState(inner, tr), fuel);
    }
  }

  lemma {:induction false} IfExprCorrect(p: Program, cp: CProgram, e: Expr, n: nat, env: Env, cenv: CEnv, tr: Trace, fuel: nat)
    requires e.IfExpr? && Linked(p, cp) && Sees(env, cenv) && Below(cenv, n)
    requires Eval(p, e, env, tr, fuel).0 != Halt(Wrong)
    ensures MatchesExpr(Eval(p, e, env, tr, fuel), Run(cp, LowerExpr(e, n).code, CState(cenv, tr), fuel), cenv, n, LowerExpr(e, n))
    decreases fuel, e, 0
  {
    var st := CState(cenv, tr);
    var cc := LowerExpr(e.cond, n);
    var out := Fresh(cc.code, Nothing, cc.serial);
    var ct := LowerExpr(e.thn, out.serial);
    var cf := LowerExpr(e.els, ct.serial);
    var branch := Branch(IsTrue(cc.temp), ct.code + [CopyTemp(out.temp, ct.temp)], cf.code + [CopyTemp(out.temp, cf.temp)]);
    ExprCorrect(p, cp, e.cond, n, env, cenv, tr, fuel);
    var (a, tr1) := Eval(p, e.cond, env, tr, fuel);
    DeclaredNext(cp, (a, tr1), cc, Nothing, n, cenv, tr, fuel);
    RunSnoc(cp, out.code, branch, st, fuel);
    if a.Ok? {
      var st1 := Run(cp, out.code, st, fuel).1;
      if a.v.b {
        BranchCorrect(p, cp, e.thn, out.serial, env, st1.env, tr1, fuel, out.temp, cenv, n);
      } else {
        BranchCorrect(p, cp, e.els, ct.serial, env, st1.env, tr1, fuel, out.temp, cenv, n);
      }
    }
  }

  lemma {:induction false} ArgsCorrect(p: Program, cp: CProgram, args: seq<Expr>, n: nat, env: Env, cenv: CEnv, tr: Trace, fuel: nat)
    requires Linked(p, cp) && Sees(env, cenv) && Below(cenv, n)
    requires EvalArgs(p, args, env, tr, fuel).0 != Halt(Wrong)
    ensures MatchesArgs(EvalArgs(p, args, env, tr, fuel), Run(cp, LowerArgs(args, n).code, CState(cenv, tr), fuel), cenv, n, LowerArgs(args, n))
    decreases fuel, args, 0
  {
    if args != [] {
      var st := CState(cenv, tr);
      var a := LowerExpr(args[0], n);
      var rest := LowerArgs(args[1..], a.serial);
      ExprCorrect(p, cp, args[0], n, env, cenv, tr, fuel);
      var (o, tr1) := Eval(p, args[0], env, tr, fuel);
      RunAppend(cp, a.code, rest.code, st, fuel);
      if o.Ok? {
        var (_, st1) := Run(cp, a.code, st, fuel);
        SeesExtended(env, cenv, st1.env, n, a.serial);
        ArgsCorrect(p, cp, args[1..], a.serial, env, st1.env, tr1, fuel);
        var (os, tr2) := EvalArgs(p, args[1..], env, tr1, fuel);
        if os.Ok? {
          var (_, st2) := Run(cp, rest.code, st1, fuel);
          OldTemp(st1.env, st2.env, a.serial, rest.serial, a.temp);
          ExtendsTrans(cenv, st1.env, st2.env, n, a.serial, rest.serial);
          var ts := [a.temp] + rest.temps;
          assert ts[0] == a.temp && ts[1..] == rest.temps;
        }
      }
    }
  }

  lemma {:induction false} CallCorrect(p: Program, cp: CProgram, e: Expr, n: nat, env: Env, cenv: CEnv, tr: Trace, fuel: nat)
    requires e.Call? && Linked(p, cp) && Sees(env, cenv) && Below(cenv, n)
    requires Eval(p, e, env, tr, fuel).0 != Halt(Wrong)
    ensures MatchesExpr(Eval(p, e, env, tr, fuel), Run(cp, LowerExpr(e, n).code, CState(cenv, tr), fuel), cenv, n, LowerExpr(e, n))
    decreases fuel, e, 0
  {
    var st := CState(cenv, tr);
    var a := LowerArgs(e.args, n);
    var rhs := CallC(e.func, a.temps);
    ArgsCorrect(p, cp, e.args, n, env, cenv, tr, fuel);
    var (vals, tr1) := EvalArgs(p, e.args, env, tr, fuel);
    RunAppend(cp, a.code, [DeclTemp(a.serial + 1, rhs)], st, fuel);
    if vals.Ok? {
      var (_, st1) := Run(cp, a.code, st, fuel);
      if fuel > 0 {
        FuncCorrect(p, cp, e.func, vals.v, tr1, fuel - 1);
      }
      assert EvalRhs(cp, rhs, st1, fuel) == Eval(p, e, env, tr, fuel);
      DeclareNext(cp, a.code, rhs, n, a.serial, st, st1, fuel);
    }
  }

  // A call of a lowered function is a call of its source.
  lemma {:induction false} FuncCorrect(p: Program, cp: CProgram, f: string, args: seq<Value>, tr: Trace, fuel: nat)
    requires Linked(p, cp) && f in p && |args| == |p[f].params|
    requires CallSource(p, f, args, tr, fuel).0 != Halt(Wrong)
    ensures f in cp && |args| == |cp[f].params| && CallTarget(cp, f, args, tr, fuel) == CallSource(p, f, args, tr, fuel)
    decreases fuel
  {
    var n: nat :| cp[f] == LowerFunc(p[f], n);
    var cenv := Cons(Scope(Bind(p[f].params, args), map[]), Nil);
    var body := LowerBody(p[f].body, n);
    var start := CState(cenv, tr + [Event(f, args)]);
    BodyCorrect(p, cp, p[f].body, n, Users(cenv), cenv, tr + [Event(f, args)], fuel);
    RunAppend(cp, body.code, [ReturnC(Nothing)], start, fuel);
    var (o, st) := Run(cp, body.code, start, fuel);
    RunOne(cp, ReturnC(Nothing), st, fuel);
  }

  function CallSource(p: Program, f: string, args: seq<Value>, tr: Trace, fuel: nat): (Res<Value>, Trace)
    requires f in p && |args| == |p[f].params|
  {
    CallResult(Exec(p, p[f].body, State(Cons(Bind(p[f].params, args), Nil), tr + [Event(f, args)]), fuel))
  }

  function CallTarget(cp: CProgram, f: string, args: seq<Value>, tr: Trace, fuel: nat): (Res<Value>, Trace)
    requires f in cp && |args| == |cp[f].params|
  {
    CallResultC(Run(cp, cp[f].body, CState(Cons(Scope(Bind(cp[f].params, args), map[]), Nil), tr + [Event(f, args)]), fuel))
  }

  // ----- Statements -----

  lemma {:induction false} BodyCorrect(p: Program, cp: CProgram, body: seq<Stmt>, n: nat, env: Env, cenv: CEnv, tr: Trace, fuel: nat)
    requires Linked(p, cp) && Users(cenv) == env && Below(cenv, n)
    requires Exec(p, body, State(env, tr), fuel).0 != Stopped(Wrong)
    ensures MatchesStmt(Exec(p, body, State(env, tr), fuel), Run(cp, LowerBody(body, n).code, CState(cenv, tr), fuel), cenv, n, LowerBody(body, n).serial)
    decreases fuel, body, 0
  {
    if body != [] {
      var s := LowerStmt(body[0], n);
      var rest := LowerBody(body[1..], s.serial);
      StmtCorrect(p, cp, body[0], n, env, cenv, tr, fuel);
      var (o, st) := ExecStmt(p, body[0], State(env, tr), fuel);
      RunAppend(cp, s.code, rest.code, CState(cenv, tr), fuel);
      var (oc, stc) := Run(cp, s.code, CState(cenv, tr), fuel);
      if o == Normal {
        BodyCorrect(p, cp, body[1..], s.serial, st.env, stc.env, st.trace, fuel);
        var r := Run(cp, rest.code, stc, fuel);
        if r.0 == Normal || r.0 == Broke || r.0 == Continued {
          AdvancesTrans(cenv, stc.env, r.1.env, n, s.serial, rest.serial);
        }
      } else if o == Broke || o == Continued {
        assert Below(stc.env, rest.serial);
      }
    }
  }

  lemma {:induction false} StmtCorrect(p: Program, cp: CProgram, s: Stmt, n: nat, env: Env, cenv: CEnv, tr: Trace, fuel: nat)
    requires Linked(p, cp) && Users(cenv) == env && Below(cenv, n)
    requires ExecStmt(p, s, State(env, tr), fuel).0 != Stopped(Wrong)
    ensures MatchesStmt(ExecStmt(p, s, State(env, tr), fuel), Run(cp, LowerStmt(s, n).code, CState(cenv, tr), fuel), cenv, n, LowerStmt(s, n).serial)
    decreases fuel, s, 4
  {
    var st := CState(cenv, tr);
    match s
    case Break => RunOne(cp, BreakC, st, fuel);
    case Continue => RunOne(cp, ContinueC, st, fuel);
    case If(_, _, _) => IfCorrect(p, cp, s, n, env, cenv, tr, fuel);
    case Match(_, _, _, _, _) => MatchCorrect(p, cp, s, n, env, cenv, tr, fuel);
    case While(_, _) => WhileCorrect(p, cp, s, n, env, cenv, tr, fuel);
    case ForRange(_, _, _, _) => ForRangeCorrect(p, cp, s, n, env, cenv, tr, fuel);
    case Return(None) => RunOne(cp, ReturnC(Nothing), st, fuel);
    case Return(Some(e)) => SimpleCorrect(p, cp, s, e, n, env, cenv, tr, fuel);
    case Do(e) => SimpleCorrect(p, cp, s, e, n, env, cenv, tr, fuel);
    case Let(_, e) => SimpleCorrect(p, cp, s, e, n, env, cenv, tr, fuel);
    case Set(_, e) => SimpleCorrect(p, cp, s, e, n, env, cenv, tr, fuel);
  }

  // Statements that evaluate one expression and then do one thing with it.
  lemma {:induction false} SimpleCorrect(p: Program, cp: CProgram, s: Stmt, e: Expr, n: nat, env: Env, cenv: CEnv, tr: Trace, fuel: nat)
    requires s == Do(e) || s == Return(Some(e)) || (s.Let? && s.value == e) || (s.Set? && s.value == e)
    requires Linked(p, cp) && Users(cenv) == env && Below(cenv, n)
    requires ExecStmt(p, s, State(env, tr), fuel).0 != Stopped(Wrong)
    ensures MatchesStmt(ExecStmt(p, s, State(env, tr), fuel), Run(cp, LowerStmt(s, n).code, CState(cenv, tr), fuel), cenv, n, LowerStmt(s, n).serial)
    decreases fuel, s, 3
  {
    var c := LowerExpr(e, n);
    UsersSees(cenv);
    ExprCorrect(p, cp, e, n, env, cenv, tr, fuel);
    if !s.Do? {
      var last := if s.Return? then ReturnC(Temp(c.temp)) else if s.Let? then DeclVar(s.name, Temp(c.temp)) else AssignVar(s.name, c.temp);
      RunAppend(cp, c.code, [last], CState(cenv, tr), fuel);
      var (o, st1) := Run(cp, c.code, CState(cenv, tr), fuel);
      if o == Normal {
        RunOne(cp, last, st1, fuel);
        LastCorrect(p, cp, s, e, n, env, cenv, st1, last, tr, fuel);
      }
    }
  }

  // The one thing, once the value is in its temporary.
  lemma {:induction false} LastCorrect(p: Program, cp: CProgram, s: Stmt, e: Expr, n: nat, env: Env, cenv: CEnv, st1: CState, last: Code, tr: Trace, fuel: nat)
    requires (s == Return(Some(e)) && last == ReturnC(Temp(LowerExpr(e, n).temp)))
             || (s.Let? && s.value == e && last == DeclVar(s.name, Temp(LowerExpr(e, n).temp)))
             || (s.Set? && s.value == e && last == AssignVar(s.name, LowerExpr(e, n).temp))
    requires Users(cenv) == env && Below(cenv, n)
    requires MatchesExpr(Eval(p, e, env, tr, fuel), (Normal, st1), cenv, n, LowerExpr(e, n))
    requires ExecStmt(p, s, State(env, tr), fuel).0 != Stopped(Wrong)
    ensures MatchesStmt(ExecStmt(p, s, State(env, tr), fuel), Step(cp, last, st1, fuel), cenv, n, LowerExpr(e, n).serial)
  {
    if s.Set? { StoreUsers(st1.env, s.name, Eval(p, e, env, tr, fuel).0.v); }
  }

  // A block entered and left: its temporaries vanish, its effects on outer variables stay.
  lemma {:induction false} BlockKeeps(p: Program, cp: CProgram, body: seq<Stmt>, m: nat, scope: Scope, outer: CEnv, tr: Trace, fuel: nat)
    requires Linked(p, cp) && scope.temp == map[]
    requires Exec(p, body, State(Cons(scope.user, Users(outer)), tr), fuel).0 != Stopped(Wrong)
    ensures MatchesBlock(Leave(Exec(p, body, State(Cons(scope.user, Users(outer)), tr), fuel)),
                         LeaveC(Run(cp, LowerBody(body, m).code, CState(Cons(scope, outer), tr), fuel)), outer)
    decreases fuel, body, 1
  {
    BodyCorrect(p, cp, body, m, Users(Cons(scope, outer)), Cons(scope, outer), tr, fuel);
  }

  lemma {:induction false} BlockCorrect(
      p: Program, cp: CProgram, body: seq<Stmt>, m: nat, scope: Scope, outer: CEnv, tr: Trace, fuel: nat, base: CEnv, n: nat, k: nat)
    requires Linked(p, cp) && Advances(base, outer, n, m) && n <= m && scope.temp == map[] && LowerBody(body, m).serial <= k
    requires Exec(p, body, State(Cons(scope.user, Users(outer)), tr), fuel).0 != Stopped(Wrong)
    ensures MatchesStmt(Leave(Exec(p, body, State(Cons(scope.user, Users(outer)), tr), fuel)),
                        LeaveC(Run(cp, LowerBody(body, m).code, CState(Cons(scope, outer), tr), fuel)),
                        base, n, k)
    decreases fuel, body, 2
  {
    BlockKeeps(p, cp, body, m, scope, outer, tr, fuel);
    Kept(Leave(Exec(p, body, State(Cons(scope.user, Users(outer)), tr), fuel)),
         LeaveC(Run(cp, LowerBody(body, m).code, CState(Cons(scope, outer), tr), fuel)), base, outer, n, m, k);
  }

  lemma Kept(src: (Outcome, State), tgt: (Outcome, CState), base: CEnv, outer: CEnv, n: nat, m: nat, k: nat)
    requires MatchesBlock(src, tgt, outer) && Advances(base, outer, n, m) && n <= m <= k
    ensures MatchesStmt(src, tgt, base, n, k)
  {
    if src.0 == Normal || src.0 == Broke || src.0 == Continued {
      SameTempsAdvance(outer, tgt.1.env, m, k);
      AdvancesTrans(base, outer, tgt.1.env, n, m, k);
    }
  }

  lemma {:induction false} IfCorrect(p: Program, cp: CProgram, s: Stmt, n: nat, env: Env, cenv: CEnv, tr: Trace, fuel: nat)
    requires s.If? && Linked(p, cp) && Users(cenv) == env && Below(cenv, n)
    requires ExecStmt(p, s, State(env, tr), fuel).0 != Stopped(Wrong)
    ensures MatchesStmt(ExecStmt(p, s, State(env, tr), fuel), Run(cp, LowerStmt(s, n).code, CState(cenv, tr), fuel), cenv, n, LowerStmt(s, n).serial)
    decreases fuel, s, 3
  {
    var cc := LowerExpr(s.cond, n);
    var ct := LowerBody(s.thn, cc.serial);
    var cf := LowerBody(s.els, ct.serial);
    var branch := Branch(IsTrue(cc.temp), ct.code, cf.code);
    UsersSees(cenv);
    ExprCorrect(p, cp, s.cond, n, env, cenv, tr, fuel);
    var (o, tr1) := Eval(p, s.cond, env, tr, fuel);
    RunSnoc(cp, cc.code, branch, CState(cenv, tr), fuel);
    if o.Ok? {
      var st1 := Run(cp, cc.code, CState(cenv, tr), fuel).1;
      assert Users(st1.env) == env;
      if o.v.b {
        BlockCorrect(p, cp, s.thn, cc.serial, EMPTY, st1.env, tr1, fuel, cenv, n, cf.serial);
      } else {
        BlockCorrect(p, cp, s.els, ct.serial, EMPTY, st1.env, tr1, fuel, cenv, n, cf.serial);
      }
    }
  }

  // An arm of a match: the payload is declared first, in the block of the arm.
  lemma {:induction false} ArmCorrect(
      p: Program, cp: CProgram, x: string, t: nat, v: Value, body: seq<Stmt>, m: nat, outer: CEnv, tr: Trace, fuel: nat, base: CEnv, n: nat, k: nat)
    requires Linked(p, cp) && Advances(base, outer, n, m) && n <= m && LowerBody(body, m).serial <= k
    requires v.VResult? && LookupTemp(outer, t) == Some(v)
    requires Exec(p, body, State(Cons(map[x := v.payload], Users(outer)), tr), fuel).0 != Stopped(Wrong)
    ensures MatchesStmt(Leave(Exec(p, body, State(Cons(map[x := v.payload], Users(outer)), tr), fuel)),
                        LeaveC(Run(cp, [DeclVar(x, Payload(t))] + LowerBody(body, m).code, CState(Cons(EMPTY, outer), tr), fuel)),
                        base, n, k)
    decreases fuel, body, 3
  {
    var scope := Scope(map[x := v.payload], map[]);
    BlockCorrect(p, cp, body, m, scope, outer, tr, fuel, base, n, k);
    RunAppend(cp, [DeclVar(x, Payload(t))], LowerBody(body, m).code, CState(Cons(EMPTY, outer), tr), fuel);
    RunOne(cp, DeclVar(x, Payload(t)), CState(Cons(EMPTY, outer), tr), fuel);
    assert LookupTemp(Cons(EMPTY, outer), t) == Some(v);
    assert EMPTY.user[x := v.payload] == scope.user;
  }

  lemma {:induction false} MatchCorrect(p: Program, cp: CProgram, s: Stmt, n: nat, env: Env, cenv: CEnv, tr: Trace, fuel: nat)
    requires s.Match? && Linked(p, cp) && Users(cenv) == env && Below(cenv, n)
    requires ExecStmt(p, s, State(env, tr), fuel).0 != Stopped(Wrong)
    ensures MatchesStmt(ExecStmt(p, s, State(env, tr), fuel), Run(cp, LowerStmt(s, n).code, CState(cenv, tr), fuel), cenv, n, LowerStmt(s, n).serial)
    decreases fuel, s, 3
  {
    var c := LowerExpr(s.value, n);
    var co := LowerBody(s.ok, c.serial);
    var ce := LowerBody(s.err, co.serial);
    var branch := Branch(IsOk(c.temp), [DeclVar(s.okName, Payload(c.temp))] + co.code, [DeclVar(s.errName, Payload(c.temp))] + ce.code);
    UsersSees(cenv);
    ExprCorrect(p, cp, s.value, n, env, cenv, tr, fuel);
    var (o, tr1) := Eval(p, s.value, env, tr, fuel);
    RunSnoc(cp, c.code, branch, CState(cenv, tr), fuel);
    if o.Ok? {
      var st1 := Run(cp, c.code, CState(cenv, tr), fuel).1;
      assert Users(st1.env) == env;
      if o.v.ok {
        ArmCorrect(p, cp, s.okName, c.temp, o.v, s.ok, c.serial, st1.env, tr1, fuel, cenv, n, ce.serial);
      } else {
        ArmCorrect(p, cp, s.errName, c.temp, o.v, s.err, co.serial, st1.env, tr1, fuel, cenv, n, ce.serial);
      }
    }
  }

  // ----- Loops -----

  lemma {:induction false} WhileCorrect(p: Program, cp: CProgram, s: Stmt, n: nat, env: Env, cenv: CEnv, tr: Trace, fuel: nat)
    requires s.While? && Linked(p, cp) && Users(cenv) == env && Below(cenv, n)
    requires ExecStmt(p, s, State(env, tr), fuel).0 != Stopped(Wrong)
    ensures MatchesStmt(ExecStmt(p, s, State(env, tr), fuel), Run(cp, LowerStmt(s, n).code, CState(cenv, tr), fuel), cenv, n, LowerStmt(s, n).serial)
    decreases fuel, s, 3
  {
    var cc := LowerExpr(s.cond, n);
    var loop := Forever(cc.code + [BreakUnless(cc.temp)] + LowerBody(s.body, cc.serial).code);
    RunOne(cp, Block([loop]), CState(cenv, tr), fuel);
    RunOne(cp, loop, Enter(CState(cenv, tr)), fuel);
    WhileLoopCorrect(p, cp, s, n, Cons(EMPTY, cenv), tr, fuel);
    BlockAdvances(WhileLoop(p, s, State(Push(env), tr), fuel), LoopC(cp, loop, Enter(CState(cenv, tr)), fuel), cenv, EMPTY, n, LowerStmt(s, n).serial);
  }

  lemma BlockAdvances(src: (Outcome, State), tgt: (Outcome, CState), cenv: CEnv, scope: Scope, n: nat, n': nat)
    requires MatchesBlock(src, tgt, Cons(scope, cenv)) && Below(cenv, n) && n <= n'
    ensures MatchesStmt(Leave(src), LeaveC(tgt), cenv, n, n')
  {
    if src.0 == Normal || src.0 == Broke || src.0 == Continued {
      assert Temps(tgt.1.env).tail == Temps(cenv);
      SameTempsAdvance(cenv, tgt.1.env.tail, n, n');
    }
  }

  lemma {:induction false} WhileLoopCorrect(p: Program, cp: CProgram, s: Stmt, n: nat, cenv: CEnv, tr: Trace, fuel: nat)
    requires s.While? && Linked(p, cp) && cenv.Cons?
    requires WhileLoop(p, s, State(Users(cenv), tr), fuel).0 != Stopped(Wrong)
    ensures var cc := LowerExpr(s.cond, n);
            var loop := Forever(cc.code + [BreakUnless(cc.temp)] + LowerBody(s.body, cc.serial).code);
            MatchesBlock(WhileLoop(p, s, State(Users(cenv), tr), fuel), LoopC(cp, loop, CState(cenv, tr), fuel), cenv)
    decreases fuel, s, 2
  {
    if fuel > 0 {
      var cc := LowerExpr(s.cond, n);
      var inner := Cons(EMPTY, cenv);
      UsersSees(inner);
      ExprCorrect(p, cp, s.cond, n, Users(inner), inner, tr, fuel);
      var (o, tr1) := Eval(p, s.cond, Users(inner), tr, fuel);
      var st1 := Run(cp, cc.code, CState(inner, tr), fuel).1;
      TestRuns(cp, cc, LowerBody(s.body, cc.serial).code, CState(inner, tr), fuel, o);
      if o.Ok? && o.v.b {
        assert Users(st1.env) == Users(inner);
        var cb := LowerBody(s.body, cc.serial).code;
        WhileUnfolds(p, cp, s, Forever(cc.code + [BreakUnless(cc.temp)] + cb), cb, cenv, st1, tr, fuel);
        WhileTurn(p, cp, s, n, cenv, st1, fuel);
      }
    }
  }

  // A condition that holds: both loops run the body, and what follows.
  lemma {:induction false} WhileUnfolds(p: Program, cp: CProgram, s: Stmt, loop: Code, body: seq<Code>, cenv: CEnv, st1: CState, tr: Trace, fuel: nat)
    requires s.While? && loop.Forever? && fuel > 0 && Users(st1.env) == Push(Users(cenv))
    requires Eval(p, s.cond, Push(Users(cenv)), tr, fuel) == (Ok(VBool(true)), st1.trace)
    requires Run(cp, loop.body, CState(Cons(EMPTY, cenv), tr), fuel) == Run(cp, body, st1, fuel)
    ensures WhileLoop(p, s, State(Users(cenv), tr), fuel) == WhileRest(p, s, Exec(p, s.body, State(Users(st1.env), st1.trace), fuel), fuel)
    ensures LoopC(cp, loop, CState(cenv, tr), fuel) == LoopRest(cp, loop, Run(cp, body, st1, fuel), fuel)
  {}

  // The code of the condition and its test, in front of the body.
  lemma {:induction false} TestRuns(cp: CProgram, cc: Lowered, body: seq<Code>, st: CState, fuel: nat, o: Res<Value>)
    requires var r := Run(cp, cc.code, st, fuel);
             if o.Ok? then o.v.VBool? && r.0 == Normal && LookupTemp(r.1.env, cc.temp) == Some(o.v) else r.0 == Stopped(o.why)
    ensures var r := Run(cp, cc.code, st, fuel);
            Run(cp, cc.code + [BreakUnless(cc.temp)] + body, st, fuel) ==
            if o.Halt? then r else if o.v.b then Run(cp, body, r.1, fuel) else (Broke, r.1)
  {
    RunAppend(cp, cc.code + [BreakUnless(cc.temp)], body, st, fuel);
    RunSnoc(cp, cc.code, BreakUnless(cc.temp), st, fuel);
  }

  // What the loops do after one run of their bodies.
  function WhileRest(p: Program, s: Stmt, r: (Outcome, State), fuel: nat): (Outcome, State)
    requires s.While? && fuel > 0
  {
    if Again(Leave(r).0) then WhileLoop(p, s, Leave(r).1, fuel - 1) else (LoopEnd(Leave(r).0), Leave(r).1)
  }

  function LoopRest(cp: CProgram, c: Code, r: (Outcome, CState), fuel: nat): (Outcome, CState)
    requires c.Forever? && fuel > 0
  {
    if Again(LeaveC(r).0) then LoopC(cp, c, LeaveC(r).1, fuel - 1) else (LoopEnd(LeaveC(r).0), LeaveC(r).1)
  }

  // One turn once the condition held: the body, and the turns after it.
  lemma {:induction false} WhileTurn(p: Program, cp: CProgram, s: Stmt, n: nat, cenv: CEnv, st1: CState, fuel: nat)
    requires s.While? && Linked(p, cp) && cenv.Cons? && fuel > 0
    requires Extends(Cons(EMPTY, cenv), st1.env, n, LowerExpr(s.cond, n).serial)
    requires WhileRest(p, s, Exec(p, s.body, State(Users(st1.env), st1.trace), fuel), fuel).0 != Stopped(Wrong)
    ensures var cc := LowerExpr(s.cond, n);
            var cb := LowerBody(s.body, cc.serial);
            var loop := Forever(cc.code + [BreakUnless(cc.temp)] + cb.code);
            MatchesBlock(WhileRest(p, s, Exec(p, s.body, State(Users(st1.env), st1.trace), fuel), fuel),
                         LoopRest(cp, loop, Run(cp, cb.code, st1, fuel), fuel), cenv)
    decreases fuel, s, 1
  {
    var cc := LowerExpr(s.cond, n);
    BodyCorrect(p, cp, s.body, cc.serial, Users(st1.env), st1.env, st1.trace, fuel);
    var (ob, st2) := Leave(Exec(p, s.body, State(Users(st1.env), st1.trace), fuel));
    var (oc, stc) := LeaveC(Run(cp, LowerBody(s.body, cc.serial).code, st1, fuel));
    if Again(ob) { WhileLoopCorrect(p, cp, s, n, stc.env, st2.trace, fuel - 1); }
  }

  lemma {:induction false} ForRangeCorrect(p: Program, cp: CProgram, s: Stmt, n: nat, env: Env, cenv: CEnv, tr: Trace, fuel: nat)
    requires s.ForRange? && Linked(p, cp) && Users(cenv) == env && Below(cenv, n)
    requires ExecStmt(p, s, State(env, tr), fuel).0 != Stopped(Wrong)
    ensures MatchesStmt(ExecStmt(p, s, State(env, tr), fuel), Run(cp, LowerStmt(s, n).code, CState(cenv, tr), fuel), cenv, n, LowerStmt(s, n).serial)
    decreases fuel, s, 3
  {
    var ca := LowerExpr(s.start, n);
    var cb := LowerExpr(s.end, ca.serial);
    var cs := LowerBody(s.body, cb.serial);
    var tail := [DeclVar(s.name, Temp(ca.temp)), Count(s.name, cb.temp, cs.code)];
    var inner := Cons(EMPTY, cenv);
    var st := CState(inner, tr);
    var lo := Eval(p, s.start, Users(inner), tr, fuel);
    var hi := Eval(p, s.end, Users(inner), lo.1, fuel);
    BlockOfTwo(cp, ca.code + cb.code, tail, CState(cenv, tr), fuel);
    UsersSees(inner);
    ExprCorrect(p, cp, s.start, n, Users(inner), inner, tr, fuel);
    if lo.0.Ok? {
      var mid := Run(cp, ca.code, st, fuel).1;
      SeesExtended(Users(inner), inner, mid.env, n, ca.serial);
      ExprCorrect(p, cp, s.end, ca.serial, Users(inner), mid.env, lo.1, fuel);
    }
    TwoJoined(cp, lo, hi, ca, cb, n, st, fuel);
    if lo.0.Ok? && hi.0.Ok? {
      var end := Run(cp, ca.code + cb.code, st, fuel).1;
      CountCorrect(p, cp, s, n, ca.temp, cb.temp, cb.serial, lo.0.v.n, hi.0.v.n, cenv, end, fuel, cs.serial);
    }
  }

  lemma {:induction false} BlockOfTwo(cp: CProgram, a: seq<Code>, b: seq<Code>, st: CState, fuel: nat)
    ensures var r := Run(cp, a, Enter(st), fuel);
            Run(cp, [Block(a + b)], st, fuel) == LeaveC(if r.0 == Normal then Run(cp, b, r.1, fuel) else r)
  {
    RunOne(cp, Block(a + b), st, fuel);
    RunAppend(cp, a, b, Enter(st), fuel);
  }

  // The loop once both bounds are known: `V x=a;for(;x.i<b.i;x.i++){..}`.
  lemma {:induction false} CountCorrect(
      p: Program, cp: CProgram, s: Stmt, n: nat, ta: nat, tb: nat, m: nat, lo: int, hi: int, cenv: CEnv, st: CState, fuel: nat, k: nat)
    requires s.ForRange? && Linked(p, cp) && Below(cenv, n) && n <= k
    requires Extends(Cons(EMPTY, cenv), st.env, n, m)
    requires LookupTemp(st.env, ta) == Some(VInt(lo)) && LookupTemp(st.env, tb) == Some(VInt(hi))
    requires RangeLoop(p, s, hi, State(Cons(map[s.name := VInt(lo)], Users(cenv)), st.trace), fuel).0 != Stopped(Wrong)
    ensures MatchesStmt(Leave(RangeLoop(p, s, hi, State(Cons(map[s.name := VInt(lo)], Users(cenv)), st.trace), fuel)),
                        LeaveC(Run(cp, [DeclVar(s.name, Temp(ta)), Count(s.name, tb, LowerBody(s.body, m).code)], st, fuel)), cenv, n, k)
    decreases fuel, s, 2
  {
    var decl, count := DeclVar(s.name, Temp(ta)), Count(s.name, tb, LowerBody(s.body, m).code);
    var env := Cons(st.env.head.(user := map[s.name := VInt(lo)]), cenv);
    DeclaredThen(cp, s.name, ta, count, lo, cenv, st, fuel);
    assert LookupTemp(env, tb) == Some(VInt(hi));
    RangeLoopCorrect(p, cp, s, m, tb, hi, env, st.trace, fuel);
    BlockAdvances(RangeLoop(p, s, hi, State(Users(env), st.trace), fuel), CountC(cp, count, CState(env, st.trace), fuel), cenv, env.head, n, k);
  }

  // Declaring the loop variable in a block without variables, and the loop.
  lemma {:induction false} DeclaredThen(cp: CProgram, x: string, ta: nat, count: Code, lo: int, cenv: CEnv, st: CState, fuel: nat)
    requires count.Count? && st.env.Cons? && st.env.tail == cenv && st.env.head.user == map[]
    requires LookupTemp(st.env, ta) == Some(VInt(lo))
    ensures Run(cp, [DeclVar(x, Temp(ta)), count], st, fuel) ==
            CountC(cp, count, CState(Cons(st.env.head.(user := map[x := VInt(lo)]), cenv), st.trace), fuel)
  {
    var decl := DeclVar(x, Temp(ta));
    RunSnoc(cp, [decl], count, st, fuel);
    assert [decl] + [count] == [decl, count];
    RunOne(cp, decl, st, fuel);
  }

  lemma {:induction false} RangeLoopCorrect(
      p: Program, cp: CProgram, s: Stmt, n: nat, t: nat, end: int, cenv: CEnv, tr: Trace, fuel: nat)
    requires s.ForRange? && Linked(p, cp) && Below(cenv, n) && LookupTemp(cenv, t) == Some(VInt(end))
    requires RangeLoop(p, s, end, State(Users(cenv), tr), fuel).0 != Stopped(Wrong)
    ensures MatchesBlock(RangeLoop(p, s, end, State(Users(cenv), tr), fuel),
                         CountC(cp, Count(s.name, t, LowerBody(s.body, n).code), CState(cenv, tr), fuel), cenv)
    decreases fuel, s, 1
  {
    if fuel > 0 {
      UsersLookup(cenv, s.name);
      if Lookup(Users(cenv), s.name).value.n < end {
        BlockKeeps(p, cp, s.body, n, EMPTY, cenv, tr, fuel);
        var r := Leave(Exec(p, s.body, State(Push(Users(cenv)), tr), fuel));
        var rc := LeaveC(Run(cp, LowerBody(s.body, n).code, CState(Cons(EMPTY, cenv), tr), fuel));
        RangeUnfolds(p, cp, s, Count(s.name, t, LowerBody(s.body, n).code), end, cenv, tr, fuel);
        RangeTurn(p, cp, s, n, t, end, cenv, r, rc, fuel);
      }
    }
  }

  lemma {:induction false} RangeUnfolds(p: Program, cp: CProgram, s: Stmt, c: Code, end: int, cenv: CEnv, tr: Trace, fuel: nat)
    requires s.ForRange? && c.Count? && c.x == s.name && LookupTemp(cenv, c.end) == Some(VInt(end)) && fuel > 0
    requires var i := LookupVar(cenv, s.name);
             i == Lookup(Users(cenv), s.name) && i.Some? && i.value.VInt? && i.value.n < end
    ensures RangeLoop(p, s, end, State(Users(cenv), tr), fuel) ==
            RangeRest(p, s, end, Leave(Exec(p, s.body, State(Push(Users(cenv)), tr), fuel)), fuel)
    ensures CountC(cp, c, CState(cenv, tr), fuel) == CountRest(cp, c, LeaveC(Run(cp, c.body, CState(Cons(EMPTY, cenv), tr), fuel)), fuel)
  {}

  // What the loops do after one run of their bodies: the variable steps, whatever the body made of it.
  function RangeRest(p: Program, s: Stmt, end: int, r: (Outcome, State), fuel: nat): (Outcome, State)
    requires s.ForRange? && fuel > 0
  {
    if !Again(r.0) then (LoopEnd(r.0), r.1) else
    var j := Lookup(r.1.env, s.name);
    if j.None? || !j.value.VInt? then (Stopped(Wrong), r.1) else
    var env := Assign(r.1.env, s.name, VInt(Int64.Wrap(j.value.n + 1)));
    if env.None? then (Stopped(Wrong), r.1) else RangeLoop(p, s, end, State(env.value, r.1.trace), fuel - 1)
  }

  function CountRest(cp: CProgram, c: Code, r: (Outcome, CState), fuel: nat): (Outcome, CState)
    requires c.Count? && fuel > 0
  {
    if !Again(r.0) then (LoopEnd(r.0), r.1) else
    var j := LookupVar(r.1.env, c.x);
    if j.None? then (Stopped(Wrong), r.1) else
    var env := StoreVar(r.1.env, c.x, Bumped(j.value));
    if env.None? then (Stopped(Wrong), r.1) else CountC(cp, c, CState(env.value, r.1.trace), fuel - 1)
  }

  lemma {:induction false} RangeTurn(
      p: Program, cp: CProgram, s: Stmt, n: nat, t: nat, end: int, cenv: CEnv, r: (Outcome, State), rc: (Outcome, CState), fuel: nat)
    requires s.ForRange? && Linked(p, cp) && Below(cenv, n) && LookupTemp(cenv, t) == Some(VInt(end)) && fuel > 0
    requires MatchesBlock(r, rc, cenv) && RangeRest(p, s, end, r, fuel).0 != Stopped(Wrong)
    ensures MatchesBlock(RangeRest(p, s, end, r, fuel), CountRest(cp, Count(s.name, t, LowerBody(s.body, n).code), rc, fuel), cenv)
    decreases fuel, s, 0
  {
    if Again(r.0) {
      UsersLookup(rc.1.env, s.name);
      var v := VInt(Int64.Wrap(Lookup(r.1.env, s.name).value.n + 1));
      StoreUsers(rc.1.env, s.name, v);
      var next := StoreVar(rc.1.env, s.name, v).value;
      TempsLookup(next, cenv, t);
      RangeLoopCorrect(p, cp, s, n, t, end, next, r.1.trace, fuel - 1);
    }
  }

  // ----- Whole modules -----

  function ProgramOf(fs: Module): Program {
    if fs == [] then map[] else ProgramOf(fs[1..])[fs[0].0 := fs[0].1]
  }

  function CProgramOf(fs: CModule): CProgram {
    if fs == [] then map[] else CProgramOf(fs[1..])[fs[0].0 := fs[0].1]
  }

  lemma {:induction false} ModuleLinked(fs: Module, n: nat)
    ensures Linked(ProgramOf(fs), CProgramOf(LowerModule(fs, n)))
  {
    if fs != [] {
      ModuleLinked(fs[1..], LowerBody(fs[0].1.body, n).serial);
    }
  }

  // The backend's theorem. Read the generated text back as C and call any function: the result,
  // the overflow exit and the ordered trace of calls are those of the source, at every fuel.
  lemma {:induction false} BackendCorrect(fs: Module, f: string, args: seq<Value>, tr: Trace, fuel: nat)
    requires f in ProgramOf(fs) && |args| == |ProgramOf(fs)[f].params|
    requires CallSource(ProgramOf(fs), f, args, tr, fuel).0 != Halt(Wrong)
    ensures var read := ReadModule(PrintModule([], LowerModule(fs, 0)));
            && read == Some(LowerModule(fs, 0))
            && f in CProgramOf(read.value)
            && |args| == |CProgramOf(read.value)[f].params|
            && CallTarget(CProgramOf(read.value), f, args, tr, fuel) == CallSource(ProgramOf(fs), f, args, tr, fuel)
  {
    PrintModuleIsLines([], LowerModule(fs, 0));
    assert [] + ModuleLines(LowerModule(fs, 0)) == ModuleLines(LowerModule(fs, 0));
    ReadModuleLines(LowerModule(fs, 0));
    ModuleLinked(fs, 0);
    FuncCorrect(ProgramOf(fs), CProgramOf(LowerModule(fs, 0)), f, args, tr, fuel);
  }
}
