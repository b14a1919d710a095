/**
What the text of a function charges it with, call by call: an effect is needed exactly if some call,
transaction or spawn that stands in the text charges it by itself.
*/
module EffectText {
  import opened Wrappers
  import opened Effects

  datatype Node = OfExpr(e: Expr) | OfStmt(s: Stmt)

  // The node is the expression or stands in it.
  ghost predicate InE(n: Node, e: Expr)
    decreases e
  {
    || n == OfExpr(e)
    || match e
       case Leaf => false
       case Operation(es) => InEs(n, es)
       case AndOr(l, r) => InE(n, l) || InE(n, r)
       case Call(_, args) => InEs(n, args)
       case Try(s) => InE(n, s)
       case IfE(c, t, el) => InE(n, c) || InE(n, t) || InE(n, el)
       case MatchE(v, o, r) => InE(n, v) || InE(n, o) || InE(n, r)
  }

  ghost predicate InEs(n: Node, es: seq<Expr>)
    decreases es
  {
    exists i :: 0 <= i < |es| && InE(n, es[i])
  }

  ghost predicate InS(n: Node, s: Stmt)
    decreases s
  {
    || n == OfStmt(s)
    || match s
       case Do(es) => InEs(n, es)
       case Return(es) => InEs(n, es)
       case Break => false
       case Continue => false
       case If(c, t, el) => InE(n, c) || In(n, t) || In(n, el)
       case Loop(once, each, b) => InEs(n, once) || InEs(n, each) || In(n, b)
       case Match(v, o, r) => InE(n, v) || In(n, o) || In(n, r)
       case Transaction(b) => In(n, b)
       case Spawn(_, args) => InEs(n, args)
  }

  ghost predicate In(n: Node, body: seq<Stmt>)
    decreases body
  {
    exists i :: 0 <= i < |body| && InS(n, body[i])
  }

  // The function that a node calls by itself.
  function Callee(n: Node): Option<string> {
    if n.OfExpr? && n.e.Call? then Some(n.e.func) else if n.OfStmt? && n.s.Spawn? then Some(n.s.func) else None
  }

  predicate Resolved(p: Program, n: Node) { Callee(n).Some? ==> Charge(p, Callee(n).value).Some? }

  // What a node is charged with, apart from what stands in it.
  predicate Charges(p: Program, n: Node, e: Effect) {
    || (Callee(n).Some? && Charge(p, Callee(n).value).Some? && e in Charge(p, Callee(n).value).value)
    || (n.OfStmt? && n.s.Transaction? && e == DB)
    || (n.OfStmt? && n.s.Spawn? && e == SPAWN)
  }

  ghost predicate ChargedE(p: Program, x: Expr, e: Effect) { exists n :: InE(n, x) && Charges(p, n, e) }
  ghost predicate ChargedEs(p: Program, xs: seq<Expr>, e: Effect) { exists n :: InEs(n, xs) && Charges(p, n, e) }
  ghost predicate ChargedS(p: Program, s: Stmt, e: Effect) { exists n :: InS(n, s) && Charges(p, n, e) }
  ghost predicate Charged(p: Program, body: seq<Stmt>, e: Effect) { exists n :: In(n, body) && Charges(p, n, e) }

  // A function whose calls are all of known functions, and that declares the effects that its text charges it
  // with, and no others.
  ghost predicate WellDeclared(p: Program, f: Func) {
    && (forall n :: In(n, f.onErr) || In(n, f.body) ==> Resolved(p, n))
    && (forall e :: e in f.effects <==> Charged(p, f.onErr, e) || Charged(p, f.body, e))
  }

  lemma {:induction false} EsCons(n: Node, x: Expr, xs: seq<Expr>)
    ensures InEs(n, [x] + xs) <==> InE(n, x) || InEs(n, xs)
  {
    var all := [x] + xs;
    if InEs(n, xs) {
      var i :| 0 <= i < |xs| && InE(n, xs[i]);
      assert InE(n, all[i + 1]);
    }
    if InE(n, x) { assert InE(n, all[0]); }
    if InEs(n, all) {
      var i :| 0 <= i < |all| && InE(n, all[i]);
      if i > 0 { assert InE(n, xs[i - 1]); }
    }
  }

  lemma {:induction false} BodyCons(n: Node, s: Stmt, body: seq<Stmt>)
    ensures In(n, [s] + body) <==> InS(n, s) || In(n, body)
  {
    var all := [s] + body;
    if In(n, body) {
      var i :| 0 <= i < |body| && InS(n, body[i]);
      assert InS(n, all[i + 1]);
    }
    if InS(n, s) { assert InS(n, all[0]); }
    if In(n, all) {
      var i :| 0 <= i < |all| && InS(n, all[i]);
      if i > 0 { assert InS(n, body[i - 1]); }
    }
  }

  // ----- The effects needed are those charged in the text -----

  lemma {:induction false} NeedsAreChargedE(p: Program, x: Expr, e: Effect)
    ensures e in NeedsE(p, x) <==> ChargedE(p, x, e)
    decreases x, 1
  {
    match x
    case Leaf =>
    case Operation(es) => NeedsAreChargedEs(p, es, e);
    case AndOr(l, r) => NeedsAreChargedE(p, l, e); NeedsAreChargedE(p, r, e);
    case Call(f, args) => NeedsAreChargedEs(p, args, e); assert Callee(OfExpr(x)) == Some(f) && InE(OfExpr(x), x);
    case Try(s) => NeedsAreChargedE(p, s, e);
    case IfE(c, t, el) => NeedsAreChargedE(p, c, e); NeedsAreChargedE(p, t, e); NeedsAreChargedE(p, el, e);
    case MatchE(v, o, r) => NeedsAreChargedE(p, v, e); NeedsAreChargedE(p, o, e); NeedsAreChargedE(p, r, e);
  }

  lemma {:induction false} NeedsAreChargedEs(p: Program, xs: seq<Expr>, e: Effect)
    ensures e in NeedsEs(p, xs) <==> ChargedEs(p, xs, e)
    decreases xs, 0
  {
    if xs != [] {
      NeedsAreChargedE(p, xs[0], e);
      NeedsAreChargedEs(p, xs[1..], e);
      assert [xs[0]] + xs[1..] == xs;
      forall n ensures InEs(n, xs) <==> InE(n, xs[0]) || InEs(n, xs[1..]) { EsCons(n, xs[0], xs[1..]); }
    }
  }

  lemma {:induction false} NeedsAreChargedS(p: Program, s: Stmt, e: Effect)
    ensures e in NeedsS(p, s) <==> ChargedS(p, s, e)
    decreases s, 1
  {
    match s
    case Do(es) => NeedsAreChargedEs(p, es, e);
    case Return(es) => NeedsAreChargedEs(p, es, e);
    case Break =>
    case Continue =>
    case If(c, t, el) => NeedsAreChargedE(p, c, e); NeedsAreCharged(p, t, e); NeedsAreCharged(p, el, e);
    case Loop(once, each, b) => NeedsAreChargedEs(p, once, e); NeedsAreChargedEs(p, each, e); NeedsAreCharged(p, b, e);
    case Match(v, o, r) => NeedsAreChargedE(p, v, e); NeedsAreCharged(p, o, e); NeedsAreCharged(p, r, e);
    case Transaction(b) => NeedsAreCharged(p, b, e); assert InS(OfStmt(s), s);
    case Spawn(f, args) => NeedsAreChargedEs(p, args, e); assert Callee(OfStmt(s)) == Some(f) && InS(OfStmt(s), s);
  }

  lemma {:induction false} NeedsAreCharged(p: Program, body: seq<Stmt>, e: Effect)
    ensures e in Needs(p, body) <==> Charged(p, body, e)
    decreases body, 0
  {
    if body != [] {
      NeedsAreChargedS(p, body[0], e);
      NeedsAreCharged(p, body[1..], e);
      assert [body[0]] + body[1..] == body;
      forall n ensures In(n, body) <==> InS(n, body[0]) || In(n, body[1..]) { BodyCons(n, body[0], body[1..]); }
    }
  }

  // ----- The calls known are those of known functions -----

  ghost predicate ResolvedE(p: Program, x: Expr) { forall n :: InE(n, x) ==> Resolved(p, n) }
  ghost predicate ResolvedEs(p: Program, xs: seq<Expr>) { forall n :: InEs(n, xs) ==> Resolved(p, n) }
  ghost predicate ResolvedS(p: Program, s: Stmt) { forall n :: InS(n, s) ==> Resolved(p, n) }
  ghost predicate ResolvedAll(p: Program, body: seq<Stmt>) { forall n :: In(n, body) ==> Resolved(p, n) }

  lemma {:induction false} KnownResolvedE(p: Program, x: Expr)
    ensures KnownE(p, x) <==> ResolvedE(p, x)
    decreases x, 1
  {
    match x
    case Leaf =>
    case Operation(es) => KnownResolvedEs(p, es);
    case AndOr(l, r) => KnownResolvedE(p, l); KnownResolvedE(p, r);
    case Call(f, args) => KnownResolvedEs(p, args); assert Callee(OfExpr(x)) == Some(f) && InE(OfExpr(x), x);
    case Try(s) => KnownResolvedE(p, s);
    case IfE(c, t, el) => KnownResolvedE(p, c); KnownResolvedE(p, t); KnownResolvedE(p, el);
    case MatchE(v, o, r) => KnownResolvedE(p, v); KnownResolvedE(p, o); KnownResolvedE(p, r);
  }

  lemma {:induction false} KnownResolvedEs(p: Program, xs: seq<Expr>)
    ensures KnownEs(p, xs) <==> ResolvedEs(p, xs)
    decreases xs, 0
  {
    if xs != [] {
      KnownResolvedE(p, xs[0]);
      KnownResolvedEs(p, xs[1..]);
      assert [xs[0]] + xs[1..] == xs;
      forall n ensures InEs(n, xs) <==> InE(n, xs[0]) || InEs(n, xs[1..]) { EsCons(n, xs[0], xs[1..]); }
    }
  }

  lemma {:induction false} KnownResolvedS(p: Program, s: Stmt)
    ensures KnownS(p, s) <==> ResolvedS(p, s)
    decreases s, 1
  {
    match s
    case Do(es) => KnownResolvedEs(p, es);
    case Return(es) => KnownResolvedEs(p, es);
    case Break =>
    case Continue =>
    case If(c, t, el) => KnownResolvedE(p, c); KnownResolved(p, t); KnownResolved(p, el);
    case Loop(once, each, b) => KnownResolvedEs(p, once); KnownResolvedEs(p, each); KnownResolved(p, b);
    case Match(v, o, r) => KnownResolvedE(p, v); KnownResolved(p, o); KnownResolved(p, r);
    case Transaction(b) => KnownResolved(p, b);
    case Spawn(f, args) => KnownResolvedEs(p, args); assert Callee(OfStmt(s)) == Some(f) && InS(OfStmt(s), s);
  }

  lemma {:induction false} KnownResolved(p: Program, body: seq<Stmt>)
    ensures Known(p, body) <==> ResolvedAll(p, body)
    decreases body, 0
  {
    if body != [] {
      KnownResolvedS(p, body[0]);
      KnownResolved(p, body[1..]);
      assert [body[0]] + body[1..] == body;
      forall n ensures In(n, body) <==> InS(n, body[0]) || In(n, body[1..]) { BodyCons(n, body[0], body[1..]); }
    }
  }

  lemma {:induction false} ExactDeclared(p: Program, f: Func)
    ensures Exact(p, f) <==> WellDeclared(p, f)
  {
    KnownResolved(p, f.onErr);
    KnownResolved(p, f.body);
    forall e ensures e in Needs(p, f.onErr) + Needs(p, f.body) <==> Charged(p, f.onErr, e) || Charged(p, f.body, e) {
      NeedsAreCharged(p, f.onErr, e);
      NeedsAreCharged(p, f.body, e);
    }
    assert forall e :: e in f.effects <==> e in Elems(f.effects);
  }
}
