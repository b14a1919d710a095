/**
Declared effects. The checker compares what a body needs, by the builtins it calls and by what the
functions it calls declare, with what its function declares; a run performs effects through calls of
any depth, recursion, spawned calls and handlers.
*/
module Effects {
  import opened Wrappers

  type Effect = string

  // What a spawn and a transaction are charged with themselves.
  const SPAWN := "spawn"
  const DB := "db"

  datatype Expr =
    | Leaf
    | Operation(operands: seq<Expr>)          // operands left to right: operators, recv, field access
    | AndOr(left: Expr, right: Expr)
    | Call(func: string, args: seq<Expr>)
    | Try(sub: Expr)
    | IfE(cond: Expr, then_: Expr, else_: Expr)
    | MatchE(value: Expr, ok: Expr, err: Expr)

  datatype Stmt =
    | Do(exprs: seq<Expr>)                    // let, set, send and expression statements
    | Return(exprs: seq<Expr>)
    | Break
    | Continue
    | If(cond: Expr, then_: seq<Stmt>, else_: seq<Stmt>)
    | Loop(once: seq<Expr>, each: seq<Expr>, body: seq<Stmt>)   // while, for-range and for-each
    | Match(value: Expr, ok: seq<Stmt>, err: seq<Stmt>)
    | Transaction(body: seq<Stmt>)
    | Spawn(func: string, args: seq<Expr>)

  datatype Func = Func(effects: seq<Effect>, body: seq<Stmt>, onErr: seq<Stmt>)

  datatype Program = Program(builtins: map<string, seq<Effect>>, funcs: map<string, Func>)

  // Builtins are found by their name with hyphens.
  function Hyphens(s: string): string {
    if s == "" then "" else [if s[0] == '_' then '-' else s[0]] + Hyphens(s[1..])
  }

  function Elems(s: seq<Effect>): set<Effect> { set e | e in s }

  // What a call is charged with: the effects of the builtin, or those the function declares.
  function Charge(p: Program, f: string): Option<seq<Effect>> {
    if Hyphens(f) in p.builtins then Some(p.builtins[Hyphens(f)])
    else if f in p.funcs then Some(p.funcs[f].effects)
    else None
  }

  // ----- What a body needs -----

  function NeedsE(p: Program, e: Expr): set<Effect> {
    match e
    case Leaf => {}
    case Operation(es) => NeedsEs(p, es)
    case AndOr(l, r) => NeedsE(p, l) + NeedsE(p, r)
    case Call(f, args) => NeedsEs(p, args) + (if Charge(p, f).Some? then Elems(Charge(p, f).value) else {})
    case Try(s) => NeedsE(p, s)
    case IfE(c, t, el) => NeedsE(p, c) + NeedsE(p, t) + NeedsE(p, el)
    case MatchE(v, o, r) => NeedsE(p, v) + NeedsE(p, o) + NeedsE(p, r)
  }

  function NeedsEs(p: Program, es: seq<Expr>): set<Effect> {
    if es == [] then {} else NeedsE(p, es[0]) + NeedsEs(p, es[1..])
  }

  function NeedsS(p: Program, s: Stmt): set<Effect> {
    match s
    case Do(es) => NeedsEs(p, es)
    case Return(es) => NeedsEs(p, es)
    case Break => {}
    case Continue => {}
    case If(c, t, el) => NeedsE(p, c) + Needs(p, t) + Needs(p, el)
    case Loop(once, each, b) => NeedsEs(p, once) + NeedsEs(p, each) + Needs(p, b)
    case Match(v, o, r) => NeedsE(p, v) + Needs(p, o) + Needs(p, r)
    case Transaction(b) => {DB} + Needs(p, b)
    case Spawn(f, args) => {SPAWN} + NeedsE(p, Call(f, args))
  }

  function Needs(p: Program, body: seq<Stmt>): set<Effect> {
    if body == [] then {} else NeedsS(p, body[0]) + Needs(p, body[1..])
  }

  // Every function called is known.
  predicate KnownE(p: Program, e: Expr) {
    match e
    case Leaf => true
    case Operation(es) => KnownEs(p, es)
    case AndOr(l, r) => KnownE(p, l) && KnownE(p, r)
    case Call(f, args) => Charge(p, f).Some? && KnownEs(p, args)
    case Try(s) => KnownE(p, s)
    case IfE(c, t, el) => KnownE(p, c) && KnownE(p, t) && KnownE(p, el)
    case MatchE(v, o, r) => KnownE(p, v) && KnownE(p, o) && KnownE(p, r)
  }

  predicate KnownEs(p: Program, es: seq<Expr>) { es != [] ==> KnownE(p, es[0]) && KnownEs(p, es[1..]) }

  predicate KnownS(p: Program, s: Stmt) {
    match s
    case Do(es) => KnownEs(p, es)
    case Return(es) => KnownEs(p, es)
    case Break => true
    case Continue => true
    case If(c, t, el) => KnownE(p, c) && Known(p, t) && Known(p, el)
    case Loop(once, each, b) => KnownEs(p, once) && KnownEs(p, each) && Known(p, b)
    case Match(v, o, r) => KnownE(p, v) && Known(p, o) && Known(p, r)
    case Transaction(b) => Known(p, b)
    case Spawn(f, args) => KnownE(p, Call(f, args))
  }

  predicate Known(p: Program, body: seq<Stmt>) { body != [] ==> KnownS(p, body[0]) && Known(p, body[1..]) }

  // A function whose calls are known and that declares exactly what it needs.
  predicate Exact(p: Program, f: Func) {
    Known(p, f.onErr) && Known(p, f.body) && Elems(f.effects) == Needs(p, f.onErr) + Needs(p, f.body)
  }

  // ----- Runs -----

  // Fell through, left the loop, its turn or the function, failed (in a try, or at the bounds of a
  // transaction), or was cut off: it ran out of choices, or called a function nobody declares.
  datatype Exit = Falls | Breaks | Continues | Returns | Fails | Cut

  // The effects performed, in order, and the choices left.
  datatype Outcome = Outcome(trace: seq<Effect>, left: seq<nat>, exit: Exit)

  // The second part runs if the first fell through.
  function Prefixed(trace: seq<Effect>, o: Outcome): Outcome { o.(trace := trace + o.trace) }

  // A choice decides each branch, each further iteration, each try, and lets each call begin; so the
  // runs by all lists of choices are all the runs there are, cut off at any point.
  function RunE(p: Program, e: Expr, cs: seq<nat>): (o: Outcome)
    ensures |o.left| <= |cs|
    decreases |cs|, 3, e
  {
    match e
    case Leaf => Outcome([], cs, Falls)
    case Operation(es) => RunEs(p, es, cs)
    case AndOr(l, r) =>
      var a := RunE(p, l, cs);
      if !a.exit.Falls? then a
      else if a.left == [] then a.(exit := Cut)
      else if a.left[0] == 0 then a.(left := a.left[1..])
      else Prefixed(a.trace, RunE(p, r, a.left[1..]))
    case Call(f, args) =>
      var a := RunEs(p, args, cs);
      if !a.exit.Falls? then a else Prefixed(a.trace, RunCall(p, f, a.left))
    case Try(s) =>
      var a := RunE(p, s, cs);
      if !a.exit.Falls? then a
      else if a.left == [] then a.(exit := Cut)
      else Outcome(a.trace, a.left[1..], if a.left[0] == 0 then Falls else Fails)
    case IfE(c, t, el) =>
      var a := RunE(p, c, cs);
      if !a.exit.Falls? then a
      else if a.left == [] then a.(exit := Cut)
      else Prefixed(a.trace, RunE(p, if a.left[0] == 0 then t else el, a.left[1..]))
    case MatchE(v, ok, err) =>
      var a := RunE(p, v, cs);
      if !a.exit.Falls? then a
      else if a.left == [] then a.(exit := Cut)
      else Prefixed(a.trace, RunE(p, if a.left[0] == 0 then ok else err, a.left[1..]))
  }

  function RunEs(p: Program, es: seq<Expr>, cs: seq<nat>): (o: Outcome)
    ensures |o.left| <= |cs|
    decreases |cs|, 3, es
  {
    if es == [] then Outcome([], cs, Falls) else
    var a := RunE(p, es[0], cs);
    if !a.exit.Falls? then a else Prefixed(a.trace, RunEs(p, es[1..], a.left))
  }

  // A builtin performs its effects; a function runs, and then its caller goes on.
  function RunCall(p: Program, f: string, cs: seq<nat>): (o: Outcome)
    ensures |o.left| <= |cs|
    decreases |cs|, 2
  {
    if Hyphens(f) in p.builtins then Outcome(p.builtins[Hyphens(f)], cs, Falls)
    else if cs == [] || f !in p.funcs then Outcome([], cs, Cut)
    else
      var o := RunFunc(p, p.funcs[f], cs[1..]);
      o.(exit := if o.exit.Cut? then Cut else Falls)
  }

  // The body, and the handler if a try of the body failed.
  function RunFunc(p: Program, f: Func, cs: seq<nat>): (o: Outcome)
    ensures |o.left| <= |cs|
    decreases |cs|, 5
  {
    var a := Run(p, f.body, cs);
    if !a.exit.Fails? then a else Prefixed(a.trace, Run(p, f.onErr, a.left))
  }

  function RunS(p: Program, s: Stmt, cs: seq<nat>): (o: Outcome)
    ensures |o.left| <= |cs|
    decreases |cs|, 4, s, 1
  {
    match s
    case Do(es) => RunEs(p, es, cs)
    case Return(es) => var a := RunEs(p, es, cs); if a.exit.Falls? then a.(exit := Returns) else a
    case Break => Outcome([], cs, Breaks)
    case Continue => Outcome([], cs, Continues)
    case If(c, t, el) =>
      var a := RunE(p, c, cs);
      if !a.exit.Falls? then a
      else if a.left == [] then a.(exit := Cut)
      else Prefixed(a.trace, if a.left[0] == 0 then Run(p, t, a.left[1..]) else Run(p, el, a.left[1..]))
    case Loop(once, each, b) =>
      var a := RunEs(p, once, cs);
      if !a.exit.Falls? then a else Prefixed(a.trace, RunLoop(p, s, a.left))
    case Match(v, ok, err) =>
      var a := RunE(p, v, cs);
      if !a.exit.Falls? then a
      else if a.left == [] then a.(exit := Cut)
      else Prefixed(a.trace, if a.left[0] == 0 then Run(p, ok, a.left[1..]) else Run(p, err, a.left[1..]))
    case Transaction(b) =>
      if cs == [] then Outcome([DB], cs, Cut)
      else if cs[0] != 0 then Outcome([DB], cs[1..], Fails)
      else Prefixed([DB], Committed(Run(p, b, cs[1..])))
    case Spawn(f, args) =>
      var a := RunEs(p, args, cs);
      if !a.exit.Falls? then a else Prefixed(a.trace, RunSpawned(p, f, a.left))
  }

  // Beginning and committing reach the database and may fail. A block that is left before its commit is
  // rolled back when the function returns, which is not listed again.
  function Committed(b: Outcome): Outcome {
    if !b.exit.Falls? then b
    else if b.left == [] then Outcome(b.trace + [DB], b.left, Cut)
    else Outcome(b.trace + [DB], b.left[1..], if b.left[0] == 0 then Falls else Fails)
  }

  // The spawned call runs beside its spawner, as far as its share of the choices takes it; whether it
  // ends or not, the spawner goes on.
  function RunSpawned(p: Program, f: string, cs: seq<nat>): (o: Outcome)
    ensures |o.left| <= |cs|
    decreases |cs|, 3
  {
    if cs == [] then Outcome([SPAWN], cs, Cut) else
    var k := if cs[0] < |cs| then 1 + cs[0] else |cs|;
    Outcome([SPAWN] + RunCall(p, f, cs[1..k]).trace, cs[k..], Falls)
  }

  // Any number of iterations; a choice other than 0 lets another one begin.
  function RunLoop(p: Program, s: Stmt, cs: seq<nat>): (o: Outcome)
    requires s.Loop?
    ensures |o.left| <= |cs|
    decreases |cs|, 4, s, 0
  {
    if cs == [] then Outcome([], cs, Cut) else
    var a := RunEs(p, s.each, cs[1..]);
    if !a.exit.Falls? then a
    else if cs[0] == 0 then a
    else
      var b := Run(p, s.body, a.left);
      var ab := Prefixed(a.trace, b);
      if b.exit.Breaks? then ab.(exit := Falls)
      else if b.exit.Falls? || b.exit.Continues? then Prefixed(ab.trace, RunLoop(p, s, b.left))
      else ab
  }

  function Run(p: Program, body: seq<Stmt>, cs: seq<nat>): (o: Outcome)
    ensures |o.left| <= |cs|
    decreases |cs|, 4, body, 1
  {
    if body == [] then Outcome([], cs, Falls) else
    var a := RunS(p, body[0], cs);
    if !a.exit.Falls? then a else Prefixed(a.trace, Run(p, body[1..], a.left))
  }

  // ----- Every effect performed was declared -----

  predicate Accepted(p: Program) { forall f :: f in p.funcs ==> Exact(p, p.funcs[f]) }

  lemma {:induction false} CallSound(p: Program, f: string, cs: seq<nat>)
    requires Accepted(p) && Charge(p, f).Some?
    ensures Elems(RunCall(p, f, cs).trace) <= Elems(Charge(p, f).value)
    decreases |cs|, 2
  {
    if Hyphens(f) !in p.builtins && cs != [] { FuncSound(p, p.funcs[f], cs[1..]); }
  }

  // A function that was accepted performs nothing it does not declare, in any run.
  lemma {:induction false} FuncSound(p: Program, f: Func, cs: seq<nat>)
    requires Accepted(p) && Exact(p, f)
    ensures Elems(RunFunc(p, f, cs).trace) <= Elems(f.effects)
    decreases |cs|, 5
  {
    BodySound(p, f.body, cs);
    var a := Run(p, f.body, cs);
    if a.exit.Fails? { BodySound(p, f.onErr, a.left); }
  }

  lemma {:induction false} ExprSound(p: Program, e: Expr, cs: seq<nat>)
    requires Accepted(p) && KnownE(p, e)
    ensures Elems(RunE(p, e, cs).trace) <= NeedsE(p, e)
    decreases |cs|, 3, e
  {
    match e
    case Leaf =>
    case Operation(es) => ExprsSound(p, es, cs);
    case AndOr(l, r) =>
      ExprSound(p, l, cs);
      var a := RunE(p, l, cs);
      if a.exit.Falls? && a.left != [] { ExprSound(p, r, a.left[1..]); }
    case Call(f, args) =>
      ExprsSound(p, args, cs);
      CallSound(p, f, RunEs(p, args, cs).left);
    case Try(s) => ExprSound(p, s, cs);
    case IfE(c, t, el) =>
      ExprSound(p, c, cs);
      var a := RunE(p, c, cs);
      if a.exit.Falls? && a.left != [] { ExprSound(p, if a.left[0] == 0 then t else el, a.left[1..]); }
    case MatchE(v, ok, err) =>
      ExprSound(p, v, cs);
      var a := RunE(p, v, cs);
      if a.exit.Falls? && a.left != [] { ExprSound(p, if a.left[0] == 0 then ok else err, a.left[1..]); }
  }

  lemma {:induction false} ExprsSound(p: Program, es: seq<Expr>, cs: seq<nat>)
    requires Accepted(p) && KnownEs(p, es)
    ensures Elems(RunEs(p, es, cs).trace) <= NeedsEs(p, es)
    decreases |cs|, 3, es
  {
    if es != [] {
      ExprSound(p, es[0], cs);
      ExprsSound(p, es[1..], RunE(p, es[0], cs).left);
    }
  }

  lemma {:induction false} StmtSound(p: Program, s: Stmt, cs: seq<nat>)
    requires Accepted(p) && KnownS(p, s)
    ensures Elems(RunS(p, s, cs).trace) <= NeedsS(p, s)
    decreases |cs|, 4, s, 1
  {
    match s
    case Do(es) => ExprsSound(p, es, cs);
    case Return(es) => ExprsSound(p, es, cs);
    case Break =>
    case Continue =>
    case If(c, t, el) =>
      ExprSound(p, c, cs);
      var a := RunE(p, c, cs);
      if a.exit.Falls? && a.left != [] { BodySound(p, t, a.left[1..]); BodySound(p, el, a.left[1..]); }
    case Loop(once, _, _) =>
      ExprsSound(p, once, cs);
      var a := RunEs(p, once, cs);
      LoopSound(p, s, a.left);
      assert Elems(a.trace + RunLoop(p, s, a.left).trace) == Elems(a.trace) + Elems(RunLoop(p, s, a.left).trace);
    case Match(v, ok, err) =>
      ExprSound(p, v, cs);
      var a := RunE(p, v, cs);
      if a.exit.Falls? && a.left != [] { BodySound(p, ok, a.left[1..]); BodySound(p, err, a.left[1..]); }
    case Transaction(b) =>
      if cs != [] { BodySound(p, b, cs[1..]); }
    case Spawn(f, args) =>
      ExprsSound(p, args, cs);
      var a := RunEs(p, args, cs);
      if a.exit.Falls? && a.left != [] {
        var k := if a.left[0] < |a.left| then 1 + a.left[0] else |a.left|;
        CallSound(p, f, a.left[1..k]);
      }
  }

  lemma {:induction false} LoopSound(p: Program, s: Stmt, cs: seq<nat>)
    requires Accepted(p) && s.Loop? && KnownEs(p, s.each) && Known(p, s.body)
    ensures Elems(RunLoop(p, s, cs).trace) <= NeedsEs(p, s.each) + Needs(p, s.body)
    decreases |cs|, 4, s, 0
  {
    if cs != [] {
      ExprsSound(p, s.each, cs[1..]);
      var a := RunEs(p, s.each, cs[1..]);
      BodySound(p, s.body, a.left);
      LoopSound(p, s, Run(p, s.body, a.left).left);
    }
  }

  lemma {:induction false} BodySound(p: Program, body: seq<Stmt>, cs: seq<nat>)
    requires Accepted(p) && Known(p, body)
    ensures Elems(Run(p, body, cs).trace) <= Needs(p, body)
    decreases |cs|, 4, body, 1
  {
    if body != [] {
      StmtSound(p, body[0], cs);
      BodySound(p, body[1..], RunS(p, body[0], cs).left);
    }
  }
}
