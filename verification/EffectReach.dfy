/**
The effects a function really performs. What a body can do and how it can end is read off its text, for a
given set of functions that can return; two closures over the functions of the program then give the
functions that can return, the functions a call can enter, and the effects some run performs.
*/
module EffectReach {
  import opened Effects

  // ----- Closures over a finite set of names -----

  function Grow(step: set<string> -> set<string>, start: set<string>, k: nat): set<string> {
    if k == 0 then start else
    var s := Grow(step, start, k - 1);
    s + step(s)
  }

  lemma {:induction false} GrowsOrStays(step: set<string> -> set<string>, start: set<string>, names: set<string>, k: nat)
    requires start <= names && forall s :: s <= names ==> step(s) <= names
    ensures start <= Grow(step, start, k) <= names
    ensures |Grow(step, start, k)| >= k || step(Grow(step, start, k)) <= Grow(step, start, k)
  {
    if k > 0 {
      GrowsOrStays(step, start, names, k - 1);
      var s := Grow(step, start, k - 1);
      if step(s) <= s {
        assert s + step(s) == s;
      } else {
        assert |s + step(s)| > |s| by { Larger(s, s + step(s)); }
      }
    }
  }

  // What came in came in from something that was there.
  lemma {:induction false} GrowTrace(step: set<string> -> set<string>, from: (string, string) -> bool, start: string, k: nat, x: string)
    returns (names: seq<string>)
    requires forall s, y :: y in step(s) ==> exists h :: h in s && from(h, y)
    requires x in Grow(step, {start}, k)
    ensures names != [] && names[0] == start && names[|names| - 1] == x
    ensures forall i :: 0 <= i < |names| - 1 ==> from(names[i], names[i + 1])
  {
    if k == 0 {
      names := [x];
    } else if x in Grow(step, {start}, k - 1) {
      names := GrowTrace(step, from, start, k - 1, x);
    } else {
      var h :| h in Grow(step, {start}, k - 1) && from(h, x);
      var before := GrowTrace(step, from, start, k - 1, h);
      names := before + [x];
    }
  }

  lemma Larger(a: set<string>, b: set<string>)
    requires a < b
    ensures |a| < |b|
  {
    var x :| x in b && x !in a;
    assert b == a + (b - a) && x in b - a;
  }

  // As many rounds as there are names are enough.
  lemma {:induction false} Closed(step: set<string> -> set<string>, start: set<string>, names: set<string>)
    requires start <= names && forall s :: s <= names ==> step(s) <= names
    ensures var s := Grow(step, start, |names|); start <= s <= names && step(s) <= s
  {
    GrowsOrStays(step, start, names, |names|);
    var s := Grow(step, start, |names|);
    if s != names { Larger(s, names); }
  }

  // ----- What a text can do -----

  datatype Act = Does(effect: Effect) | Enters(func: string)

  // What it can do, and the ends it can come to.
  datatype Summary = Summary(acts: set<Act>, exits: set<Exit>)

  const NOTHING := Summary({}, {Falls})

  function Then(a: Summary, b: Summary): Summary {
    if Falls in a.exits then Summary(a.acts + b.acts, a.exits - {Falls} + b.exits) else a
  }

  function Or(a: Summary, b: Summary): Summary { Summary(a.acts + b.acts, a.exits + b.exits) }

  // `ends` are the functions that can return.
  function SumCall(p: Program, ends: set<string>, f: string): Summary {
    if Hyphens(f) in p.builtins then Summary(set e | e in p.builtins[Hyphens(f)] :: Does(e), {Falls})
    else if f in p.funcs then Summary({Enters(f)}, if f in ends then {Falls} else {})
    else Summary({}, {})
  }

  function SumE(p: Program, ends: set<string>, e: Expr): Summary {
    match e
    case Leaf => NOTHING
    case Operation(es) => SumEs(p, ends, es)
    case AndOr(l, r) => Then(SumE(p, ends, l), Or(NOTHING, SumE(p, ends, r)))
    case Call(f, args) => Then(SumEs(p, ends, args), SumCall(p, ends, f))
    case Try(s) => Then(SumE(p, ends, s), Summary({}, {Falls, Fails}))
    case IfE(c, t, el) => Then(SumE(p, ends, c), Or(SumE(p, ends, t), SumE(p, ends, el)))
    case MatchE(v, ok, err) => Then(SumE(p, ends, v), Or(SumE(p, ends, ok), SumE(p, ends, err)))
  }

  function SumEs(p: Program, ends: set<string>, es: seq<Expr>): Summary {
    if es == [] then NOTHING else Then(SumE(p, ends, es[0]), SumEs(p, ends, es[1..]))
  }

  function SumS(p: Program, ends: set<string>, s: Stmt): Summary {
    match s
    case Do(es) => SumEs(p, ends, es)
    case Return(es) => Then(SumEs(p, ends, es), Summary({}, {Returns}))
    case Break => Summary({}, {Breaks})
    case Continue => Summary({}, {Continues})
    case If(c, t, el) => Then(SumE(p, ends, c), Or(Sum(p, ends, t), Sum(p, ends, el)))
    case Loop(once, each, b) => Then(SumEs(p, ends, once), Turns(SumEs(p, ends, each), Sum(p, ends, b)))
    case Match(v, ok, err) => Then(SumE(p, ends, v), Or(Sum(p, ends, ok), Sum(p, ends, err)))
    case Transaction(b) =>
      Then(Summary({Does(DB)}, {Falls, Fails}), Then(Sum(p, ends, b), Summary({Does(DB)}, {Falls, Fails})))
    case Spawn(f, args) => Then(SumEs(p, ends, args), Summary({Does(SPAWN)} + SumCall(p, ends, f).acts, {Falls}))
  }

  // Any number of turns do and end like none or one; a break or a continue stays inside.
  function Turns(each: Summary, body: Summary): Summary {
    Then(each, Or(NOTHING, body.(exits := body.exits - {Breaks, Continues})))
  }

  function Sum(p: Program, ends: set<string>, body: seq<Stmt>): Summary {
    if body == [] then NOTHING else Then(SumS(p, ends, body[0]), Sum(p, ends, body[1..]))
  }

  function SumFunc(p: Program, ends: set<string>, f: Func): Summary {
    var b, h := Sum(p, ends, f.body), Sum(p, ends, f.onErr);
    if Fails in b.exits then Summary(b.acts + h.acts, b.exits - {Fails} + h.exits) else b
  }

  // ----- The functions that can return, those a call can enter, and what they do -----

  function CanReturn(p: Program, ends: set<string>): set<string> {
    set f | f in p.funcs && SumFunc(p, ends, p.funcs[f]).exits != {}
  }

  // Those that can return by calls nested less than k deep.
  function Ending(p: Program, k: nat): set<string> { Grow(ends => CanReturn(p, ends), {}, k) }

  function Returning(p: Program): set<string> { Ending(p, |p.funcs.Keys|) }

  function CalledFrom(p: Program, ends: set<string>, from: set<string>): set<string> {
    set f, g | f in from && f in p.funcs && g in p.funcs && Enters(g) in SumFunc(p, ends, p.funcs[f]).acts :: g
  }

  // Those a call of f can enter by at most k calls.
  function Entering(p: Program, f: string, k: nat): set<string> {
    Grow(from => CalledFrom(p, Returning(p), from), {f}, k)
  }

  function Entered(p: Program, f: string): set<string> { Entering(p, f, |p.funcs.Keys|) }

  function Reached(p: Program, f: string): set<Effect> {
    set g, a | g in Entered(p, f) && g in p.funcs && a in SumFunc(p, Returning(p), p.funcs[g]).acts && a.Does? :: a.effect
  }

  // ----- No run leaves the closure -----

  predicate Within(p: Program, acts: set<Act>, funcs: set<string>, effects: set<Effect>) {
    forall a :: a in acts ==> match a case Does(e) => e in effects case Enters(g) => g in p.funcs ==> g in funcs
  }

  // The functions that return are known, and whatever one of `funcs` does stays among these.
  predicate Kept(p: Program, ends: set<string>, funcs: set<string>, effects: set<Effect>) {
    && CanReturn(p, ends) <= ends
    && forall g :: g in funcs && g in p.funcs ==> Within(p, SumFunc(p, ends, p.funcs[g]).acts, funcs, effects)
  }

  predicate Covered(o: Outcome, s: Summary, effects: set<Effect>) {
    Elems(o.trace) <= effects && (o.exit.Cut? || o.exit in s.exits)
  }

  lemma {:induction false} CallStays(p: Program, ends: set<string>, funcs: set<string>, effects: set<Effect>, f: string, cs: seq<nat>)
    requires Kept(p, ends, funcs, effects) && Within(p, SumCall(p, ends, f).acts, funcs, effects)
    ensures Covered(RunCall(p, f, cs), SumCall(p, ends, f), effects)
    decreases |cs|, 2
  {
    if Hyphens(f) in p.builtins {
      forall e | e in p.builtins[Hyphens(f)] ensures e in effects { assert Does(e) in SumCall(p, ends, f).acts; }
    } else if cs != [] && f in p.funcs {
      assert Enters(f) in SumCall(p, ends, f).acts;
      FuncStays(p, ends, funcs, effects, p.funcs[f], cs[1..]);
    }
  }

  lemma {:induction false} FuncStays(p: Program, ends: set<string>, funcs: set<string>, effects: set<Effect>, f: Func, cs: seq<nat>)
    requires Kept(p, ends, funcs, effects) && Within(p, SumFunc(p, ends, f).acts, funcs, effects)
    ensures Covered(RunFunc(p, f, cs), SumFunc(p, ends, f), effects)
    decreases |cs|, 5
  {
    BodyStays(p, ends, funcs, effects, f.body, cs);
    var a := Run(p, f.body, cs);
    if a.exit.Fails? { BodyStays(p, ends, funcs, effects, f.onErr, a.left); }
  }

  lemma {:induction false} ExprStays(p: Program, ends: set<string>, funcs: set<string>, effects: set<Effect>, e: Expr, cs: seq<nat>)
    requires Kept(p, ends, funcs, effects) && Within(p, SumE(p, ends, e).acts, funcs, effects)
    ensures Covered(RunE(p, e, cs), SumE(p, ends, e), effects)
    decreases |cs|, 3, e
  {
    match e
    case Leaf =>
    case Operation(es) => ExprsStay(p, ends, funcs, effects, es, cs);
    case AndOr(l, r) =>
      ExprStays(p, ends, funcs, effects, l, cs);
      var a := RunE(p, l, cs);
      if a.exit.Falls? && a.left != [] { ExprStays(p, ends, funcs, effects, r, a.left[1..]); }
    case Call(f, args) =>
      ExprsStay(p, ends, funcs, effects, args, cs);
      var a := RunEs(p, args, cs);
      if a.exit.Falls? { CallStays(p, ends, funcs, effects, f, a.left); }
    case Try(s) => ExprStays(p, ends, funcs, effects, s, cs);
    case IfE(c, t, el) =>
      ExprStays(p, ends, funcs, effects, c, cs);
      var a := RunE(p, c, cs);
      if a.exit.Falls? && a.left != [] { ExprStays(p, ends, funcs, effects, if a.left[0] == 0 then t else el, a.left[1..]); }
    case MatchE(v, ok, err) =>
      ExprStays(p, ends, funcs, effects, v, cs);
      var a := RunE(p, v, cs);
      if a.exit.Falls? && a.left != [] { ExprStays(p, ends, funcs, effects, if a.left[0] == 0 then ok else err, a.left[1..]); }
  }

  lemma {:induction false} ExprsStay(p: Program, ends: set<string>, funcs: set<string>, effects: set<Effect>, es: seq<Expr>, cs: seq<nat>)
    requires Kept(p, ends, funcs, effects) && Within(p, SumEs(p, ends, es).acts, funcs, effects)
    ensures Covered(RunEs(p, es, cs), SumEs(p, ends, es), effects)
    decreases |cs|, 3, es
  {
    if es != [] {
      ExprStays(p, ends, funcs, effects, es[0], cs);
      var a := RunE(p, es[0], cs);
      if a.exit.Falls? { ExprsStay(p, ends, funcs, effects, es[1..], a.left); }
    }
  }

  lemma {:induction false} StmtStays(p: Program, ends: set<string>, funcs: set<string>, effects: set<Effect>, s: Stmt, cs: seq<nat>)
    requires Kept(p, ends, funcs, effects) && Within(p, SumS(p, ends, s).acts, funcs, effects)
    ensures Covered(RunS(p, s, cs), SumS(p, ends, s), effects)
    decreases |cs|, 4, s, 1
  {
    match s
    case Do(es) => ExprsStay(p, ends, funcs, effects, es, cs);
    case Return(es) => ExprsStay(p, ends, funcs, effects, es, cs);
    case Break =>
    case Continue =>
    case If(c, t, el) =>
      ExprStays(p, ends, funcs, effects, c, cs);
      var a := RunE(p, c, cs);
      if a.exit.Falls? && a.left != [] { BodyStays(p, ends, funcs, effects, if a.left[0] == 0 then t else el, a.left[1..]); }
    case Loop(once, _, _) =>
      ExprsStay(p, ends, funcs, effects, once, cs);
      var a := RunEs(p, once, cs);
      if a.exit.Falls? { LoopStays(p, ends, funcs, effects, s, a.left); }
    case Match(v, ok, err) =>
      ExprStays(p, ends, funcs, effects, v, cs);
      var a := RunE(p, v, cs);
      if a.exit.Falls? && a.left != [] { BodyStays(p, ends, funcs, effects, if a.left[0] == 0 then ok else err, a.left[1..]); }
    case Transaction(b) =>
      assert Does(DB) in SumS(p, ends, s).acts;
      if cs != [] && cs[0] == 0 { BodyStays(p, ends, funcs, effects, b, cs[1..]); }
    case Spawn(_, _) => SpawnStays(p, ends, funcs, effects, s, cs);
  }

  lemma {:induction false} SpawnStays(p: Program, ends: set<string>, funcs: set<string>, effects: set<Effect>, s: Stmt, cs: seq<nat>)
    requires s.Spawn? && Kept(p, ends, funcs, effects) && Within(p, SumS(p, ends, s).acts, funcs, effects)
    ensures Covered(RunS(p, s, cs), SumS(p, ends, s), effects)
    decreases |cs|, 4, s, 0
  {
    var Spawn(f, args) := s;
    ExprsStay(p, ends, funcs, effects, args, cs);
    var a := RunEs(p, args, cs);
    if a.exit.Falls? {
      assert Does(SPAWN) in SumS(p, ends, s).acts;
      if a.left != [] {
        var k := if a.left[0] < |a.left| then 1 + a.left[0] else |a.left|;
        CallStays(p, ends, funcs, effects, f, a.left[1..k]);
      }
    }
  }

  lemma {:induction false} LoopStays(p: Program, ends: set<string>, funcs: set<string>, effects: set<Effect>, s: Stmt, cs: seq<nat>)
    requires s.Loop? && Kept(p, ends, funcs, effects)
    requires Within(p, Turns(SumEs(p, ends, s.each), Sum(p, ends, s.body)).acts, funcs, effects)
    ensures Covered(RunLoop(p, s, cs), Turns(SumEs(p, ends, s.each), Sum(p, ends, s.body)), effects)
    decreases |cs|, 4, s, 0
  {
    if cs != [] {
      ExprsStay(p, ends, funcs, effects, s.each, cs[1..]);
      var a := RunEs(p, s.each, cs[1..]);
      if a.exit.Falls? && cs[0] != 0 {
        BodyStays(p, ends, funcs, effects, s.body, a.left);
        LoopStays(p, ends, funcs, effects, s, Run(p, s.body, a.left).left);
      }
    }
  }

  lemma {:induction false} BodyStays(p: Program, ends: set<string>, funcs: set<string>, effects: set<Effect>, body: seq<Stmt>, cs: seq<nat>)
    requires Kept(p, ends, funcs, effects) && Within(p, Sum(p, ends, body).acts, funcs, effects)
    ensures Covered(Run(p, body, cs), Sum(p, ends, body), effects)
    decreases |cs|, 4, body, 1
  {
    if body != [] {
      StmtStays(p, ends, funcs, effects, body[0], cs);
      var a := RunS(p, body[0], cs);
      if a.exit.Falls? { BodyStays(p, ends, funcs, effects, body[1..], a.left); }
    }
  }

  // ----- Every end and every act of a summary is one of some run -----

  // Choices that take a call back to its caller and leave `rest`.
  lemma CallReturns(p: Program, k: nat, f: string, rest: seq<nat>) returns (cs: seq<nat>)
    requires Falls in SumCall(p, Ending(p, k), f).exits
    ensures RunCall(p, f, cs).exit.Falls? && RunCall(p, f, cs).left == rest
    decreases k, 0, 1
  {
    if Hyphens(f) in p.builtins {
      cs := rest;
    } else {
      cs := Comes(p, k, f, rest);
      assert ([0] + cs)[1..] == cs;
      cs := [0] + cs;
    }
  }

  lemma {:induction false} Comes(p: Program, k: nat, f: string, rest: seq<nat>) returns (cs: seq<nat>)
    requires f in Ending(p, k)
    ensures f in p.funcs && !RunFunc(p, p.funcs[f], cs).exit.Cut? && RunFunc(p, p.funcs[f], cs).left == rest
    decreases k, 0, 0
  {
    if f in Ending(p, k - 1) {
      cs := Comes(p, k - 1, f, rest);
    } else {
      var x :| x in SumFunc(p, Ending(p, k - 1), p.funcs[f]).exits;
      cs := FuncEnds(p, k - 1, p.funcs[f], x, rest);
    }
  }

  lemma {:induction false} FuncEnds(p: Program, k: nat, f: Func, x: Exit, rest: seq<nat>) returns (cs: seq<nat>)
    requires x in SumFunc(p, Ending(p, k), f).exits
    ensures !RunFunc(p, f, cs).exit.Cut? && RunFunc(p, f, cs).left == rest
    decreases k, 3
  {
    if x in Sum(p, Ending(p, k), f.body).exits && x != Fails {
      cs := BodyEnds(p, k, f.body, x, rest);
    } else {
      cs := BodyEnds(p, k, f.onErr, x, rest);
      cs := BodyEnds(p, k, f.body, Fails, cs);
    }
  }

  lemma {:induction false} ExprEnds(p: Program, k: nat, e: Expr, x: Exit, rest: seq<nat>) returns (cs: seq<nat>)
    requires x in SumE(p, Ending(p, k), e).exits
    ensures !x.Cut? && RunE(p, e, cs).exit == x && RunE(p, e, cs).left == rest
    decreases k, 1, e
  {
    match e
    case Leaf => cs := rest;
    case Operation(es) => cs := ExprsEnd(p, k, es, x, rest);
    case AndOr(l, r) =>
      if x in SumE(p, Ending(p, k), l).exits && x != Falls {
        cs := ExprEnds(p, k, l, x, rest);
      } else if x == Falls {
        cs := ExprEnds(p, k, l, Falls, [0] + rest);
      } else {
        cs := ExprEnds(p, k, r, x, rest);
        cs := ExprEnds(p, k, l, Falls, [1] + cs);
      }
    case Call(f, args) =>
      if x != Falls {
        cs := ExprsEnd(p, k, args, x, rest);
      } else {
        cs := CallReturns(p, k, f, rest);
        cs := ExprsEnd(p, k, args, Falls, cs);
      }
    case Try(s) =>
      if x in SumE(p, Ending(p, k), s).exits && x != Falls {
        cs := ExprEnds(p, k, s, x, rest);
      } else {
        cs := ExprEnds(p, k, s, Falls, [if x == Falls then 0 else 1] + rest);
      }
    case IfE(c, t, el) => cs := BranchEnds(p, k, e, c, t, el, x, rest);
    case MatchE(v, ok, err) => cs := BranchEnds(p, k, e, v, ok, err, x, rest);
  }

  lemma {:induction false} BranchEnds(p: Program, k: nat, e: Expr, c: Expr, t: Expr, el: Expr, x: Exit, rest: seq<nat>) returns (cs: seq<nat>)
    requires e == IfE(c, t, el) || e == MatchE(c, t, el)
    requires x in SumE(p, Ending(p, k), e).exits
    ensures !x.Cut? && RunE(p, e, cs).exit == x && RunE(p, e, cs).left == rest
    decreases k, 1, e, 0
  {
    if x in SumE(p, Ending(p, k), c).exits && x != Falls {
      cs := ExprEnds(p, k, c, x, rest);
    } else if x in SumE(p, Ending(p, k), t).exits {
      cs := ExprEnds(p, k, t, x, rest);
      cs := ExprEnds(p, k, c, Falls, [0] + cs);
    } else {
      cs := ExprEnds(p, k, el, x, rest);
      cs := ExprEnds(p, k, c, Falls, [1] + cs);
    }
  }

  lemma {:induction false} ExprsEnd(p: Program, k: nat, es: seq<Expr>, x: Exit, rest: seq<nat>) returns (cs: seq<nat>)
    requires x in SumEs(p, Ending(p, k), es).exits
    ensures !x.Cut? && RunEs(p, es, cs).exit == x && RunEs(p, es, cs).left == rest
    decreases k, 1, es
  {
    if es == [] {
      cs := rest;
    } else if x in SumE(p, Ending(p, k), es[0]).exits && x != Falls {
      cs := ExprEnds(p, k, es[0], x, rest);
    } else {
      cs := ExprsEnd(p, k, es[1..], x, rest);
      cs := ExprEnds(p, k, es[0], Falls, cs);
    }
  }

  lemma {:induction false} StmtEnds(p: Program, k: nat, s: Stmt, x: Exit, rest: seq<nat>) returns (cs: seq<nat>)
    requires x in SumS(p, Ending(p, k), s).exits
    ensures !x.Cut? && RunS(p, s, cs).exit == x && RunS(p, s, cs).left == rest
    decreases k, 2, s
  {
    match s
    case Do(es) => cs := ExprsEnd(p, k, es, x, rest);
    case Return(es) => cs := ExprsEnd(p, k, es, if x == Returns && Falls in SumEs(p, Ending(p, k), es).exits then Falls else x, rest);
    case Break => cs := rest;
    case Continue => cs := rest;
    case If(c, t, el) => cs := ForkEnds(p, k, s, c, t, el, x, rest);
    case Match(v, ok, err) => cs := ForkEnds(p, k, s, v, ok, err, x, rest);
    case Loop(once, each, b) =>
      if x in SumEs(p, Ending(p, k), once).exits && x != Falls {
        cs := ExprsEnd(p, k, once, x, rest);
      } else {
        cs := LoopEnds(p, k, s, x, rest);
        cs := ExprsEnd(p, k, once, Falls, cs);
      }
    case Transaction(b) =>
      if x in Sum(p, Ending(p, k), b).exits && x != Falls {
        cs := BodyEnds(p, k, b, x, rest);
        cs := [0] + cs;
      } else if x == Fails {
        cs := [1] + rest;
      } else {
        cs := BodyEnds(p, k, b, Falls, [0] + rest);
        cs := [0] + cs;
      }
    case Spawn(f, args) =>
      if x != Falls {
        cs := ExprsEnd(p, k, args, x, rest);
      } else {
        cs := ExprsEnd(p, k, args, Falls, [0] + rest);
      }
  }

  lemma {:induction false} ForkEnds(p: Program, k: nat, s: Stmt, c: Expr, t: seq<Stmt>, el: seq<Stmt>, x: Exit, rest: seq<nat>) returns (cs: seq<nat>)
    requires s == If(c, t, el) || s == Match(c, t, el)
    requires x in SumS(p, Ending(p, k), s).exits
    ensures !x.Cut? && RunS(p, s, cs).exit == x && RunS(p, s, cs).left == rest
    decreases k, 2, s, 0
  {
    if x in SumE(p, Ending(p, k), c).exits && x != Falls {
      cs := ExprEnds(p, k, c, x, rest);
    } else if x in Sum(p, Ending(p, k), t).exits {
      cs := BodyEnds(p, k, t, x, rest);
      cs := ExprEnds(p, k, c, Falls, [0] + cs);
    } else {
      cs := BodyEnds(p, k, el, x, rest);
      cs := ExprEnds(p, k, c, Falls, [1] + cs);
    }
  }

  lemma {:induction false} LoopEnds(p: Program, k: nat, s: Stmt, x: Exit, rest: seq<nat>) returns (cs: seq<nat>)
    requires s.Loop? && x in Turns(SumEs(p, Ending(p, k), s.each), Sum(p, Ending(p, k), s.body)).exits
    ensures !x.Cut? && RunLoop(p, s, cs).exit == x && RunLoop(p, s, cs).left == rest
    decreases k, 2, s, 0
  {
    if x in SumEs(p, Ending(p, k), s.each).exits {
      cs := ExprsEnd(p, k, s.each, x, rest);
      assert ([0] + cs)[1..] == cs;
      cs := [0] + cs;
    } else {
      cs := BodyEnds(p, k, s.body, x, rest);
      cs := ExprsEnd(p, k, s.each, Falls, cs);
      assert ([1] + cs)[1..] == cs;
      cs := [1] + cs;
    }
  }

  lemma {:induction false} BodyEnds(p: Program, k: nat, body: seq<Stmt>, x: Exit, rest: seq<nat>) returns (cs: seq<nat>)
    requires x in Sum(p, Ending(p, k), body).exits
    ensures !x.Cut? && Run(p, body, cs).exit == x && Run(p, body, cs).left == rest
    decreases k, 2, body
  {
    if body == [] {
      cs := rest;
    } else if x in SumS(p, Ending(p, k), body[0]).exits && x != Falls {
      cs := StmtEnds(p, k, body[0], x, rest);
    } else {
      cs := BodyEnds(p, k, body[1..], x, rest);
      cs := StmtEnds(p, k, body[0], Falls, cs);
    }
  }

  // The act shows the effect: it performs it, or enters a function that does so by the choices cs.
  predicate Shows(p: Program, a: Act, e: Effect, cs: seq<nat>) {
    match a
    case Does(d) => d == e
    case Enters(g) => g in p.funcs && e in RunFunc(p, p.funcs[g], cs).trace
  }

  lemma CallActs(p: Program, k: nat, f: string, a: Act, e: Effect, inner: seq<nat>) returns (cs: seq<nat>)
    requires a in SumCall(p, Ending(p, k), f).acts && Shows(p, a, e, inner)
    ensures e in RunCall(p, f, cs).trace
  {
    if Hyphens(f) in p.builtins {
      cs := [];
    } else {
      assert ([0] + inner)[1..] == inner;
      cs := [0] + inner;
    }
  }

  lemma {:induction false} ExprActs(p: Program, k: nat, x: Expr, a: Act, e: Effect, inner: seq<nat>) returns (cs: seq<nat>)
    requires a in SumE(p, Ending(p, k), x).acts && Shows(p, a, e, inner)
    ensures e in RunE(p, x, cs).trace
    decreases x
  {
    match x
    case Operation(es) => cs := ExprsAct(p, k, es, a, e, inner);
    case AndOr(l, r) =>
      if a in SumE(p, Ending(p, k), l).acts {
        cs := ExprActs(p, k, l, a, e, inner);
      } else {
        cs := ExprActs(p, k, r, a, e, inner);
        cs := ExprEnds(p, k, l, Falls, [1] + cs);
      }
    case Call(f, args) =>
      if a in SumEs(p, Ending(p, k), args).acts {
        cs := ExprsAct(p, k, args, a, e, inner);
      } else {
        cs := CallActs(p, k, f, a, e, inner);
        cs := ExprsEnd(p, k, args, Falls, cs);
      }
    case Try(s) => cs := ExprActs(p, k, s, a, e, inner);
    case IfE(c, t, el) => cs := BranchActs(p, k, x, c, t, el, a, e, inner);
    case MatchE(v, ok, err) => cs := BranchActs(p, k, x, v, ok, err, a, e, inner);
    case Leaf => assert false;
  }

  lemma {:induction false} BranchActs(p: Program, k: nat, x: Expr, c: Expr, t: Expr, el: Expr, a: Act, e: Effect, inner: seq<nat>)
    returns (cs: seq<nat>)
    requires x == IfE(c, t, el) || x == MatchE(c, t, el)
    requires a in SumE(p, Ending(p, k), x).acts && Shows(p, a, e, inner)
    ensures e in RunE(p, x, cs).trace
    decreases x, 0
  {
    if a in SumE(p, Ending(p, k), c).acts {
      cs := ExprActs(p, k, c, a, e, inner);
    } else if a in SumE(p, Ending(p, k), t).acts {
      cs := ExprActs(p, k, t, a, e, inner);
      cs := ExprEnds(p, k, c, Falls, [0] + cs);
    } else {
      cs := ExprActs(p, k, el, a, e, inner);
      cs := ExprEnds(p, k, c, Falls, [1] + cs);
    }
  }

  lemma {:induction false} ExprsAct(p: Program, k: nat, es: seq<Expr>, a: Act, e: Effect, inner: seq<nat>) returns (cs: seq<nat>)
    requires a in SumEs(p, Ending(p, k), es).acts && Shows(p, a, e, inner)
    ensures e in RunEs(p, es, cs).trace
    decreases es
  {
    if a in SumE(p, Ending(p, k), es[0]).acts {
      cs := ExprActs(p, k, es[0], a, e, inner);
    } else {
      cs := ExprsAct(p, k, es[1..], a, e, inner);
      cs := ExprEnds(p, k, es[0], Falls, cs);
    }
  }

  lemma {:induction false} StmtActs(p: Program, k: nat, s: Stmt, a: Act, e: Effect, inner: seq<nat>) returns (cs: seq<nat>)
    requires a in SumS(p, Ending(p, k), s).acts && Shows(p, a, e, inner)
    ensures e in RunS(p, s, cs).trace
    decreases s
  {
    match s
    case Do(es) => cs := ExprsAct(p, k, es, a, e, inner);
    case Return(es) => cs := ExprsAct(p, k, es, a, e, inner);
    case If(c, t, el) => cs := ForkActs(p, k, s, c, t, el, a, e, inner);
    case Match(v, ok, err) => cs := ForkActs(p, k, s, v, ok, err, a, e, inner);
    case Loop(once, each, b) =>
      if a in SumEs(p, Ending(p, k), once).acts {
        cs := ExprsAct(p, k, once, a, e, inner);
      } else {
        cs := LoopActs(p, k, s, a, e, inner);
        cs := ExprsEnd(p, k, once, Falls, cs);
      }
    case Transaction(b) =>
      if a == Does(DB) {
        cs := [];
      } else {
        cs := BodyActs(p, k, b, a, e, inner);
        cs := [0] + cs;
      }
    case Spawn(f, args) =>
      if a in SumEs(p, Ending(p, k), args).acts {
        cs := ExprsAct(p, k, args, a, e, inner);
      } else if a == Does(SPAWN) {
        cs := ExprsEnd(p, k, args, Falls, []);
      } else {
        cs := CallActs(p, k, f, a, e, inner);
        var left := [|cs|] + cs;
        assert left[1..1 + |cs|] == cs;
        cs := ExprsEnd(p, k, args, Falls, left);
      }
    case Break => assert false;
    case Continue => assert false;
  }

  lemma {:induction false} ForkActs(p: Program, k: nat, s: Stmt, c: Expr, t: seq<Stmt>, el: seq<Stmt>, a: Act, e: Effect, inner: seq<nat>)
    returns (cs: seq<nat>)
    requires s == If(c, t, el) || s == Match(c, t, el)
    requires a in SumS(p, Ending(p, k), s).acts && Shows(p, a, e, inner)
    ensures e in RunS(p, s, cs).trace
    decreases s, 0
  {
    if a in SumE(p, Ending(p, k), c).acts {
      cs := ExprActs(p, k, c, a, e, inner);
    } else if a in Sum(p, Ending(p, k), t).acts {
      cs := BodyActs(p, k, t, a, e, inner);
      cs := ExprEnds(p, k, c, Falls, [0] + cs);
    } else {
      cs := BodyActs(p, k, el, a, e, inner);
      cs := ExprEnds(p, k, c, Falls, [1] + cs);
    }
  }

  lemma {:induction false} LoopActs(p: Program, k: nat, s: Stmt, a: Act, e: Effect, inner: seq<nat>) returns (cs: seq<nat>)
    requires s.Loop? && a in Turns(SumEs(p, Ending(p, k), s.each), Sum(p, Ending(p, k), s.body)).acts && Shows(p, a, e, inner)
    ensures e in RunLoop(p, s, cs).trace
    decreases s, 0
  {
    if a in SumEs(p, Ending(p, k), s.each).acts {
      cs := ExprsAct(p, k, s.each, a, e, inner);
    } else {
      cs := BodyActs(p, k, s.body, a, e, inner);
      cs := ExprsEnd(p, k, s.each, Falls, cs);
    }
    assert ([1] + cs)[1..] == cs;
    cs := [1] + cs;
  }

  lemma {:induction false} BodyActs(p: Program, k: nat, body: seq<Stmt>, a: Act, e: Effect, inner: seq<nat>) returns (cs: seq<nat>)
    requires a in Sum(p, Ending(p, k), body).acts && Shows(p, a, e, inner)
    ensures e in Run(p, body, cs).trace
    decreases body
  {
    if a in SumS(p, Ending(p, k), body[0]).acts {
      cs := StmtActs(p, k, body[0], a, e, inner);
    } else {
      cs := BodyActs(p, k, body[1..], a, e, inner);
      cs := StmtEnds(p, k, body[0], Falls, cs);
    }
  }

  lemma FuncActs(p: Program, k: nat, f: Func, a: Act, e: Effect, inner: seq<nat>) returns (cs: seq<nat>)
    requires a in SumFunc(p, Ending(p, k), f).acts && Shows(p, a, e, inner)
    ensures e in RunFunc(p, f, cs).trace
  {
    if a in Sum(p, Ending(p, k), f.body).acts {
      cs := BodyActs(p, k, f.body, a, e, inner);
    } else {
      cs := BodyActs(p, k, f.onErr, a, e, inner);
      cs := BodyEnds(p, k, f.body, Fails, cs);
    }
  }

  predicate Calls(p: Program, h: string, g: string) {
    h in p.funcs && Enters(g) in SumFunc(p, Returning(p), p.funcs[h]).acts
  }

  predicate Chain(p: Program, names: seq<string>) {
    names != [] && forall i :: 0 <= i < |names| - 1 ==> Calls(p, names[i], names[i + 1])
  }

  lemma EnteredByCalls(p: Program, f: string, g: string) returns (names: seq<string>)
    requires g in Entered(p, f)
    ensures Chain(p, names) && names[0] == f && names[|names| - 1] == g
  {
    names := GrowTrace(from => CalledFrom(p, Returning(p), from), (h, x) => Calls(p, h, x), f, |p.funcs.Keys|, g);
  }

  // What the last of a chain of calls does, some run of the first does.
  lemma {:induction false} ChainActs(p: Program, names: seq<string>, e: Effect, inner: seq<nat>) returns (cs: seq<nat>)
    requires Chain(p, names) && names[|names| - 1] in p.funcs && e in RunFunc(p, p.funcs[names[|names| - 1]], inner).trace
    ensures names[0] in p.funcs && e in RunFunc(p, p.funcs[names[0]], cs).trace
    decreases |names|
  {
    if |names| == 1 {
      cs := inner;
    } else {
      var later := ChainActs(p, names[1..], e, inner);
      assert Calls(p, names[0], names[1]);
      cs := FuncActs(p, |p.funcs.Keys|, p.funcs[names[0]], Enters(names[1]), e, later);
    }
  }

  // ----- Exactly the effects reached are performed -----

  lemma ReachedKept(p: Program, f: string)
    requires f in p.funcs
    ensures Kept(p, Returning(p), Entered(p, f), Reached(p, f)) && f in Entered(p, f)
  {
    Closed(ends => CanReturn(p, ends), {}, p.funcs.Keys);
    Closed(from => CalledFrom(p, Returning(p), from), {f}, p.funcs.Keys);
    forall g, a | g in Entered(p, f) && g in p.funcs && a in SumFunc(p, Returning(p), p.funcs[g]).acts
      ensures a.Does? ==> a.effect in Reached(p, f)
      ensures a.Enters? && a.func in p.funcs ==> a.func in Entered(p, f)
    {
      if a.Enters? && a.func in p.funcs { assert a.func in CalledFrom(p, Returning(p), Entered(p, f)); }
    }
  }

  ghost predicate SomeRunPerforms(p: Program, f: string, e: Effect)
    requires f in p.funcs
  {
    exists cs :: e in RunFunc(p, p.funcs[f], cs).trace
  }

  // An effect is performed in some run of a function exactly if it is reached from it, which is read off
  // the text of the program.
  lemma PerformedExactly(p: Program, f: string, e: Effect)
    requires f in p.funcs
    ensures SomeRunPerforms(p, f, e) <==> e in Reached(p, f)
  {
    ReachedKept(p, f);
    forall cs ensures Elems(RunFunc(p, p.funcs[f], cs).trace) <= Reached(p, f) {
      FuncStays(p, Returning(p), Entered(p, f), Reached(p, f), p.funcs[f], cs);
    }
    if e in Reached(p, f) {
      var g, a :| g in Entered(p, f) && g in p.funcs && a in SumFunc(p, Returning(p), p.funcs[g]).acts && a.Does? && a.effect == e;
      var inner := FuncActs(p, |p.funcs.Keys|, p.funcs[g], a, e, []);
      var names := EnteredByCalls(p, f, g);
      var cs := ChainActs(p, names, e, inner);
    }
  }

  // A call of a function can come back to its caller exactly if the function is among the returning ones.
  lemma {:induction false} ReturnsExactly(p: Program, f: string)
    requires f in p.funcs
    ensures (exists cs :: !RunFunc(p, p.funcs[f], cs).exit.Cut?) <==> f in Returning(p)
  {
    ReachedKept(p, f);
    if f in Returning(p) {
      var cs := Comes(p, |p.funcs.Keys|, f, []);
    }
    forall cs | !RunFunc(p, p.funcs[f], cs).exit.Cut? ensures f in CanReturn(p, Returning(p)) {
      FuncStays(p, Returning(p), Entered(p, f), Reached(p, f), p.funcs[f], cs);
    }
  }

  // In an accepted program what is reached is declared; and every declared effect is performed in some run
  // exactly if what is declared is what is reached.
  lemma DeclaredExactly(p: Program, f: string)
    requires f in p.funcs && Accepted(p)
    ensures Reached(p, f) <= Elems(p.funcs[f].effects)
    ensures (forall e :: e in Elems(p.funcs[f].effects) ==> SomeRunPerforms(p, f, e)) <==> Reached(p, f) == Elems(p.funcs[f].effects)
  {
    forall e ensures SomeRunPerforms(p, f, e) <==> e in Reached(p, f) { PerformedExactly(p, f, e); }
    forall e | e in Reached(p, f) ensures e in Elems(p.funcs[f].effects) {
      var cs :| e in RunFunc(p, p.funcs[f], cs).trace;
      FuncSound(p, p.funcs[f], cs);
    }
  }

  // It need not be: a declared effect that only a recursive call asks for is accepted, but not reached.
  const SELFISH := Func(["io"], [Do([Call("f", [])])], [])

  lemma SelfishActs(p: Program)
    requires p == Program(map[], map["f" := SELFISH])
    ensures SumFunc(p, Returning(p), SELFISH).acts == {Enters("f")}
  {
    SelfishBody(p, Returning(p));
  }

  lemma {:induction false} SelfishBody(p: Program, ends: set<string>)
    requires p == Program(map[], map["f" := SELFISH])
    ensures Sum(p, ends, SELFISH.body).acts == {Enters("f")} && Fails !in Sum(p, ends, SELFISH.body).exits
  {
    var call := Call("f", []);
    assert SumEs(p, ends, []) == NOTHING && SumE(p, ends, call) == Then(NOTHING, SumCall(p, ends, "f"));
    assert [call][1..] == [] && SumEs(p, ends, [call]) == Then(SumE(p, ends, call), NOTHING);
    assert SELFISH.body[1..] == [] && Sum(p, ends, []) == NOTHING;
    assert Sum(p, ends, SELFISH.body) == Then(SumS(p, ends, SELFISH.body[0]), NOTHING);
  }

  lemma {:induction false} SelfishEntered(p: Program, k: nat)
    requires p == Program(map[], map["f" := SELFISH])
    ensures Entering(p, "f", k) <= {"f"}
  {
    if k > 0 { SelfishEntered(p, k - 1); }
  }

  lemma RecursionAlone()
    ensures var p := Program(map[], map["f" := SELFISH]); Accepted(p) && Reached(p, "f") == {}
  {
    var p := Program(map[], map["f" := SELFISH]);
    var call := Call("f", []);
    assert [call][1..] == [] && SELFISH.body[1..] == [];
    assert NeedsEs(p, []) == {} && NeedsE(p, call) == Elems(["io"]) && NeedsEs(p, [call]) == Elems(["io"]);
    assert Needs(p, []) == {} && NeedsS(p, SELFISH.body[0]) == Elems(["io"]) && Needs(p, SELFISH.body) == Elems(["io"]);
    assert KnownEs(p, []) && KnownE(p, call) && KnownEs(p, [call]);
    assert Known(p, []) && KnownS(p, SELFISH.body[0]) && Known(p, SELFISH.body);
    SelfishActs(p);
    assert Entered(p, "f") <= {"f"} by { SelfishEntered(p, |p.funcs.Keys|); }
  }
}
