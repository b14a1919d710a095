/**
The checker's walk over the functions of a program: it marks the declared effects that are used and
reports those that are not declared, not used, and the calls of unknown functions.
*/
module EffectChecker {
  import opened Wrappers
  import opened Effects
  import EffectText

  datatype Error = Undeclared(effect: Effect) | Unused(effect: Effect) | Undefined(name: string)

  class Checker {
    const program: Program
    var declared: seq<Effect>   // of the function being checked
    var used: set<Effect>
    var errors: seq<Error>

    constructor (program: Program)
      ensures this.program == program && errors == []
    {
      this.program, declared, used, errors := program, [], {}, [];
    }

    // The walk met these effects; it reported something exactly if one is not declared, or a call is
    // of an unknown function.
    twostate predicate Charged(needs: set<Effect>, known: bool)
      reads this
    {
      && declared == old(declared) && used == old(used) + needs * Elems(declared)
      && old(errors) <= errors && (errors == old(errors) <==> known && needs <= Elems(declared))
    }

    method ReportError(e: Error)
      modifies this`errors
      ensures errors == old(errors) + [e]
    {
      errors := errors + [e];
    }

    method Effect(e: Effect)
      modifies this`used, this`errors
      ensures Charged({e}, true)
    {
      var i := 0;
      while i < |declared|
        invariant 0 <= i <= |declared| && used == old(used) && errors == old(errors)
        invariant forall j :: 0 <= j < i ==> declared[j] != e
      {
        if declared[i] == e {
          used := used + {e};
          return;
        }
        i := i + 1;
      }
      ReportError(Undeclared(e));
    }

    method EffectsOf(es: seq<Effect>)
      modifies this`used, this`errors
      ensures Charged(Elems(es), true)
    {
      var i := 0;
      while i < |es|
        invariant 0 <= i <= |es| && Charged(Elems(es[..i]), true)
      {
        Effect(es[i]);
        assert es[..i + 1] == es[..i] + [es[i]];
        i := i + 1;
      }
      assert es[..i] == es;
    }

    method Call(f: string, args: seq<Expr>)
      modifies this`used, this`errors
      ensures Charged(NeedsE(program, Expr.Call(f, args)), KnownE(program, Expr.Call(f, args)))
      decreases args, 1
    {
      var b := Hyphens(f);
      if b in program.builtins {
        EffectsOf(program.builtins[b]);
        CheckExprs(args);
        return;
      }
      CheckExprs(args);
      if f in program.funcs {
        EffectsOf(program.funcs[f].effects);
        return;
      }
      ReportError(Undefined(f));
    }

    method CheckExpr(e: Expr)
      modifies this`used, this`errors
      ensures Charged(NeedsE(program, e), KnownE(program, e))
      decreases e, 0
    {
      match e
      case Leaf =>
      case Operation(es) => CheckExprs(es);
      case AndOr(l, r) => CheckExpr(l); CheckExpr(r);
      case Call(f, args) => Call(f, args);
      case Try(s) => CheckExpr(s);
      case IfE(c, t, el) => CheckExpr(c); CheckExpr(t); CheckExpr(el);
      case MatchE(v, ok, err) => CheckExpr(v); CheckExpr(ok); CheckExpr(err);
    }

    method CheckExprs(es: seq<Expr>)
      modifies this`used, this`errors
      ensures Charged(NeedsEs(program, es), KnownEs(program, es))
      decreases es, 0
    {
      if es != [] {
        CheckExpr(es[0]);
        CheckExprs(es[1..]);
      }
    }

    method Statement(s: Stmt)
      modifies this`used, this`errors
      ensures Charged(NeedsS(program, s), KnownS(program, s))
      decreases s, 0
    {
      match s
      case Do(es) => CheckExprs(es);
      case Return(es) => CheckExprs(es);
      case Break =>
      case Continue =>
      case If(c, t, el) => CheckExpr(c); Statements(t); Statements(el);
      case Loop(once, each, b) => CheckExprs(once); CheckExprs(each); Statements(b);
      case Match(v, ok, err) => CheckExpr(v); Statements(ok); Statements(err);
      case Transaction(b) => Effect(DB); Statements(b);
      case Spawn(f, args) => Effect(SPAWN); Call(f, args);
    }

    method Statements(body: seq<Stmt>)
      modifies this`used, this`errors
      ensures Charged(Needs(program, body), Known(program, body))
      decreases body, 0
    {
      if body != [] {
        Statement(body[0]);
        Statements(body[1..]);
      }
    }

    method UnusedEffects()
      modifies this`errors
      ensures old(errors) <= errors
      ensures errors == old(errors) <==> Elems(declared) <= used
    {
      var i := 0;
      while i < |declared|
        invariant 0 <= i <= |declared| && old(errors) <= errors
        invariant errors == old(errors) <==> Elems(declared[..i]) <= used
      {
        if declared[i] !in used { ReportError(Unused(declared[i])); }
        assert declared[..i + 1] == declared[..i] + [declared[i]];
        i := i + 1;
      }
      assert declared[..i] == declared;
    }

    // Nothing is reported exactly if every call is of a known function, and the effects declared are those
    // that some call, transaction or spawn in the text charges by itself.
    method CheckFunction(f: Func)
      modifies this`declared, this`used, this`errors
      ensures old(errors) <= errors
      ensures errors == old(errors) <==> EffectText.WellDeclared(program, f)
    {
      EffectText.ExactDeclared(program, f);
      declared := f.effects;
      used := {};
      Statements(f.onErr);
      Statements(f.body);
      UnusedEffects();
    }
  }

  // The program is accepted exactly if every function declares what its text charges it with and nothing
  // else; and then no run of a function performs an effect it does not declare.
  method Check(p: Program, names: seq<string>) returns (errors: seq<Error>)
    requires forall n :: n in names <==> n in p.funcs
    ensures errors == [] <==> forall n :: n in p.funcs ==> EffectText.WellDeclared(p, p.funcs[n])
    ensures errors == [] ==> forall n, cs :: n in p.funcs ==> Elems(RunFunc(p, p.funcs[n], cs).trace) <= Elems(p.funcs[n].effects)
  {
    var c := new Checker(p);
    var i := 0;
    while i < |names|
      invariant 0 <= i <= |names| && c.program == p && fresh(c)
      invariant c.errors == [] <==> forall j :: 0 <= j < i ==> EffectText.WellDeclared(p, p.funcs[names[j]])
    {
      c.CheckFunction(p.funcs[names[i]]);
      i := i + 1;
    }
    errors := c.errors;
    forall n | n in p.funcs ensures Exact(p, p.funcs[n]) <==> EffectText.WellDeclared(p, p.funcs[n]) { EffectText.ExactDeclared(p, p.funcs[n]); }
    if errors == [] {
      forall n, cs | n in p.funcs ensures Elems(RunFunc(p, p.funcs[n], cs).trace) <= Elems(p.funcs[n].effects) {
        FuncSound(p, p.funcs[n], cs);
      }
    }
  }
}
