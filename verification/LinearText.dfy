/**
Writing an expression so that it is read back: every syntax tree has a text, with the sugar of the syntax
wherever it fits and parentheses around every operation, and the parser makes that tree of it. And how three
operands group without parentheses.
*/
module LinearText {
  import opened Wrappers
  import opened LinearSyntax
  import opened LinearParser

  // ----- Every tree has a text -----

  // The names of a chain of field accesses that starts at a variable.
  function Dotted(e: Expr): Option<seq<string>>
    decreases e
  {
    match e
    case Var(n) => Some([n])
    case Call(f, args) =>
      if f == "field" && |args| == 2 && args[1].Var? && args[1].name != "true" && args[1].name != "false" then
        var base := Dotted(args[0]);
        if base.Some? then Some(base.value + [args[1].name]) else None
      else None
    case IntLit(_) => None
    case FloatLit(_) => None
    case BoolLit(_) => None
    case StrLit(_) => None
    case TryE(_) => None
    case Binary(_, _, _) => None
  }

  // A primary, with parentheses where it would be none.
  function Write(e: Expr): Tree
    decreases e, 1
  {
    match e
    case IntLit(n) => Lit(Int(n, true))
    case FloatLit(x) => Lit(Float(x, true))
    case BoolLit(b) => Lit(Bool(b))
    case StrLit(x) => Lit(Str(x))
    case Var(n) => Name(n)
    case TryE(sub) => Group(Try(Write(sub)))
    case Binary(op, l, r) => Group(Bin(op, Write(l), Write(r)))
    case Call(_, _) => WriteCall(e)
  }

  function WriteCall(e: Expr): Tree
    requires e.Call?
    decreases e, 0
  {
    var (f, args) := (e.func, e.args);
    if Dotted(e).Some? then PathName(Path(Dotted(e).value, true))
    else if f == "field" && |args| == 2 && args[1].Var? then Field(Write(args[0]), Ident(args[1].name))
    else if f == "not" && |args| == 1 then Group(Not(Write(args[0])))
    else if f == NEW && args != [] && args[0].Var? then New(args[0].name, true, WriteArgs(args[1..]))
    else if f == "variant-call" && args != [] && Dotted(args[0]).Some? then
      Variant(Path(Dotted(args[0]).value, true), WriteArgs(args[1..]))
    else Apply(f, WriteArgs(args))
  }

  function WriteArgs(es: seq<Expr>): Args
    decreases es
  {
    if es == [] then NoArgs else Arg(Write(es[0]), true, WriteArgs(es[1..]))
  }

  lemma {:induction false} DottedPath(e: Expr)
    requires Dotted(e).Some?
    ensures GoodPath(Path(Dotted(e).value, true)) && PathExpr(Path(Dotted(e).value, true)) == e
    decreases e
  {
    if e.Call? {
      var base, name := Dotted(e.args[0]).value, e.args[1].name;
      DottedPath(e.args[0]);
      var segs := base + [name];
      assert segs[1..] == base[1..] + [name];
      assert segs[1..][..|base| - 1] == base[1..];
      assert e.args == [e.args[0], Var(name)];
    }
  }

  lemma {:induction false} GroupShaped(t: Tree)
    requires Shaped(t, 0) && !Wants(t, RParen)
    ensures forall min: nat :: Shaped(Group(t), min)
  {}

  // The text of a tree is a primary, reads as the tree, and ends in no name that a type could follow; but a
  // lone variable does.
  lemma {:induction false} WriteShaped(e: Expr)
    ensures Erase(Write(e)) == e
    ensures Primary(Write(e)) && !Write(e).Try? && !Write(e).Not? && forall min: nat :: Shaped(Write(e), min)
    ensures forall tok: Token :: !tok.LParen? && !tok.Ident? ==> !Wants(Write(e), tok)
    decreases e, 1
  {
    match e
    case TryE(sub) => WriteShaped(sub); GroupShaped(Try(Write(sub)));
    case Binary(op, l, r) =>
      WriteShaped(l);
      WriteShaped(r);
      assert Shaped(Write(l), Prec(op) - 1) && Shaped(Write(r), Prec(op));
      GroupShaped(Bin(op, Write(l), Write(r)));
    case Call(_, _) => CallShaped(e);
    case IntLit(_) =>
    case FloatLit(_) =>
    case BoolLit(_) =>
    case StrLit(_) =>
    case Var(_) =>
  }

  lemma {:induction false} CallShaped(e: Expr)
    requires e.Call?
    ensures Erase(Write(e)) == e
    ensures Primary(Write(e)) && !Write(e).Try? && !Write(e).Not? && forall min: nat :: Shaped(Write(e), min)
    ensures forall tok: Token :: !tok.LParen? && !tok.Ident? ==> !Wants(Write(e), tok)
    decreases e, 0
  {
    var (f, args) := (e.func, e.args);
    if Dotted(e).Some? {
      DottedPath(e);
    } else if f == "field" && |args| == 2 && args[1].Var? {
      WriteShaped(args[0]);
      assert args == [args[0], Var(args[1].name)];
    } else if f == "not" && |args| == 1 {
      WriteShaped(args[0]);
      GroupShaped(Not(Write(args[0])));
      assert args == [args[0]];
    } else if f == NEW && args != [] && args[0].Var? {
      ArgsShaped(args[1..]);
      assert args == [args[0]] + args[1..];
    } else if f == "variant-call" && args != [] && Dotted(args[0]).Some? {
      DottedPath(args[0]);
      ArgsShaped(args[1..]);
      assert args == [args[0]] + args[1..];
    } else {
      ArgsShaped(args);
    }
  }

  lemma {:induction false} ArgsShaped(es: seq<Expr>)
    ensures EraseArgs(WriteArgs(es)) == es && ShapedArgs(WriteArgs(es))
    decreases es
  {
    if es != [] {
      WriteShaped(es[0]);
      ArgsShaped(es[1..]);
      assert [es[0]] + es[1..] == es;
    }
  }

  // Every expression is read back from its text, and the parser stops behind it.
  lemma {:induction false} WrittenBack(e: Expr, k: Tokens, min: nat)
    requires k == [] || (!k[0].Dot? && !k[0].LParen? && !k[0].Ident? && HeadPrec(k) <= min)
    ensures var r := ParseExpr(Yield(Write(e), k), min);
            r.Some? && Erase(r.value.0) == e && r.value.1 == k
  {
    WriteShaped(e);
    ParseExactly(Yield(Write(e), k), Write(e), k, min);
  }

  // ----- Grouping without parentheses -----

  // The rank of the operators: products before sums, sums before comparisons, these before `and`, that before `or`.
  predicate Before(a: Op, b: Op) {
    || (a in {Mul, Div} && b !in {Mul, Div})
    || (a in {Add, Sub} && b !in {Mul, Div, Add, Sub})
    || (a in {Eq, Neq, Lt, Lte, Gt, Gte} && b in {And, Or})
    || (a == And && b == Or)
  }

  // x p y q z is x p (y q z) exactly if q goes before p, and otherwise (x p y) q z.
  lemma {:induction false} ThreeOperands(x: string, y: string, z: string, p: Op, q: Op)
    ensures var r := ParseExpr([Ident(x), OpT(p), Ident(y), OpT(q), Ident(z)], 0);
            && r.Some? && r.value.1 == []
            && Erase(r.value.0) == if Before(q, p) then Binary(p, Var(x), Binary(q, Var(y), Var(z)))
                                   else Binary(q, Binary(p, Var(x), Var(y)), Var(z))
  {
    var toks := [Ident(x), OpT(p), Ident(y), OpT(q), Ident(z)];
    var t := if Before(q, p) then Bin(p, Name(x), Bin(q, Name(y), Name(z))) else Bin(q, Bin(p, Name(x), Name(y)), Name(z));
    RanksAgree(p, q);
    FiveTokens(Ident(x), OpT(p), Ident(y), OpT(q), Ident(z));
    var tail := [OpT(q)] + Yield(Name(z), []);
    assert Yield(Name(z), []) == [Ident(z)] + [] && Yield(Name(y), tail) == [Ident(y)] + tail;
    assert Yield(Bin(q, Name(y), Name(z)), []) == Yield(Name(y), tail);
    assert Yield(Bin(p, Name(x), Name(y)), tail) == Yield(Name(x), [OpT(p)] + Yield(Name(y), tail));
    assert Yield(t, []) == toks;
    TwoNames(q, y, z, Prec(q) - 1);
    TwoNames(p, x, y, Prec(p) - 1);
    NameRead(x, Prec(p) - 1);
    NameRead(z, Prec(q));
    if Before(q, p) {
      ShapedWeaker(Bin(q, Name(y), Name(z)), Prec(q) - 1, Prec(p));
    } else {
      ShapedWeaker(Bin(p, Name(x), Name(y)), Prec(p) - 1, Prec(q) - 1);
    }
    assert Erase(t) == if Before(q, p) then Binary(p, Var(x), Erase(t.right)) else Binary(q, Erase(t.left), Var(z));
    ParseExactly(toks, t, [], 0);
  }

  lemma {:induction false} NameRead(x: string, min: nat)
    ensures Shaped(Name(x), min) && Erase(Name(x)) == Var(x)
  {}

  lemma {:induction false} TwoNames(op: Op, x: string, y: string, min: nat)
    requires min < Prec(op)
    ensures Shaped(Bin(op, Name(x), Name(y)), min) && Erase(Bin(op, Name(x), Name(y))) == Binary(op, Var(x), Var(y))
  {
    NameRead(x, Prec(op) - 1);
    NameRead(y, Prec(op));
  }

  lemma RanksAgree(p: Op, q: Op)
    ensures Before(q, p) <==> Prec(q) > Prec(p)
  {}

  lemma FiveTokens(a: Token, b: Token, c: Token, d: Token, e: Token)
    ensures [a] + ([b] + ([c] + ([d] + ([e] + [])))) == [a, b, c, d, e]
  {}
}
