/**
Precedence climbing reads exactly the trees of the right shape: what is read has the shape and yields
the tokens read, every tree of the shape is read back, and so a list of tokens has one tree at most.
*/
module LinearParser {
  import opened Wrappers
  import opened LinearSyntax

  // ----- What is read has the shape -----

  // The tree with what was left after it: its tokens, its shape, and a token that cannot carry it on.
  predicate Good(toks: Tokens, t: Tree, rest: Tokens, min: nat) {
    toks == Yield(t, rest) && Shaped(t, min) && Closes(t, rest)
  }

  lemma {:induction false} ExprSound(toks: Tokens, min: nat)
    requires ParseExpr(toks, min).Some?
    ensures var (t, rest) := ParseExpr(toks, min).value; Good(toks, t, rest, min) && HeadPrec(rest) <= min
    decreases |toks|, 3
  {
    PrimarySound(toks);
    var left := ParsePrimary(toks).value;
    ClimbSound(toks, left.0, left.1, min);
  }

  // The tree so far binds more tightly than min, and the operator after it no more tightly than it.
  lemma {:induction false} ClimbSound(toks: Tokens, left: Tree, k: Tokens, min: nat)
    requires Climb(left, k, min).Some? && |k| < |toks|
    requires Good(toks, left, k, min) && (left.Bin? ==> HeadPrec(k) <= Prec(left.op))
    ensures var (t, rest) := Climb(left, k, min).value; Good(toks, t, rest, min) && HeadPrec(rest) <= min
    decreases |k|, 0
  {
    if HeadPrec(k) > min {
      var prec := HeadPrec(k);
      ExprSound(k[1..], prec);
      var right := ParseExpr(k[1..], prec).value;
      assert k == [OpT(k[0].op)] + k[1..];
      TightLeft(left, prec, min);
      ClimbSound(toks, Bin(k[0].op, left, right.0), right.1, min);
    }
  }

  lemma TightLeft(left: Tree, prec: nat, min: nat)
    requires Shaped(left, min) && prec > min && (left.Bin? ==> prec <= Prec(left.op))
    ensures Shaped(left, prec - 1)
  {}

  lemma {:induction false} PrimarySound(toks: Tokens)
    requires ParsePrimary(toks).Some?
    ensures var (t, rest) := ParsePrimary(toks).value; Primary(t) && forall min: nat :: Good(toks, t, rest, min)
    decreases |toks|, 2
  {
    BaseSound(toks);
    var base := ParseBase(toks).value;
    FieldsSound(toks, base.0, base.1);
    forall min: nat ensures Good(toks, ParsePrimary(toks).value.0, ParsePrimary(toks).value.1, min) {}
  }

  predicate Open(t: Tree, k: Tokens) { k != [] && Wants(t, k[0]) }

  lemma {:induction false} FieldsSound(toks: Tokens, base: Tree, k: Tokens)
    requires ParseFields(base, k).Some? && Primary(base) && Shaped(base, 0) && toks == Yield(base, k) && !Open(base, k)
    requires (base.Try? || base.Not?) ==> Closes(base, k)
    ensures var (t, rest) := ParseFields(base, k).value; Primary(t) && Good(toks, t, rest, 0)
    decreases |k|
  {
    if k != [] && k[0].Dot? {
      assert k == [Dot, k[1]] + k[2..];
      FieldsSound(toks, Field(base, k[1]), k[2..]);
    }
  }

  lemma {:induction false} BaseSound(toks: Tokens)
    requires ParseBase(toks).Some?
    ensures var (t, rest) := ParseBase(toks).value;
            Primary(t) && Shaped(t, 0) && toks == Yield(t, rest) && !Open(t, rest) && (t.Try? || t.Not? ==> Closes(t, rest))
    decreases |toks|, 1
  {
    assert toks == [toks[0]] + toks[1..];
    match toks[0]
    case Int(_, _) =>
    case Float(_, _) =>
    case Bool(_) =>
    case Str(_) =>
    case Ident(n) =>
      if n == NEW && |toks| > 1 && toks[1].Ident? {
        assert toks == [Ident(NEW), Ident(toks[1].name)] + toks[2..];
        NewSound(toks[1].name, toks[2..]);
      } else if |toks| > 1 && toks[1].LParen? {
        ArgsSound(toks[2..]);
        assert toks == [toks[0], LParen] + toks[2..];
      }
    case Path(_, _) =>
      if |toks| > 1 && toks[1].LParen? {
        ArgsSound(toks[2..]);
        assert toks == [toks[0], LParen] + toks[2..];
      }
    case LParen =>
      ExprSound(toks[1..], 0);
      var inner := ParseExpr(toks[1..], 0).value;
      assert inner.1 == [RParen] + inner.1[1..];
    case TryT => PrimarySound(toks[1..]); assert Good(toks[1..], ParsePrimary(toks[1..]).value.0, ParsePrimary(toks[1..]).value.1, 0);
    case NotT => PrimarySound(toks[1..]); assert Good(toks[1..], ParsePrimary(toks[1..]).value.0, ParsePrimary(toks[1..]).value.1, 0);
  }

  lemma {:induction false} NewSound(t: string, toks: Tokens)
    requires ParseNew(t, toks).Some?
    ensures var (n, rest) := ParseNew(t, toks).value;
            n.New? && n.typeName == t && Shaped(n, 0) && [Ident(NEW), Ident(t)] + toks == Yield(n, rest) && !Open(n, rest)
    decreases |toks|, 5
  {
    if toks != [] && toks[0].LParen? {
      ArgsSound(toks[1..]);
      assert toks == [LParen] + toks[1..];
    }
  }

  lemma {:induction false} ArgsSound(toks: Tokens)
    requires ParseArgs(toks).Some?
    ensures var (a, rest) := ParseArgs(toks).value; toks == YieldArgs(a, [RParen] + rest) && ShapedArgs(a)
    decreases |toks|, 4
  {
    if toks[0].RParen? {
      assert toks == [RParen] + toks[1..];
    } else {
      ExprSound(toks, 0);
      var e := ParseExpr(toks, 0).value;
      if e.1 != [] && e.1[0].Comma? {
        assert e.1 == [Comma] + e.1[1..];
        ArgsSound(e.1[1..]);
      } else {
        ArgsSound(e.1);
        var rest := ParseArgs(e.1).value;
        assert [] + YieldArgs(rest.0, [RParen] + rest.1) == YieldArgs(rest.0, [RParen] + rest.1);
        if rest.0.Arg? { FirstToken(rest.0.first, (if rest.0.comma then [Comma] else []) + YieldArgs(rest.0.rest, [RParen] + rest.1)); }
      }
    }
  }

  lemma {:induction false} FirstToken(t: Tree, k: Tokens)
    requires Shaped(t, 0)
    ensures Yield(t, k) != [] && Yield(t, k)[0] == Front(t)
    ensures !Front(t).RParen? && !Front(t).Comma? && !Front(t).Dot? && !Front(t).OpT?
  {
    match t
    case Field(b, l) => FirstToken(b, [Dot, l] + k);
    case Bin(op, l, r) => ShapedWeaker(l, Prec(op) - 1, 0); FirstToken(l, [OpT(op)] + Yield(r, k));
    case Lit(_) =>
    case Name(_) =>
    case Apply(_, _) =>
    case PathName(_) =>
    case Variant(_, _) =>
    case New(_, _, _) =>
    case Group(_) =>
    case Try(_) =>
    case Not(_) =>
  }

  // ----- Every tree of the shape is read back -----

  lemma {:induction false} ExprComplete(t: Tree, k: Tokens, min: nat)
    requires Shaped(t, min) && Closes(t, k) && (t.Bin? ==> HeadPrec(k) <= Prec(t.op))
    ensures ParseExpr(Yield(t, k), min) == Climb(t, k, min)
    decreases t, 2
  {
    if t.Bin? {
      var after := [OpT(t.op)] + Yield(t.right, k);
      ShapedWeaker(t.left, Prec(t.op) - 1, min);
      ExprComplete(t.left, after, min);
      assert after[1..] == Yield(t.right, k);
      ExprComplete(t.right, k, Prec(t.op));
    } else {
      PrimaryComplete(t, k);
    }
  }

  lemma {:induction false} PrimaryComplete(t: Tree, k: Tokens)
    requires Primary(t) && Shaped(t, 0) && !Open(t, k) && (t.Try? || t.Not? ==> Closes(t, k))
    ensures ParsePrimary(Yield(t, k)) == ParseFields(t, k)
    decreases t, 1
  {
    match t
    case Field(b, l) =>
      var after := [Dot, l] + k;
      PrimaryComplete(b, after);
      assert after[2..] == k;
    case Lit(_) => assert Yield(t, k)[1..] == k;
    case Name(_) => assert Yield(t, k)[1..] == k;
    case PathName(_) => assert Yield(t, k)[1..] == k;
    case Apply(_, _) => CallComplete(t, k);
    case Variant(_, _) => CallComplete(t, k);
    case New(_, _, _) => NewComplete(t, k);
    case Group(_) => GroupComplete(t, k);
    case Try(e) => PrefixComplete(t, e, k);
    case Not(e) => PrefixComplete(t, e, k);
  }

  lemma {:induction false} GroupComplete(t: Tree, k: Tokens)
    requires t.Group? && Shaped(t, 0)
    ensures ParsePrimary(Yield(t, k)) == ParseFields(t, k)
    decreases t, 0
  {
    assert Yield(t, k)[1..] == Yield(t.inner, [RParen] + k) && ([RParen] + k)[1..] == k;
    ExprComplete(t.inner, [RParen] + k, 0);
  }

  lemma {:induction false} PrefixComplete(t: Tree, e: Tree, k: Tokens)
    requires (t == Try(e) || t == Not(e)) && Shaped(t, 0) && Closes(t, k)
    ensures ParsePrimary(Yield(t, k)) == ParseFields(t, k)
    decreases t, 0
  {
    assert Yield(t, k)[1..] == Yield(e, k);
    PrimaryComplete(e, k);
  }

  lemma {:induction false} CallComplete(t: Tree, k: Tokens)
    requires (t.Apply? || t.Variant?) && Shaped(t, 0)
    ensures ParsePrimary(Yield(t, k)) == ParseFields(t, k)
    decreases t, 0
  {
    var toks := Yield(t, k);
    assert toks[0] == Front(t) && toks[1] == LParen && toks[2..] == YieldArgs(t.args, [RParen] + k);
    ArgsComplete(t.args, k);
  }

  lemma {:induction false} NewComplete(t: Tree, k: Tokens)
    requires t.New? && Shaped(t, 0) && !Open(t, k)
    ensures ParsePrimary(Yield(t, k)) == ParseFields(t, k)
    decreases t, 0
  {
    var toks := Yield(t, k);
    var after := if t.parens then [LParen] + YieldArgs(t.args, [RParen] + k) else k;
    assert toks[0] == Ident(NEW) && toks[1] == Ident(t.typeName) && toks[2..] == after;
    if t.parens {
      assert after[1..] == YieldArgs(t.args, [RParen] + k);
      ArgsComplete(t.args, k);
    }
    assert ParseNew(t.typeName, after) == Some((t, k));
  }

  lemma {:induction false} ArgsComplete(a: Args, k: Tokens)
    requires ShapedArgs(a)
    ensures ParseArgs(YieldArgs(a, [RParen] + k)) == Some((a, k))
    decreases a, 2
  {
    match a
    case NoArgs => assert ([RParen] + k)[1..] == k;
    case Arg(e, comma, rest) =>
      var more := YieldArgs(rest, [RParen] + k);
      var after := (if comma then [Comma] else []) + more;
      FirstToken(e, after);
      if rest.Arg? { FirstToken(rest.first, (if rest.comma then [Comma] else []) + YieldArgs(rest.rest, [RParen] + k)); }
      if comma { assert after[1..] == more; } else { assert after == more; }
      ExprComplete(e, after, 0);
      ArgsComplete(rest, k);
  }

  // The parser reads a tree and stops at rest exactly if the tree yields what is before rest, has the
  // shape, and rest starts with nothing that could carry it on.
  lemma {:induction false} ParseExactly(toks: Tokens, t: Tree, rest: Tokens, min: nat)
    ensures ParseExpr(toks, min) == Some((t, rest)) <==> Good(toks, t, rest, min) && HeadPrec(rest) <= min
  {
    if ParseExpr(toks, min) == Some((t, rest)) {
      ExprSound(toks, min);
    } else if Good(toks, t, rest, min) && HeadPrec(rest) <= min {
      ExprComplete(t, rest, min);
    }
  }

  // Two trees of the shape with the same tokens are the same.
  lemma {:induction false} UniqueTree(t1: Tree, k1: Tokens, t2: Tree, k2: Tokens, min: nat)
    requires Shaped(t1, min) && Closes(t1, k1) && HeadPrec(k1) <= min
    requires Shaped(t2, min) && Closes(t2, k2) && HeadPrec(k2) <= min
    requires Yield(t1, k1) == Yield(t2, k2)
    ensures t1 == t2 && k1 == k2
  {
    ParseExactly(Yield(t1, k1), t1, k1, min);
    ParseExactly(Yield(t1, k1), t2, k2, min);
  }

  // What is read says what the tokens say.
  lemma {:induction false} ReadInOrder(toks: Tokens, min: nat)
    requires ParseExpr(toks, min).Some?
    ensures var (t, rest) := ParseExpr(toks, min).value; Spoken(toks) == InOrder(Erase(t), Spoken(rest))
  {
    ExprSound(toks, min);
    var (t, rest) := ParseExpr(toks, min).value;
    ShapedWeaker(t, min, 0);
    EraseInOrder(t, rest);
  }

  // ----- The parser, with its cursor -----

  class Parser {
    const tokens: Tokens
    var pos: nat

    constructor (tokens: Tokens)
      ensures this.tokens == tokens && pos == 0
    {
      this.tokens, pos := tokens, 0;
    }

    predicate Valid()
      reads this
    {
      pos <= |tokens|
    }

    // The current token and what follows it.
    function Rest(): Tokens
      reads this
      requires Valid()
    {
      tokens[pos..]
    }

    method NextToken()
      requires Valid() && Rest() != []
      modifies this
      ensures Valid() && Rest() == old(Rest())[1..]
    {
      pos := pos + 1;
    }

    // The syntax tree of what the function reads, and the cursor where it stops.
    method ParseExpression(min: nat) returns (e: Option<Expr>)
      requires Valid()
      modifies this
      ensures Valid()
      ensures var r := ParseExpr(old(Rest()), min);
              if r.Some? then e == Some(Erase(r.value.0)) && Rest() == r.value.1 else e.None?
      decreases |Rest()|, 3
    {
      ghost var toks := Rest();
      var left := ParsePrimaryExpr();
      if left.None? { return None; }
      ghost var tree := ParsePrimary(toks).value.0;
      var cur := left.value;
      while pos < |tokens| && HeadPrec(tokens[pos..]) > min
        invariant Valid() && |Rest()| < |toks|
        invariant ParseExpr(toks, min) == Climb(tree, Rest(), min) && cur == Erase(tree)
        decreases |Rest()|
      {
        var op := tokens[pos].op;
        var prec := Prec(op);
        NextToken();
        ghost var after := Rest();
        var right := ParseExpression(prec);
        if right.None? { return None; }
        tree := Bin(op, tree, ParseExpr(after, prec).value.0);
        cur := Binary(op, cur, right.value);
      }
      e := Some(cur);
    }

    method ParsePrimaryExpr() returns (e: Option<Expr>)
      requires Valid()
      modifies this
      ensures Valid()
      ensures var r := ParsePrimary(old(Rest()));
              if r.Some? then e == Some(Erase(r.value.0)) && Rest() == r.value.1 else e.None?
      decreases |Rest()|, 2
    {
      ghost var toks := Rest();
      var base := ParsePrimaryBase();
      if base.None? { return None; }
      ghost var tree := ParseBase(toks).value.0;
      var cur := base.value;
      while pos < |tokens| && tokens[pos].Dot?
        invariant Valid() && |Rest()| < |toks|
        invariant ParsePrimary(toks) == ParseFields(tree, Rest()) && cur == Erase(tree)
        decreases |Rest()|
      {
        ghost var here := Rest();
        NextToken();
        if pos == |tokens| || !IsField(tokens[pos]) { return None; }
        tree := Field(tree, tokens[pos]);
        cur := TakeField(cur, tokens[pos]);
        NextToken();
        assert here[2..] == Rest();
      }
      e := Some(cur);
    }

    method ParsePrimaryBase() returns (e: Option<Expr>)
      requires Valid()
      modifies this
      ensures Valid()
      ensures var r := ParseBase(old(Rest()));
              if r.Some? then e == Some(Erase(r.value.0)) && Rest() == r.value.1 else e.None?
      decreases |Rest()|, 1
    {
      if pos == |tokens| { return None; }
      ghost var toks := Rest();
      assert |toks| > 1 ==> toks[1..][1..] == toks[2..] && toks[1..][0] == toks[1];
      match tokens[pos]
      case Int(_, _) => e := ParseLiteral();
      case Float(_, _) => e := ParseLiteral();
      case Bool(_) => e := ParseLiteral();
      case Str(_) => e := ParseLiteral();
      case Ident(n) => NextToken(); e := ParseName(n);
      case Path(_, _) => e := ParsePathName();
      case LParen => NextToken(); e := ParseGroup();
      case TryT => e := ParsePrefix();
      case NotT => e := ParsePrefix();
      case Word(_) => e := None;
      case RParen => e := None;
      case Comma => e := None;
      case Dot => e := None;
      case OpT(_) => e := None;
      case Other => e := None;
    }

    method ParseLiteral() returns (e: Option<Expr>)
      requires Valid() && Rest() != [] && (Rest()[0].Int? || Rest()[0].Float? || Rest()[0].Bool? || Rest()[0].Str?)
      modifies this
      ensures Valid()
      ensures var r := ParseBase(old(Rest()));
              if r.Some? then e == Some(Erase(r.value.0)) && Rest() == r.value.1 else e.None?
    {
      match tokens[pos] {
        case Int(n, fits) => if !fits { return None; } e := Some(IntLit(n));
        case Float(f, fits) => if !fits { return None; } e := Some(FloatLit(f));
        case Bool(b) => e := Some(BoolLit(b));
        case Str(s) => e := Some(StrLit(s));
      }
      NextToken();
    }

    // A `try` or a `not`, with its operand.
    method ParsePrefix() returns (e: Option<Expr>)
      requires Valid() && Rest() != [] && (Rest()[0].TryT? || Rest()[0].NotT?)
      modifies this
      ensures Valid()
      ensures var r := ParseBase(old(Rest()));
              if r.Some? then e == Some(Erase(r.value.0)) && Rest() == r.value.1 else e.None?
      decreases |Rest()|, 0
    {
      var isTry := tokens[pos].TryT?;
      NextToken();
      var sub := ParsePrimaryExpr();
      if sub.None? { return None; }
      e := Some(if isTry then TryE(sub.value) else Call("not", [sub.value]));
    }

    // A dotted name, or the call of a variant if an open parenthesis follows.
    method ParsePathName() returns (e: Option<Expr>)
      requires Valid() && Rest() != [] && Rest()[0].Path?
      modifies this
      ensures Valid()
      ensures var r := ParseBase(old(Rest()));
              if r.Some? then e == Some(Erase(r.value.0)) && Rest() == r.value.1 else e.None?
      decreases |Rest()|, 0
    {
      var tok := tokens[pos];
      ghost var toks := Rest();
      assert |toks| > 1 ==> toks[1..][1..] == toks[2..] && toks[1..][0] == toks[1];
      if !tok.plain || tok.segs == [] { return None; }
      var named := FieldNames(tok.segs[1..]);
      assert named <==> GoodPath(tok);
      if !named { return None; }
      var path := FoldFields(Var(tok.segs[0]), tok.segs[1..]);
      NextToken();
      if pos < |tokens| && tokens[pos].LParen? {
        NextToken();
        var args := ParseArguments();
        e := if args.None? then None else Some(Call("variant-call", [path] + args.value));
      } else {
        e := Some(path);
      }
    }

    // A type, and its arguments if an open parenthesis follows.
    method ParseNewExpr() returns (e: Option<Expr>)
      requires Valid() && Rest() != [] && Rest()[0].Ident?
      modifies this
      ensures Valid()
      ensures var r := ParseNew(old(Rest())[0].name, old(Rest())[1..]);
              if r.Some? then e == Some(Erase(r.value.0)) && Rest() == r.value.1 else e.None?
      decreases |Rest()|, 5
    {
      var t := Var(tokens[pos].name);
      NextToken();
      assert [t] + [] == [t];
      if pos < |tokens| && tokens[pos].LParen? {
        NextToken();
        var args := ParseArguments();
        e := if args.None? then None else Some(Call(NEW, [t] + args.value));
      } else {
        e := Some(Call(NEW, [t]));
      }
    }

    // A variable, a call if an open parenthesis follows, or the construction of a value.
    method ParseName(n: string) returns (e: Option<Expr>)
      requires Valid()
      modifies this
      ensures Valid()
      ensures var k := old(Rest());
              if n == NEW && k != [] && k[0].Ident? then
                var r := ParseNew(k[0].name, k[1..]);
                if r.Some? then e == Some(Erase(r.value.0)) && Rest() == r.value.1 else e.None?
              else if k == [] || !k[0].LParen? then e == Some(Var(n)) && Rest() == k
              else var r := ParseArgs(k[1..]);
                   if r.Some? then e == Some(Call(n, EraseArgs(r.value.0))) && Rest() == r.value.1 else e.None?
      decreases |Rest()|, 6
    {
      if n == NEW && pos < |tokens| && tokens[pos].Ident? {
        e := ParseNewExpr();
      } else if pos < |tokens| && tokens[pos].LParen? {
        NextToken();
        var args := ParseArguments();
        e := if args.None? then None else Some(Call(n, args.value));
      } else {
        e := Some(Var(n));
      }
    }

    method ParseGroup() returns (e: Option<Expr>)
      requires Valid()
      modifies this
      ensures Valid()
      ensures var r := ParseExpr(old(Rest()), 0);
              if r.Some? && r.value.1 != [] && r.value.1[0].RParen? then e == Some(Erase(r.value.0)) && Rest() == r.value.1[1..] else e.None?
      decreases |Rest()|, 4
    {
      e := ParseExpression(0);
      if e.None? || pos == |tokens| || !tokens[pos].RParen? { return None; }
      NextToken();
    }

    method ParseArguments() returns (args: Option<seq<Expr>>)
      requires Valid()
      modifies this
      ensures Valid()
      ensures var r := ParseArgs(old(Rest()));
              if r.Some? then args == Some(EraseArgs(r.value.0)) && Rest() == r.value.1 else args.None?
      decreases |Rest()|, 4
    {
      ghost var toks := Rest();
      var es: seq<Expr> := [];
      ghost var all := ParseArgs(toks);
      if all.Some? { assert [] + EraseArgs(all.value.0) == EraseArgs(all.value.0); }
      while pos < |tokens| && !tokens[pos].RParen?
        invariant Valid() && |Rest()| <= |toks|
        invariant Joins(all, es, ParseArgs(Rest()))
        decreases |Rest()|
      {
        ghost var here, sofar := Rest(), es;
        var arg := ParseExpression(0);
        if arg.None? { return None; }
        es := es + [arg.value];
        if pos < |tokens| && tokens[pos].Comma? { NextToken(); }
        JoinsMore(all, sofar, ParseExpr(here, 0).value.0, ParseArgs(here), ParseArgs(Rest()));
      }
      if pos == |tokens| { return None; }
      NextToken();
      assert es + [] == es;
      args := Some(es);
    }
  }

  // The access to what stands after the dot.
  method TakeField(base: Expr, tok: Token) returns (e: Expr)
    requires IsField(tok)
    ensures forall b :: Erase(b) == base ==> e == Erase(Field(b, tok))
  {
    if tok.Path? {
      e := FoldFields(base, tok.segs);
    } else {
      e := FieldOf(base, NameOf(tok));
    }
  }

  method FoldFields(base: Expr, segs: seq<string>) returns (e: Expr)
    ensures e == FieldsOf(base, segs)
  {
    e := base;
    var i := 0;
    while i < |segs|
      invariant 0 <= i <= |segs| && e == FieldsOf(base, segs[..i])
    {
      assert segs[..i + 1][..i] == segs[..i];
      e := FieldOf(e, segs[i]);
      i := i + 1;
    }
    assert segs[..i] == segs;
  }

  method FieldNames(segs: seq<string>) returns (good: bool)
    ensures good <==> forall i :: 0 <= i < |segs| ==> segs[i] != "true" && segs[i] != "false"
  {
    var i := 0;
    while i < |segs|
      invariant 0 <= i <= |segs| && forall j :: 0 <= j < i ==> segs[j] != "true" && segs[j] != "false"
    {
      if segs[i] == "true" || segs[i] == "false" { return false; }
      i := i + 1;
    }
    good := true;
  }

  type ParsedArgs = Option<(Args, Tokens)>

  // All the arguments: those read so far and those to come.
  predicate Joins(all: ParsedArgs, es: seq<Expr>, more: ParsedArgs) {
    if more.Some? then all.Some? && all.value.1 == more.value.1 && EraseArgs(all.value.0) == es + EraseArgs(more.value.0)
    else all.None?
  }

  lemma {:induction false} JoinsMore(all: ParsedArgs, es: seq<Expr>, e: Tree, more: ParsedArgs, rest: ParsedArgs)
    requires Joins(all, es, more)
    requires more.Some? <==> rest.Some?
    requires more.Some? ==> more.value.1 == rest.value.1 && more.value.0.Arg? && more.value.0.first == e && more.value.0.rest == rest.value.0
    ensures Joins(all, es + [Erase(e)], rest)
  {
    if rest.Some? { assert es + ([Erase(e)] + EraseArgs(rest.value.0)) == es + [Erase(e)] + EraseArgs(rest.value.0); }
  }
}
