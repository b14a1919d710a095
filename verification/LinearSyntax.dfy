/**
Expressions of the linear syntax: operators by precedence climbing over primaries. A concrete tree keeps
the parentheses and commas that the syntax tree of the program drops.
*/
module LinearSyntax {
  import opened Wrappers

  datatype Op = Or | And | Eq | Neq | Lt | Lte | Gt | Gte | Add | Sub | Mul | Div

  // Word is a keyword that starts no expression; keywords can still name a field. A dotted name is one token;
  // `plain` says that it does not start with a keyword.
  datatype Token =
    | Int(number: int, fits: bool)
    | Float(text: string, fits: bool)
    | Bool(truth: bool)
    | Str(text: string)
    | Ident(name: string)
    | Word(name: string)
    | Path(segs: seq<string>, plain: bool)
    | TryT | NotT | LParen | RParen | Comma | Dot
    | OpT(op: Op)
    | Other

  type Tokens = seq<Token>

  function Prec(op: Op): nat {
    match op
    case Or => 1
    case And => 2
    case Eq => 3
    case Neq => 3
    case Lt => 3
    case Lte => 3
    case Gt => 3
    case Gte => 3
    case Add => 4
    case Sub => 4
    case Mul => 5
    case Div => 5
  }

  // The precedence of the next token: none at the end and for what is no operator.
  function HeadPrec(toks: Tokens): nat { if toks != [] && toks[0].OpT? then Prec(toks[0].op) else 0 }

  datatype Expr =
    | IntLit(number: int)
    | FloatLit(text: string)
    | BoolLit(truth: bool)
    | StrLit(text: string)
    | Var(name: string)
    | Call(func: string, args: seq<Expr>)
    | TryE(sub: Expr)
    | Binary(op: Op, left: Expr, right: Expr)

  // What was read, token by token.
  datatype Tree =
    | Lit(tok: Token)
    | Name(name: string)
    | Apply(name: string, args: Args)
    | PathName(path: Token)
    | Variant(path: Token, args: Args)          // a dotted name with arguments
    | New(typeName: string, parens: bool, args: Args)
    | Group(inner: Tree)
    | Try(sub: Tree)
    | Not(sub: Tree)
    | Field(base: Tree, field: Token)
    | Bin(op: Op, left: Tree, right: Tree)

  datatype Args = NoArgs | Arg(first: Tree, comma: bool, rest: Args)

  // A field name: an identifier or a keyword, and the operators are keywords too.
  predicate IsName(t: Token) { t.Ident? || t.Word? || t.TryT? || t.OpT? }

  function NameOf(t: Token): string {
    if t.Ident? || t.Word? then t.name else if t.OpT? then OpName(t.op) else "try"
  }

  function OpName(op: Op): string {
    match op
    case Or => "or"
    case And => "and"
    case Eq => "eq"
    case Neq => "neq"
    case Lt => "lt"
    case Lte => "lte"
    case Gt => "gt"
    case Gte => "gte"
    case Add => "add"
    case Sub => "sub"
    case Mul => "mul"
    case Div => "div"
  }

  const NEW := "new"

  // A dotted name is a chain of field accesses; truth values are no field names.
  predicate GoodPath(t: Token) {
    t.Path? && t.plain && t.segs != [] && forall i :: 1 <= i < |t.segs| ==> t.segs[i] != "true" && t.segs[i] != "false"
  }

  function FieldOf(e: Expr, name: string): Expr { Call("field", [e, Var(name)]) }

  function FieldsOf(e: Expr, segs: seq<string>): Expr {
    if segs == [] then e else FieldOf(FieldsOf(e, segs[..|segs| - 1]), segs[|segs| - 1])
  }

  function PathExpr(t: Token): Expr { if t.Path? && t.segs != [] then FieldsOf(Var(t.segs[0]), t.segs[1..]) else Var("") }

  // What may stand after the dot: a name, or several.
  predicate IsField(t: Token) { IsName(t) || t.Path? }

  // The syntax tree.
  function Erase(t: Tree): Expr {
    match t
    case Lit(tok) =>
      if tok.Int? then IntLit(tok.number) else if tok.Float? then FloatLit(tok.text) else if tok.Bool? then BoolLit(tok.truth) else if tok.Str? then StrLit(tok.text) else StrLit("")
    case Name(n) => Var(n)
    case Apply(n, args) => Call(n, EraseArgs(args))
    case PathName(path) => PathExpr(path)
    case Variant(path, args) => Call("variant-call", [PathExpr(path)] + EraseArgs(args))
    case New(t, _, args) => Call(NEW, [Var(t)] + EraseArgs(args))
    case Group(e) => Erase(e)
    case Try(e) => TryE(Erase(e))
    case Not(e) => Call("not", [Erase(e)])
    case Field(b, l) => if l.Path? then FieldsOf(Erase(b), l.segs) else FieldOf(Erase(b), NameOf(l))
    case Bin(op, l, r) => Binary(op, Erase(l), Erase(r))
  }

  function EraseArgs(a: Args): seq<Expr> {
    match a
    case NoArgs => []
    case Arg(e, _, rest) => [Erase(e)] + EraseArgs(rest)
  }

  // The tokens of a tree, followed by k.
  function Yield(t: Tree, k: Tokens): Tokens {
    match t
    case Lit(tok) => [tok] + k
    case Name(n) => [Ident(n)] + k
    case Apply(n, args) => [Ident(n), LParen] + YieldArgs(args, [RParen] + k)
    case PathName(path) => [path] + k
    case Variant(path, args) => [path, LParen] + YieldArgs(args, [RParen] + k)
    case New(t, parens, args) => [Ident(NEW), Ident(t)] + if parens then [LParen] + YieldArgs(args, [RParen] + k) else k
    case Group(e) => [LParen] + Yield(e, [RParen] + k)
    case Try(e) => [TryT] + Yield(e, k)
    case Not(e) => [NotT] + Yield(e, k)
    case Field(b, l) => Yield(b, [Dot, l] + k)
    case Bin(op, l, r) => Yield(l, [OpT(op)] + Yield(r, k))
  }

  function YieldArgs(a: Args, k: Tokens): Tokens {
    match a
    case NoArgs => k
    case Arg(e, comma, rest) => Yield(e, (if comma then [Comma] else []) + YieldArgs(rest, k))
  }

  // ----- What is said, in order -----

  datatype Saying = Said(name: string) | Number(number: int) | Decimal(text: string) | Truth(truth: bool) | Text(text: string)

  type Speech = seq<Saying>

  // A name, and then k. The two names that the syntax supplies by itself are left out, wherever they stand.
  function Say(name: string, k: Speech): Speech { if name == "field" || name == "variant-call" then k else [Said(name)] + k }

  function SayAll(names: seq<string>, k: Speech): Speech { if names == [] then k else Say(names[0], SayAll(names[1..], k)) }

  function Speak(t: Token, k: Speech): Speech {
    match t
    case Int(n, _) => [Number(n)] + k
    case Float(x, _) => [Decimal(x)] + k
    case Bool(b) => [Truth(b)] + k
    case Str(x) => [Text(x)] + k
    case Ident(n) => Say(n, k)
    case Word(n) => Say(n, k)
    case Path(segs, _) => SayAll(segs, k)
    case TryT => Say("try", k)
    case NotT => Say("not", k)
    case OpT(op) => Say(OpName(op), k)
    case LParen => k
    case RParen => k
    case Comma => k
    case Dot => k
    case Other => k
  }

  // Every name, operator and literal of the tokens, without parentheses, commas and dots.
  function Spoken(toks: Tokens): Speech { if toks == [] then [] else Speak(toks[0], Spoken(toks[1..])) }

  // The names, operators and literals of an expression from left to right, an operator between its
  // operands; and then k.
  function InOrder(e: Expr, k: Speech): Speech
    decreases e
  {
    match e
    case IntLit(n) => [Number(n)] + k
    case FloatLit(x) => [Decimal(x)] + k
    case BoolLit(b) => [Truth(b)] + k
    case StrLit(x) => [Text(x)] + k
    case Var(n) => Say(n, k)
    case Call(f, args) => Say(f, InOrderAll(args, k))
    case TryE(sub) => Say("try", InOrder(sub, k))
    case Binary(op, l, r) => InOrder(l, Say(OpName(op), InOrder(r, k)))
  }

  function InOrderAll(es: seq<Expr>, k: Speech): Speech
    decreases es
  {
    if es == [] then k else InOrder(es[0], InOrderAll(es[1..], k))
  }

  lemma {:induction false} SpokenCons(t: Token, k: Tokens)
    ensures Spoken([t] + k) == Speak(t, Spoken(k))
  {
    assert ([t] + k)[1..] == k;
  }

  lemma {:induction false} SpokenTwo(t: Token, u: Token, k: Tokens)
    ensures Spoken([t, u] + k) == Speak(t, Speak(u, Spoken(k)))
  {
    assert [t, u] + k == [t] + ([u] + k);
    SpokenCons(t, [u] + k);
    SpokenCons(u, k);
  }

  lemma {:induction false} SaySnoc(names: seq<string>, name: string, k: Speech)
    ensures SayAll(names + [name], k) == SayAll(names, Say(name, k))
    decreases |names|
  {
    var all := names + [name];
    if names == [] {
      assert all == [name] && all[1..] == [];
    } else {
      assert all[1..] == names[1..] + [name];
      SaySnoc(names[1..], name, k);
    }
  }

  lemma {:induction false} ConsInOrder(e: Expr, es: seq<Expr>, k: Speech)
    ensures InOrderAll([e] + es, k) == InOrder(e, InOrderAll(es, k))
  {
    assert ([e] + es)[1..] == es;
  }

  lemma {:induction false} OneInOrder(e: Expr, k: Speech)
    ensures InOrderAll([e], k) == InOrder(e, k)
  {
    assert [e] + [] == [e];
    ConsInOrder(e, [], k);
  }

  lemma {:induction false} FieldInOrder(e: Expr, name: string, k: Speech)
    ensures InOrder(FieldOf(e, name), k) == InOrder(e, Say(name, k))
  {
    assert [e, Var(name)] == [e] + [Var(name)];
    ConsInOrder(e, [Var(name)], k);
    OneInOrder(Var(name), k);
  }

  lemma {:induction false} FieldsInOrder(e: Expr, segs: seq<string>, k: Speech)
    ensures InOrder(FieldsOf(e, segs), k) == InOrder(e, SayAll(segs, k))
    decreases |segs|
  {
    if segs != [] {
      var n := |segs| - 1;
      FieldInOrder(FieldsOf(e, segs[..n]), segs[n], k);
      FieldsInOrder(e, segs[..n], Say(segs[n], k));
      SaySnoc(segs[..n], segs[n], k);
      assert segs[..n] + [segs[n]] == segs;
    }
  }

  lemma {:induction false} PathInOrder(path: Token, k: Speech)
    requires GoodPath(path)
    ensures InOrder(PathExpr(path), k) == Speak(path, k)
  {
    FieldsInOrder(Var(path.segs[0]), path.segs[1..], k);
  }

  // Nothing is dropped, added or moved: the syntax tree says what the tokens say, in their order.
  lemma {:induction false} EraseInOrder(t: Tree, k: Tokens)
    requires Shaped(t, 0)
    ensures Spoken(Yield(t, k)) == InOrder(Erase(t), Spoken(k))
    decreases t, 1
  {
    match t
    case Lit(tok) => SpokenCons(tok, k);
    case Name(n) => SpokenCons(Ident(n), k);
    case Apply(n, args) => CallInOrder(Ident(n), args, k);
    case PathName(path) => SpokenCons(path, k); PathInOrder(path, Spoken(k));
    case Variant(_, _) => VariantInOrder(t, k);
    case New(_, _, _) => NewInOrder(t, k);
    case Group(_) => WrapInOrder(t, k);
    case Try(_) => WrapInOrder(t, k);
    case Not(_) => WrapInOrder(t, k);
    case Field(_, _) => TakenInOrder(t, k);
    case Bin(_, _, _) => BinInOrder(t, k);
  }

  lemma {:induction false} WrapInOrder(t: Tree, k: Tokens)
    requires (t.Group? || t.Try? || t.Not?) && Shaped(t, 0)
    ensures Spoken(Yield(t, k)) == InOrder(Erase(t), Spoken(k))
    decreases t, 0
  {
    if t.Group? {
      SpokenCons(LParen, Yield(t.inner, [RParen] + k));
      EraseInOrder(t.inner, [RParen] + k);
      SpokenCons(RParen, k);
    } else {
      SpokenCons(if t.Try? then TryT else NotT, Yield(t.sub, k));
      EraseInOrder(t.sub, k);
      OneInOrder(Erase(t.sub), Spoken(k));
    }
  }

  lemma {:induction false} BinInOrder(t: Tree, k: Tokens)
    requires t.Bin? && Shaped(t, 0)
    ensures Spoken(Yield(t, k)) == InOrder(Erase(t), Spoken(k))
    decreases t, 0
  {
    ShapedWeaker(t.left, Prec(t.op) - 1, 0);
    ShapedWeaker(t.right, Prec(t.op), 0);
    EraseInOrder(t.left, [OpT(t.op)] + Yield(t.right, k));
    SpokenCons(OpT(t.op), Yield(t.right, k));
    EraseInOrder(t.right, k);
  }

  lemma {:induction false} TakenInOrder(t: Tree, k: Tokens)
    requires t.Field? && Shaped(t, 0)
    ensures Spoken(Yield(t, k)) == InOrder(Erase(t), Spoken(k))
    decreases t, 0
  {
    var (b, l) := (t.base, t.field);
    EraseInOrder(b, [Dot, l] + k);
    SpokenTwo(Dot, l, k);
    if l.Path? { FieldsInOrder(Erase(b), l.segs, Spoken(k)); } else { FieldInOrder(Erase(b), NameOf(l), Spoken(k)); }
  }

  // A token, an open parenthesis, and arguments.
  lemma {:induction false} CallInOrder(tok: Token, args: Args, k: Tokens)
    requires ShapedArgs(args)
    ensures Spoken([tok, LParen] + YieldArgs(args, [RParen] + k)) == Speak(tok, InOrderAll(EraseArgs(args), Spoken(k)))
    decreases args, 3
  {
    SpokenTwo(tok, LParen, YieldArgs(args, [RParen] + k));
    ArgsInOrder(args, [RParen] + k);
    SpokenCons(RParen, k);
  }

  lemma {:induction false} VariantInOrder(t: Tree, k: Tokens)
    requires t.Variant? && Shaped(t, 0)
    ensures Spoken(Yield(t, k)) == InOrder(Erase(t), Spoken(k))
    decreases t, 0
  {
    CallInOrder(t.path, t.args, k);
    ConsInOrder(PathExpr(t.path), EraseArgs(t.args), Spoken(k));
    PathInOrder(t.path, InOrderAll(EraseArgs(t.args), Spoken(k)));
  }

  lemma {:induction false} NewInOrder(t: Tree, k: Tokens)
    requires t.New? && Shaped(t, 0)
    ensures Spoken(Yield(t, k)) == InOrder(Erase(t), Spoken(k))
    decreases t, 0
  {
    var (tok, args) := (Ident(t.typeName), EraseArgs(t.args));
    ConsInOrder(Var(t.typeName), args, Spoken(k));
    if t.parens {
      var after := YieldArgs(t.args, [RParen] + k);
      assert Yield(t, k) == [Ident(NEW)] + ([tok, LParen] + after);
      SpokenCons(Ident(NEW), [tok, LParen] + after);
      CallInOrder(tok, t.args, k);
    } else {
      SpokenTwo(Ident(NEW), tok, k);
    }
  }

  lemma {:induction false} ArgsInOrder(a: Args, k: Tokens)
    requires ShapedArgs(a)
    ensures Spoken(YieldArgs(a, k)) == InOrderAll(EraseArgs(a), Spoken(k))
    decreases a, 2
  {
    if a.Arg? {
      var after := YieldArgs(a.rest, k);
      ArgsInOrder(a.rest, k);
      if a.comma {
        SpokenCons(Comma, after);
        EraseInOrder(a.first, [Comma] + after);
      } else {
        assert [] + after == after;
        EraseInOrder(a.first, after);
      }
      ConsInOrder(Erase(a.first), EraseArgs(a.rest), Spoken(k));
    }
  }

  // ----- The shape of a tree that is read with the tokens k after it -----

  // The last primary of the tree would take the token: a name an open parenthesis for its arguments, and
  // the name `new` a type.
  predicate Wants(t: Tree, tok: Token): (wants: bool)
    ensures wants ==> tok.LParen? || tok.Ident?
  {
    match t
    case Name(n) => tok.LParen? || (n == NEW && tok.Ident?)
    case PathName(_) => tok.LParen?
    case New(_, parens, _) => !parens && tok.LParen?
    case Try(e) => Wants(e, tok)
    case Not(e) => Wants(e, tok)
    case Bin(_, _, r) => Wants(r, tok)
    case Lit(_) => false
    case Apply(_, _) => false
    case Variant(_, _) => false
    case Group(_) => false
    case Field(_, _) => false
  }

  // No token of k carries on a primary, or the last primary of a tree.
  predicate Closes(t: Tree, k: Tokens) {
    k != [] ==> !k[0].Dot? && !Wants(t, k[0])
  }

  predicate Primary(t: Tree) { !t.Bin? }

  // The left operand binds at least as tightly as the operator, the right operand more tightly, the
  // whole more tightly than min; try, not and field access take primaries.
  predicate Shaped(t: Tree, min: nat) {
    match t
    case Lit(tok) => ((tok.Int? || tok.Float?) && tok.fits) || tok.Bool? || tok.Str?
    case Name(_) => true
    case Apply(_, args) => ShapedArgs(args)
    case PathName(path) => GoodPath(path)
    case Variant(path, args) => GoodPath(path) && ShapedArgs(args)
    case New(_, parens, args) => ShapedArgs(args) && (!parens ==> args.NoArgs?)
    case Group(e) => Shaped(e, 0) && Closes(e, [RParen])
    case Try(e) => Primary(e) && Shaped(e, 0)
    case Not(e) => Primary(e) && Shaped(e, 0)
    case Field(b, l) => Primary(b) && !b.Try? && !b.Not? && Shaped(b, 0) && IsField(l)
    case Bin(op, l, r) => Prec(op) > min && Shaped(l, Prec(op) - 1) && Shaped(r, Prec(op))
  }

  predicate ShapedArgs(a: Args) {
    match a
    case NoArgs => true
    case Arg(e, comma, rest) =>
      Shaped(e, 0) && ShapedArgs(rest) && (comma || rest.NoArgs? || !Wants(e, Front(rest.first)))
  }

  // The first token of a tree.
  function Front(t: Tree): Token {
    match t
    case Lit(tok) => tok
    case Name(n) => Ident(n)
    case Apply(n, _) => Ident(n)
    case PathName(path) => path
    case Variant(path, _) => path
    case New(_, _, _) => Ident(NEW)
    case Group(_) => LParen
    case Try(_) => TryT
    case Not(_) => NotT
    case Field(b, _) => Front(b)
    case Bin(_, l, _) => Front(l)
  }

  lemma {:induction false} ShapedWeaker(t: Tree, min: nat, less: nat)
    requires Shaped(t, min) && less <= min
    ensures Shaped(t, less)
  {}

  // ----- The parser, as a function -----

  // None is a syntax error, which stops the whole parse.
  type Parsed = Option<(Tree, Tokens)>

  function ParseExpr(toks: Tokens, min: nat): (r: Parsed)
    ensures r.Some? ==> |r.value.1| < |toks|
    decreases |toks|, 3
  {
    var left := ParsePrimary(toks);
    if left.None? then None else Climb(left.value.0, left.value.1, min)
  }

  function Climb(left: Tree, toks: Tokens, min: nat): (r: Parsed)
    ensures r.Some? ==> |r.value.1| <= |toks|
    decreases |toks|, 0
  {
    if HeadPrec(toks) <= min then Some((left, toks)) else
    var right := ParseExpr(toks[1..], HeadPrec(toks));
    if right.None? then None else Climb(Bin(toks[0].op, left, right.value.0), right.value.1, min)
  }

  function ParsePrimary(toks: Tokens): (r: Parsed)
    ensures r.Some? ==> |r.value.1| < |toks|
    decreases |toks|, 2
  {
    var base := ParseBase(toks);
    if base.None? then None else ParseFields(base.value.0, base.value.1)
  }

  function ParseFields(base: Tree, toks: Tokens): (r: Parsed)
    ensures r.Some? ==> |r.value.1| <= |toks|
    decreases |toks|, 0
  {
    if toks == [] || !toks[0].Dot? then Some((base, toks))
    else if |toks| > 1 && IsField(toks[1]) then ParseFields(Field(base, toks[1]), toks[2..])
    else None
  }

  function ParseBase(toks: Tokens): (r: Parsed)
    ensures r.Some? ==> |r.value.1| < |toks|
    decreases |toks|, 1
  {
    if toks == [] then None else
    match toks[0]
    case Int(_, fits) => if fits then Some((Lit(toks[0]), toks[1..])) else None
    case Float(_, fits) => if fits then Some((Lit(toks[0]), toks[1..])) else None
    case Bool(_) => Some((Lit(toks[0]), toks[1..]))
    case Str(_) => Some((Lit(toks[0]), toks[1..]))
    case Ident(n) =>
      if n == NEW && |toks| > 1 && toks[1].Ident? then ParseNew(toks[1].name, toks[2..])
      else if |toks| == 1 || !toks[1].LParen? then Some((Name(n), toks[1..]))
      else
      var args := ParseArgs(toks[2..]);
      if args.None? then None else Some((Apply(n, args.value.0), args.value.1))
    case Path(_, _) =>
      if !GoodPath(toks[0]) then None
      else if |toks| == 1 || !toks[1].LParen? then Some((PathName(toks[0]), toks[1..]))
      else
      var args := ParseArgs(toks[2..]);
      if args.None? then None else Some((Variant(toks[0], args.value.0), args.value.1))
    case LParen =>
      var inner := ParseExpr(toks[1..], 0);
      if inner.None? || inner.value.1 == [] || !inner.value.1[0].RParen? then None
      else Some((Group(inner.value.0), inner.value.1[1..]))
    case TryT => var sub := ParsePrimary(toks[1..]); if sub.None? then None else Some((Try(sub.value.0), sub.value.1))
    case NotT => var sub := ParsePrimary(toks[1..]); if sub.None? then None else Some((Not(sub.value.0), sub.value.1))
    case Word(_) => None
    case RParen => None
    case Comma => None
    case Dot => None
    case OpT(_) => None
    case Other => None
  }

  function ParseNew(t: string, toks: Tokens): (r: Parsed)
    ensures r.Some? ==> |r.value.1| <= |toks|
    decreases |toks|, 5
  {
    if toks == [] || !toks[0].LParen? then Some((New(t, false, NoArgs), toks)) else
    var args := ParseArgs(toks[1..]);
    if args.None? then None else Some((New(t, true, args.value.0), args.value.1))
  }

  // Up to the closing parenthesis; the commas are optional.
  function ParseArgs(toks: Tokens): (r: Option<(Args, Tokens)>)
    ensures r.Some? ==> |r.value.1| < |toks|
    decreases |toks|, 4
  {
    if toks == [] then None
    else if toks[0].RParen? then Some((NoArgs, toks[1..]))
    else
      var e := ParseExpr(toks, 0);
      if e.None? then None else
      var comma := e.value.1 != [] && e.value.1[0].Comma?;
      var rest := ParseArgs(if comma then e.value.1[1..] else e.value.1);
      if rest.None? then None else Some((Arg(e.value.0, comma, rest.value.0), rest.value.1))
  }
}
