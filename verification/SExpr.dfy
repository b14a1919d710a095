/**
S-expressions: the printer and the parser of expressions, on tokens. A word is a token whose type is
looked up by its text: an identifier or a keyword.
*/
module SExpr {
  import opened Wrappers

  datatype Op = Add | Sub | Mul | Div | Eq | Neq | Gt | Lt | Gte | Lte | And | Or

  datatype Word =
    | Plain(name: string)
    | TrueW | FalseW | CallW | TryW | RecvW | IfW | ThenW | ElseW
    | OpW(op: Op)
    | OtherW(name: string)

  // Bang is the token of '!', an operator that has no word: the word not is a plain identifier.
  datatype Token =
    | LParen | RParen
    | Int(raw: string, fits: bool)
    | Float(raw: string, fits: bool)
    | Str(text: string)
    | W(word: Word)
    | Bang
    | Path(base: Word, fields: seq<Word>)
    | Other

  type Tokens = seq<Token>

  datatype Operator = WordOp(op: Op) | NotOp

  datatype Expr =
    | IntLit(raw: string)
    | FloatLit(raw: string)
    | BoolLit(truth: bool)
    | StrLit(text: string)
    | Ident(name: Word)
    | Call(func: Word, args: seq<Expr>, hasCall: bool)
    | Try(sub: Expr)
    | Binary(operator: Operator, left: Expr, right: Expr)
    | Recv(channel: Expr)
    | If(cond: Expr, then_: Expr, else_: Option<Expr>)

  const FIELD := Plain("field")

  predicate IsBool(w: Word) { w.TrueW? || w.FalseW? }

  // A token that can name a field: an identifier or a keyword, but true and false.
  predicate IsName(t: Token) { t.W? && !IsBool(t.word) }

  // ----- The printer -----

  // A field access whose base is a variable or such an access prints with dots.
  function FieldPath(e: Expr): Option<(Word, seq<Word>)> {
    if !(e.Call? && e.func == FIELD && |e.args| == 2 && e.args[1].Ident? && !IsBool(e.args[1].name)) then None
    else if e.args[0].Ident? then Some((e.args[0].name, [e.args[1].name]))
    else if e.args[0].Call? then
      var inner := FieldPath(e.args[0]);
      if inner.None? then None else Some((inner.value.0, inner.value.1 + [e.args[1].name]))
    else None
  }

  // The tokens of the canonical text of the expression, followed by k.
  function Format(e: Expr, k: Tokens): Tokens
    decreases e, 1
  {
    match e
    case IntLit(raw) => [Int(raw, true)] + k
    case FloatLit(raw) => [Float(raw, true)] + k
    case BoolLit(b) => [W(if b then TrueW else FalseW)] + k
    case StrLit(s) => [Str(s)] + k
    case Ident(n) => [W(n)] + k
    case Call(f, args, hasCall) =>
      var path := FieldPath(e);
      if path.Some? then [Path(path.value.0, path.value.1)] + k
      else [LParen] + (if hasCall then [W(CallW)] else []) + [W(f)] + FormatArgs(e, 0, [RParen] + k)
    case Try(sub) => [LParen, W(TryW)] + Format(sub, [RParen] + k)
    case Binary(op, l, r) =>
      [LParen, W(if op.WordOp? then OpW(op.op) else Plain("not"))] + Format(l, Format(r, [RParen] + k))
    case Recv(c) => [LParen, W(RecvW)] + Format(c, [RParen] + k)
    case If(c, t, el) =>
      var tail := if el.Some? then [LParen, W(ElseW)] + Format(el.value, [RParen, RParen] + k) else [RParen] + k;
      [LParen, W(IfW)] + Format(c, [LParen, W(ThenW)] + Format(t, [RParen] + tail))
  }

  // The arguments of a call from the i-th on.
  function FormatArgs(call: Expr, i: nat, k: Tokens): Tokens
    requires call.Call? && i <= |call.args|
    decreases call, 0, |call.args| - i
  {
    if i == |call.args| then k else Format(call.args[i], FormatArgs(call, i + 1, k))
  }

  // ----- The parser -----

  // None is a syntax error, which stops the whole parse.
  type Parsed = Option<(Expr, Tokens)>

  function Expect(t: Token, r: Parsed): Parsed {
    if r.Some? && r.value.1 != [] && r.value.1[0] == t then Some((r.value.0, r.value.1[1..])) else None
  }

  function Parse(toks: Tokens): (r: Parsed)
    ensures r.Some? ==> |r.value.1| < |toks|
    decreases |toks|, 1
  {
    if toks == [] then None else
    var rest := toks[1..];
    match toks[0]
    case Int(raw, fits) => if fits then Some((IntLit(raw), rest)) else None
    case Float(raw, fits) => if fits then Some((FloatLit(raw), rest)) else None
    case Str(s) => Some((StrLit(s), rest))
    case W(w) =>
      if IsBool(w) then Some((BoolLit(w.TrueW?), rest)) else if w.Plain? then Some((Ident(w), rest)) else None
    case Path(base, fields) =>
      if base.Plain? && forall i :: 0 <= i < |fields| ==> !IsBool(fields[i]) then Some((PathExpr(base, fields), rest)) else None
    case LParen => ParseCompound(rest)
    case RParen => None
    case Bang => None
    case Other => None
  }

  // a.b.c is (field (field a b) c).
  function PathExpr(base: Word, fields: seq<Word>): Expr
    decreases |fields|
  {
    if fields == [] then Ident(base)
    else Call(FIELD, [PathExpr(base, fields[..|fields| - 1]), Ident(fields[|fields| - 1])], false)
  }

  predicate IsOperator(t: Token) { t.Bang? || (t.W? && t.word.OpW?) }

  function ParseCompound(toks: Tokens): (r: Parsed)
    ensures r.Some? ==> |r.value.1| < |toks|
    decreases |toks|, 2
  {
    if toks == [] then None
    else if IsOperator(toks[0]) then ParseOperation(if toks[0].Bang? then NotOp else WordOp(toks[0].word.op), toks[1..])
    else if !toks[0].W? then None
    else
      match toks[0].word
      case CallW =>
        if |toks| > 1 && toks[1].W? && toks[1].word.Plain? then ParseCall(toks[1].word, toks[2..], true) else None
      case TryW =>
        var sub := Expect(RParen, Parse(toks[1..]));
        if sub.None? then None else Some((Try(sub.value.0), sub.value.1))
      case RecvW =>
        var sub := Expect(RParen, Parse(toks[1..]));
        if sub.None? then None else Some((Recv(sub.value.0), sub.value.1))
      case IfW => ParseIf(toks[1..])
      case Plain(_) => ParseCall(toks[0].word, toks[1..], false)
      case TrueW => None
      case FalseW => None
      case ThenW => None
      case ElseW => None
      case OpW(_) => None
      case OtherW(_) => None
  }

  function ParseCall(f: Word, toks: Tokens, hasCall: bool): (r: Parsed)
    ensures r.Some? ==> |r.value.1| < |toks|
    decreases |toks|, 4
  {
    var args := ParseArgs(f == FIELD, 0, toks);
    if args.None? || args.value.1 == [] then None else Some((Call(f, args.value.0, hasCall), args.value.1[1..]))
  }

  // Up to the closing parenthesis. The second argument of field is a name, keyword or not.
  function ParseArgs(field: bool, count: nat, toks: Tokens): (r: Option<(seq<Expr>, Tokens)>)
    ensures r.Some? ==> |r.value.1| <= |toks| && (r.value.1 != [] ==> r.value.1[0].RParen?)
    decreases |toks|, 3
  {
    if toks == [] || toks[0].RParen? then Some(([], toks)) else
    var arg := if field && count == 1 && IsName(toks[0]) then Some((Ident(toks[0].word), toks[1..])) else Parse(toks);
    if arg.None? then None else
    var more := ParseArgs(field, count + 1, arg.value.1);
    if more.None? then None else Some(([arg.value.0] + more.value.0, more.value.1))
  }

  function ParseOperation(op: Operator, toks: Tokens): (r: Parsed)
    ensures r.Some? ==> |r.value.1| < |toks|
    decreases |toks|, 4
  {
    var l := Parse(toks);
    if l.None? then None else
    var r := Parse(l.value.1);
    if r.None? then None else
    Expect(RParen, ParseMore(op, Binary(op, l.value.0, r.value.0), r.value.1))
  }

  predicate Chains(op: Operator) { op == WordOp(Add) || op == WordOp(Mul) || op == WordOp(And) || op == WordOp(Or) }

  // Further operands of add, mul, and, or nest to the left.
  function ParseMore(op: Operator, cur: Expr, toks: Tokens): (r: Parsed)
    ensures r.Some? ==> |r.value.1| <= |toks|
    decreases |toks|, 3
  {
    if !Chains(op) || toks == [] || toks[0].RParen? then Some((cur, toks)) else
    var next := Parse(toks);
    if next.None? then None else ParseMore(op, Binary(op, cur, next.value.0), next.value.1)
  }

  function ParseIf(toks: Tokens): (r: Parsed)
    ensures r.Some? ==> |r.value.1| < |toks|
    decreases |toks|, 4
  {
    var c := Parse(toks);
    if c.None? || |c.value.1| < 2 || !c.value.1[0].LParen? || c.value.1[1] != W(ThenW) then None else
    var t := Expect(RParen, Parse(c.value.1[2..]));
    if t.None? then None
    else
      var other := ParseElse(t.value.1);
      if other.None? then None else Some((If(c.value.0, t.value.0, other.value.0), other.value.1))
  }

  // The else part, if there is one, and the end of the if.
  function ParseElse(toks: Tokens): (r: Option<(Option<Expr>, Tokens)>)
    ensures r.Some? ==> |r.value.1| < |toks|
    decreases |toks|, 4
  {
    if |toks| >= 2 && toks[0].LParen? && toks[1] == W(ElseW) then
      var e := Expect(RParen, Expect(RParen, Parse(toks[2..])));
      if e.None? then None else Some((Some(e.value.0), e.value.1))
    else if toks != [] && toks[0].RParen? then Some((None, toks[1..]))
    else None
  }
}
