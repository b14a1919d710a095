/**
What a text says, word by word, is what its expression says: the printer and the parser keep the words, the
operands and their order. And how an operation on many operands nests.
*/
module SExprText {
  import opened Wrappers
  import opened SExpr
  import opened SExprRoundTrip

  // ----- What is said, in order -----

  datatype Saying = Said(word: Word) | Number(raw: string) | Decimal(raw: string) | Text(text: string)

  type Speech = seq<Saying>

  // A word, and then k. The words call and field, which the printer leaves out or supplies, are not said, and
  // the operators only if ops says so.
  function Say(w: Word, ops: bool, k: Speech): Speech {
    if w.CallW? || w == FIELD || (w.OpW? && !ops) then k else [Said(w)] + k
  }

  function SayAll(ws: seq<Word>, ops: bool, k: Speech): Speech {
    if ws == [] then k else Say(ws[0], ops, SayAll(ws[1..], ops, k))
  }

  function SayOp(op: Operator, ops: bool, k: Speech): Speech {
    if op.WordOp? then Say(OpW(op.op), ops, k) else if ops then Say(Plain("not"), ops, k) else k
  }

  function Speak(t: Token, ops: bool, k: Speech): Speech {
    match t
    case Int(raw, _) => [Number(raw)] + k
    case Float(raw, _) => [Decimal(raw)] + k
    case Str(text) => [Text(text)] + k
    case W(w) => Say(w, ops, k)
    case Bang => SayOp(NotOp, ops, k)
    case Path(base, fields) => Say(base, ops, SayAll(fields, ops, k))
    case LParen => k
    case RParen => k
    case Other => k
  }

  // Every word and literal of the tokens, without parentheses.
  function Spoken(toks: Tokens, ops: bool): Speech {
    if toks == [] then [] else Speak(toks[0], ops, Spoken(toks[1..], ops))
  }

  // The words and literals of an expression, an operator before its operands; and then k.
  function Prefix(e: Expr, ops: bool, k: Speech): Speech
    decreases e
  {
    match e
    case IntLit(raw) => [Number(raw)] + k
    case FloatLit(raw) => [Decimal(raw)] + k
    case BoolLit(b) => Say(if b then TrueW else FalseW, ops, k)
    case StrLit(text) => [Text(text)] + k
    case Ident(n) => Say(n, ops, k)
    case Call(f, args, _) => Say(f, ops, PrefixAll(args, ops, k))
    case Try(sub) => Say(TryW, ops, Prefix(sub, ops, k))
    case Binary(op, l, r) => SayOp(op, ops, Prefix(l, ops, Prefix(r, ops, k)))
    case Recv(c) => Say(RecvW, ops, Prefix(c, ops, k))
    case If(c, t, el) =>
      var other := if el.Some? then Say(ElseW, ops, Prefix(el.value, ops, k)) else k;
      Say(IfW, ops, Prefix(c, ops, Say(ThenW, ops, Prefix(t, ops, other))))
  }

  function PrefixAll(es: seq<Expr>, ops: bool, k: Speech): Speech
    decreases es
  {
    if es == [] then k else Prefix(es[0], ops, PrefixAll(es[1..], ops, k))
  }

  lemma {:induction false} SpokenCons(t: Token, k: Tokens, ops: bool)
    ensures Spoken([t] + k, ops) == Speak(t, ops, Spoken(k, ops))
  {
    assert ([t] + k)[1..] == k;
  }

  lemma {:induction false} SpokenTwo(t: Token, u: Token, k: Tokens, ops: bool)
    ensures Spoken([t, u] + k, ops) == Speak(t, ops, Speak(u, ops, Spoken(k, ops)))
  {
    assert [t, u] + k == [t] + ([u] + k);
    SpokenCons(t, [u] + k, ops);
    SpokenCons(u, k, ops);
  }

  lemma {:induction false} PrefixCons(e: Expr, es: seq<Expr>, ops: bool, k: Speech)
    ensures PrefixAll([e] + es, ops, k) == Prefix(e, ops, PrefixAll(es, ops, k))
  {
    assert ([e] + es)[1..] == es;
  }

  lemma {:induction false} SaySnoc(ws: seq<Word>, w: Word, ops: bool, k: Speech)
    ensures SayAll(ws + [w], ops, k) == SayAll(ws, ops, Say(w, ops, k))
    decreases |ws|
  {
    var all := ws + [w];
    if ws == [] {
      assert all == [w] && all[1..] == [];
    } else {
      assert all[1..] == ws[1..] + [w];
      SaySnoc(ws[1..], w, ops, k);
    }
  }

  lemma {:induction false} TwoPrefix(a: Expr, name: Word, ops: bool, k: Speech)
    ensures PrefixAll([a, Ident(name)], ops, k) == Prefix(a, ops, Say(name, ops, k))
  {
    assert [a, Ident(name)] == [a] + [Ident(name)] && [Ident(name)] == [Ident(name)] + [];
    PrefixCons(a, [Ident(name)], ops, k);
    PrefixCons(Ident(name), [], ops, k);
  }

  // ----- The printer -----

  lemma {:induction false} PathInOrder(e: Expr, ops: bool, k: Speech)
    requires FieldPath(e).Some?
    ensures var (base, fields) := FieldPath(e).value; Prefix(e, ops, k) == Say(base, ops, SayAll(fields, ops, k))
    decreases e
  {
    var (a, name) := (e.args[0], e.args[1].name);
    assert e.args == [a, Ident(name)];
    TwoPrefix(a, name, ops, k);
    if a.Call? {
      PathInOrder(a, ops, Say(name, ops, k));
      SaySnoc(FieldPath(a).value.1, name, ops, k);
    } else {
      assert SayAll([name], ops, k) == Say(name, ops, k);
    }
  }

  // What is printed says what the expression says, operators included.
  lemma {:induction false} FormatInOrder(e: Expr, k: Tokens)
    ensures Spoken(Format(e, k), true) == Prefix(e, true, Spoken(k, true))
    decreases e, 1
  {
    match e
    case IntLit(raw) => SpokenCons(Int(raw, true), k, true);
    case FloatLit(raw) => SpokenCons(Float(raw, true), k, true);
    case BoolLit(b) => SpokenCons(W(if b then TrueW else FalseW), k, true);
    case StrLit(text) => SpokenCons(Str(text), k, true);
    case Ident(n) => SpokenCons(W(n), k, true);
    case Call(_, _, _) => CallInOrder(e, k);
    case Try(sub) => OneInOrder(TryW, sub, k);
    case Binary(op, l, r) =>
      var rest := [RParen] + k;
      SpokenCons(RParen, k, true);
      FormatInOrder(r, rest);
      FormatInOrder(l, Format(r, rest));
      SpokenTwo(LParen, W(if op.WordOp? then OpW(op.op) else Plain("not")), Format(l, Format(r, rest)), true);
    case Recv(c) => OneInOrder(RecvW, c, k);
    case If(_, _, _) => IfInOrder(e, k);
  }

  lemma {:induction false} OneInOrder(w: Word, sub: Expr, k: Tokens)
    ensures Spoken([LParen, W(w)] + Format(sub, [RParen] + k), true) == Say(w, true, Prefix(sub, true, Spoken(k, true)))
    decreases sub, 2
  {
    SpokenCons(RParen, k, true);
    FormatInOrder(sub, [RParen] + k);
    SpokenTwo(LParen, W(w), Format(sub, [RParen] + k), true);
  }

  lemma {:induction false} CallInOrder(e: Expr, k: Tokens)
    requires e.Call?
    ensures Spoken(Format(e, k), true) == Prefix(e, true, Spoken(k, true))
    decreases e, 0
  {
    var path := FieldPath(e);
    if path.Some? {
      PathInOrder(e, true, Spoken(k, true));
      SpokenCons(Path(path.value.0, path.value.1), k, true);
    } else {
      var args := FormatArgs(e, 0, [RParen] + k);
      SpokenCons(RParen, k, true);
      ArgsInOrder(e, 0, [RParen] + k);
      assert e.args[0..] == e.args;
      HeadInOrder(e.hasCall, e.func, args);
    }
  }

  lemma {:induction false} HeadInOrder(hasCall: bool, f: Word, args: Tokens)
    ensures Spoken([LParen] + (if hasCall then [W(CallW)] else []) + [W(f)] + args, true) == Say(f, true, Spoken(args, true))
  {
    if hasCall {
      SpokenTwo(W(CallW), W(f), args, true);
      SpokenCons(LParen, [W(CallW), W(f)] + args, true);
      assert [LParen] + [W(CallW)] + [W(f)] + args == [LParen] + ([W(CallW), W(f)] + args);
    } else {
      SpokenTwo(LParen, W(f), args, true);
      assert [LParen] + [] + [W(f)] + args == [LParen, W(f)] + args;
    }
  }

  lemma {:induction false} ArgsInOrder(call: Expr, i: nat, k: Tokens)
    requires call.Call? && i <= |call.args|
    ensures Spoken(FormatArgs(call, i, k), true) == PrefixAll(call.args[i..], true, Spoken(k, true))
    decreases call, 0, |call.args| - i
  {
    if i < |call.args| {
      assert call.args[i] < call;
      ArgsInOrder(call, i + 1, k);
      FormatInOrder(call.args[i], FormatArgs(call, i + 1, k));
    }
  }

  lemma {:induction false} IfInOrder(e: Expr, k: Tokens)
    requires e.If?
    ensures Spoken(Format(e, k), true) == Prefix(e, true, Spoken(k, true))
    decreases e, 0
  {
    var tail := Tail(e.else_, k);
    var then_ := Format(e.then_, [RParen] + tail);
    var cond := Format(e.cond, [LParen, W(ThenW)] + then_);
    if e.else_.Some? { ElseInOrder(e.else_.value, k); } else { SpokenCons(RParen, k, true); }
    SpokenCons(RParen, tail, true);
    FormatInOrder(e.then_, [RParen] + tail);
    SpokenTwo(LParen, W(ThenW), then_, true);
    FormatInOrder(e.cond, [LParen, W(ThenW)] + then_);
    SpokenTwo(LParen, W(IfW), cond, true);
  }

  lemma {:induction false} ElseInOrder(el: Expr, k: Tokens)
    ensures Spoken([LParen, W(ElseW)] + Format(el, [RParen, RParen] + k), true) == Say(ElseW, true, Prefix(el, true, Spoken(k, true)))
    decreases el, 2
  {
    SpokenTwo(RParen, RParen, k, true);
    FormatInOrder(el, [RParen, RParen] + k);
    SpokenTwo(LParen, W(ElseW), Format(el, [RParen, RParen] + k), true);
  }

  // ----- The parser -----

  lemma {:induction false} PathExprInOrder(base: Word, fields: seq<Word>, k: Speech)
    ensures Prefix(PathExpr(base, fields), false, k) == Say(base, false, SayAll(fields, false, k))
    decreases |fields|
  {
    if fields != [] {
      var n := |fields| - 1;
      PathExprInOrder(base, fields[..n], Say(fields[n], false, k));
      TwoPrefix(PathExpr(base, fields[..n]), fields[n], false, k);
      SaySnoc(fields[..n], fields[n], false, k);
      assert fields[..n] + [fields[n]] == fields;
    }
  }

  // What is parsed says what its tokens say, whatever their form; the operator of a chain is said once in the
  // text and once for each operation in the expression, so the operators are left out.
  lemma {:induction false} ParseInOrder(toks: Tokens)
    requires Parse(toks).Some?
    ensures var (e, rest) := Parse(toks).value; Spoken(toks, false) == Prefix(e, false, Spoken(rest, false))
    decreases |toks|, 1
  {
    match toks[0]
    case Int(_, _) =>
    case Float(_, _) =>
    case Str(_) =>
    case W(_) =>
    case Path(base, fields) => PathExprInOrder(base, fields, Spoken(toks[1..], false));
    case LParen => CompoundInOrder(toks[1..]);
  }

  lemma {:induction false} CompoundInOrder(toks: Tokens)
    requires ParseCompound(toks).Some?
    ensures var (e, rest) := ParseCompound(toks).value; Spoken(toks, false) == Prefix(e, false, Spoken(rest, false))
    decreases |toks|, 2
  {
    if IsOperator(toks[0]) {
      OperationInOrder(if toks[0].Bang? then NotOp else WordOp(toks[0].word.op), toks[1..]);
    } else {
      match toks[0].word
      case CallW => CallReadInOrder(toks[1].word, toks[2..], true);
      case TryW => ClosedInOrder(toks[1..]);
      case RecvW => ClosedInOrder(toks[1..]);
      case IfW => IfReadInOrder(toks[1..]);
      case Plain(_) => CallReadInOrder(toks[0].word, toks[1..], false);
    }
  }

  lemma {:induction false} ClosedInOrder(toks: Tokens)
    requires Expect(RParen, Parse(toks)).Some?
    ensures var (e, rest) := Expect(RParen, Parse(toks)).value; Spoken(toks, false) == Prefix(e, false, Spoken(rest, false))
    decreases |toks|, 5
  {
    ParseInOrder(toks);
  }

  lemma {:induction false} CallReadInOrder(f: Word, toks: Tokens, hasCall: bool)
    requires ParseCall(f, toks, hasCall).Some?
    ensures var (e, rest) := ParseCall(f, toks, hasCall).value; Say(f, false, Spoken(toks, false)) == Prefix(e, false, Spoken(rest, false))
    decreases |toks|, 4
  {
    ArgsReadInOrder(f == FIELD, 0, toks);
  }

  lemma {:induction false} ArgsReadInOrder(field: bool, count: nat, toks: Tokens)
    requires ParseArgs(field, count, toks).Some?
    ensures var (args, rest) := ParseArgs(field, count, toks).value; Spoken(toks, false) == PrefixAll(args, false, Spoken(rest, false))
    decreases |toks|, 3
  {
    if toks != [] && !toks[0].RParen? {
      var (arg, rest) := FirstArg(field && count == 1, toks).value;
      FirstArgInOrder(field && count == 1, toks);
      ArgsReadInOrder(field, count + 1, rest);
      var more := ParseArgs(field, count + 1, rest).value;
      PrefixCons(arg, more.0, false, Spoken(more.1, false));
    }
  }

  function FirstArg(name: bool, toks: Tokens): Parsed
    requires toks != []
  {
    if name && IsName(toks[0]) then Some((Ident(toks[0].word), toks[1..])) else Parse(toks)
  }

  lemma {:induction false} FirstArgInOrder(name: bool, toks: Tokens)
    requires toks != [] && FirstArg(name, toks).Some?
    ensures var (e, rest) := FirstArg(name, toks).value; Spoken(toks, false) == Prefix(e, false, Spoken(rest, false))
    decreases |toks|, 2
  {
    if !(name && IsName(toks[0])) { ParseInOrder(toks); }
  }

  lemma {:induction false} OperationInOrder(op: Operator, toks: Tokens)
    requires ParseOperation(op, toks).Some?
    ensures var (e, rest) := ParseOperation(op, toks).value; Spoken(toks, false) == Prefix(e, false, Spoken(rest, false))
    decreases |toks|, 4
  {
    var l := Parse(toks).value;
    var r := Parse(l.1).value;
    ParseInOrder(toks);
    ParseInOrder(l.1);
    MoreInOrder(op, Binary(op, l.0, r.0), r.1);
  }

  lemma {:induction false} MoreInOrder(op: Operator, cur: Expr, toks: Tokens)
    requires ParseMore(op, cur, toks).Some?
    ensures var (e, rest) := ParseMore(op, cur, toks).value; Prefix(cur, false, Spoken(toks, false)) == Prefix(e, false, Spoken(rest, false))
    decreases |toks|, 3
  {
    if Chains(op) && toks != [] && !toks[0].RParen? {
      var (next, rest) := Parse(toks).value;
      ParseInOrder(toks);
      MoreInOrder(op, Binary(op, cur, next), rest);
    }
  }

  lemma {:induction false} IfReadInOrder(toks: Tokens)
    requires ParseIf(toks).Some?
    ensures var (e, rest) := ParseIf(toks).value; Say(IfW, false, Spoken(toks, false)) == Prefix(e, false, Spoken(rest, false))
    decreases |toks|, 4
  {
    var c := Parse(toks).value;
    var t := Expect(RParen, Parse(c.1[2..])).value;
    ParseInOrder(toks);
    assert c.1 == [LParen, W(ThenW)] + c.1[2..];
    SpokenTwo(LParen, W(ThenW), c.1[2..], false);
    ClosedInOrder(c.1[2..]);
    ElseReadInOrder(t.1);
  }

  lemma {:induction false} ElseReadInOrder(toks: Tokens)
    requires ParseElse(toks).Some?
    ensures var (el, rest) := ParseElse(toks).value;
            Spoken(toks, false) == if el.Some? then Say(ElseW, false, Prefix(el.value, false, Spoken(rest, false))) else Spoken(rest, false)
    decreases |toks|, 4
  {
    if |toks| >= 2 && toks[0].LParen? && toks[1] == W(ElseW) {
      assert toks == [LParen, W(ElseW)] + toks[2..];
      SpokenTwo(LParen, W(ElseW), toks[2..], false);
      ClosedInOrder(toks[2..]);
    }
  }

  // ----- Chains -----

  // Operations one after the other, the earlier one as the left operand of the later.
  function Nested(op: Operator, first: Expr, more: seq<Expr>): Expr
    decreases |more|
  {
    if more == [] then first else Binary(op, Nested(op, first, more[..|more| - 1]), more[|more| - 1])
  }

  function Each(es: seq<Expr>, k: Tokens): Tokens { if es == [] then k else Format(es[0], Each(es[1..], k)) }

  predicate Plainly(es: seq<Expr>) { forall i :: 0 <= i < |es| ==> Named(es[i]) && Canonical(es[i]) }

  lemma {:induction false} NestedCons(op: Operator, first: Expr, e: Expr, more: seq<Expr>)
    ensures Nested(op, first, [e] + more) == Nested(op, Binary(op, first, e), more)
    decreases |more|
  {
    var all, n := [e] + more, |more|;
    if more == [] {
      assert all == [e] && all[..n] == [];
    } else {
      assert all[..n] == [e] + more[..n - 1] && all[n] == more[n - 1];
      NestedCons(op, first, e, more[..n - 1]);
    }
  }

  lemma {:induction false} CanonicalRead(e: Expr, k: Tokens)
    requires Named(e) && Canonical(e)
    ensures Parse(Format(e, k)) == Some((e, k)) && Format(e, k) != [] && !Format(e, k)[0].RParen?
  {
    ParseFormat(e, k);
    RereadSame(e);
    FirstOf(e, k);
  }

  lemma {:induction false} MoreRead(op: Operator, cur: Expr, more: seq<Expr>, k: Tokens)
    requires Plainly(more) && (Chains(op) || more == [])
    ensures ParseMore(op, cur, Each(more, [RParen] + k)) == Some((Nested(op, cur, more), [RParen] + k))
    decreases |more|
  {
    if more != [] {
      CanonicalRead(more[0], Each(more[1..], [RParen] + k));
      MoreRead(op, Binary(op, cur, more[0]), more[1..], k);
      NestedCons(op, cur, more[0], more[1..]);
      assert [more[0]] + more[1..] == more;
    }
  }

  lemma {:induction false} OperationRead(op: Op, left: Tokens, right: Tokens, after: Tokens, l: Expr, r: Expr)
    requires Parse(left) == Some((l, right)) && Parse(right) == Some((r, after))
    ensures Parse([LParen, W(OpW(op))] + left) == Expect(RParen, ParseMore(WordOp(op), Binary(WordOp(op), l, r), after))
  {
    Opened([LParen, W(OpW(op))] + left, OpW(op), left);
    assert ([W(OpW(op))] + left)[1..] == left;
    assert ParseOperation(WordOp(op), left) == Expect(RParen, ParseMore(WordOp(op), Binary(WordOp(op), l, r), after));
  }

  // Behind the second operand of an operation.
  lemma {:induction false} ThirdRead(op: Op, cur: Expr, more: seq<Expr>, k: Tokens)
    requires Plainly(more)
    ensures Expect(RParen, ParseMore(WordOp(op), cur, Each(more, [RParen] + k))) ==
            if more == [] || op in {Add, Mul, And, Or} then Some((Nested(WordOp(op), cur, more), k)) else None
  {
    assert ([RParen] + k)[1..] == k;
    if more == [] || op in {Add, Mul, And, Or} {
      MoreRead(WordOp(op), cur, more, k);
    } else {
      CanonicalRead(more[0], Each(more[1..], [RParen] + k));
    }
  }

  // An operation on two operands or more: add, mul, and, or nest to the left; any other operation takes two
  // operands, and three or more are an error.
  lemma {:induction false} ChainNests(op: Op, first: Expr, second: Expr, more: seq<Expr>, k: Tokens)
    requires Plainly([first, second]) && Plainly(more)
    ensures Parse([LParen, W(OpW(op))] + Format(first, Format(second, Each(more, [RParen] + k)))) ==
            if more == [] || op in {Add, Mul, And, Or} then Some((Nested(WordOp(op), first, [second] + more), k)) else None
  {
    var after := Each(more, [RParen] + k);
    assert Plainly([first, second]) ==> Named([first, second][0]) && Named([first, second][1]);
    CanonicalRead(second, after);
    CanonicalRead(first, Format(second, after));
    OperationRead(op, Format(first, Format(second, after)), Format(second, after), after, first, second);
    ThirdRead(op, Binary(WordOp(op), first, second), more, k);
    NestedCons(WordOp(op), first, second, more);
  }
}
