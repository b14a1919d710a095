/**
Printing an expression and parsing the tokens gives the expression back, but for a redundant call on a
field access and for the operator '!', and printing what was parsed gives the same tokens again.
*/
module SExprRoundTrip {
  import opened Wrappers
  import opened SExpr

  // ----- The expressions the parser makes -----

  // Variables and functions have names that are not keywords; the second argument of field may be one.
  predicate Named(e: Expr)
    decreases e, 1
  {
    match e
    case IntLit(_) => true
    case FloatLit(_) => true
    case BoolLit(_) => true
    case StrLit(_) => true
    case Ident(n) => n.Plain?
    case Call(f, args, _) => f.Plain? && NamedArgs(e, 0)
    case Try(s) => Named(s)
    case Binary(_, l, r) => Named(l) && Named(r)
    case Recv(c) => Named(c)
    case If(c, t, el) => Named(c) && Named(t) && (el.Some? ==> Named(el.value))
  }

  predicate FieldName(f: Word, i: nat, arg: Expr) { f == FIELD && i == 1 && arg.Ident? && !IsBool(arg.name) }

  predicate NamedArgs(call: Expr, i: nat)
    requires call.Call? && i <= |call.args|
    decreases call, 0, |call.args| - i
  {
    i < |call.args| ==> (FieldName(call.func, i, call.args[i]) || Named(call.args[i])) && NamedArgs(call, i + 1)
  }

  // What is read back: a field access loses its call, and '!' with two operands becomes a call of not.
  function Reread(e: Expr): Expr
    decreases e, 1
  {
    match e
    case IntLit(_) => e
    case FloatLit(_) => e
    case BoolLit(_) => e
    case StrLit(_) => e
    case Ident(_) => e
    case Call(f, args, hasCall) =>
      var path := FieldPath(e);
      if path.Some? then PathExpr(path.value.0, path.value.1) else Call(f, RereadArgs(e, 0), hasCall)
    case Try(s) => Try(Reread(s))
    case Binary(op, l, r) =>
      if op.NotOp? then Call(Plain("not"), [Reread(l), Reread(r)], false) else Binary(op, Reread(l), Reread(r))
    case Recv(c) => Recv(Reread(c))
    case If(c, t, el) => If(Reread(c), Reread(t), if el.Some? then Some(Reread(el.value)) else None)
  }

  function RereadArgs(call: Expr, i: nat): (r: seq<Expr>)
    requires call.Call? && i <= |call.args|
    ensures |r| == |call.args| - i
    decreases call, 0, |call.args| - i
  {
    if i == |call.args| then [] else [Reread(call.args[i])] + RereadArgs(call, i + 1)
  }

  // ----- Field paths -----

  lemma {:induction false} PathNamed(e: Expr)
    requires Named(e) && FieldPath(e).Some?
    ensures var (b, fs) := FieldPath(e).value; b.Plain? && fs != [] && forall i :: 0 <= i < |fs| ==> !IsBool(fs[i])
    decreases e
  {
    assert NamedArgs(e, 0) && e.args[0] < e;
    assert Named(e.args[0]);
    if e.args[0].Call? { PathNamed(e.args[0]); }
  }

  lemma {:induction false} PathOfPath(b: Word, fs: seq<Word>)
    requires fs != [] && forall i :: 0 <= i < |fs| ==> !IsBool(fs[i])
    ensures FieldPath(PathExpr(b, fs)) == Some((b, fs))
    decreases |fs|
  {
    var n := |fs| - 1;
    var e, inner := PathExpr(b, fs), PathExpr(b, fs[..n]);
    assert fs == fs[..n] + [fs[n]];
    assert e.args == [inner, Ident(fs[n])];
    if n > 0 {
      PathOfPath(b, fs[..n]);
      assert inner.Call?;
      assert FieldPath(e) == Some((b, fs[..n] + [fs[n]]));
    } else {
      assert fs[..n] == [] && inner == Ident(b);
      assert FieldPath(e) == Some((b, [fs[n]]));
      assert fs == [fs[n]];
    }
  }

  lemma {:induction false} RereadPath(e: Expr)
    ensures FieldPath(Reread(e)) == FieldPath(e) && (Reread(e).Ident? <==> e.Ident?)
    decreases e
  {
    if e.Call? {
      var path := FieldPath(e);
      if path.Some? {
        PathFields(e);
        PathOfPath(path.value.0, path.value.1);
      } else if |e.args| == 2 {
        assert RereadArgs(e, 0) == [Reread(e.args[0]), Reread(e.args[1])] by {
          assert RereadArgs(e, 1) == [Reread(e.args[1])] + RereadArgs(e, 2);
        }
        assert e.args[0] < e && e.args[1] < e;
        RereadPath(e.args[0]);
        RereadPath(e.args[1]);
        CallStaysCall(e.args[0]);
      }
    }
  }

  lemma {:induction false} CallStaysCall(e: Expr)
    ensures e.Call? ==> Reread(e).Call?
    ensures Reread(e).Call? && !e.Call? ==> FieldPath(Reread(e)).None?
  {
    if e.Call? && FieldPath(e).Some? { PathFields(e); }
  }

  lemma {:induction false} PathFields(e: Expr)
    requires FieldPath(e).Some?
    ensures FieldPath(e).value.1 != [] && forall i :: 0 <= i < |FieldPath(e).value.1| ==> !IsBool(FieldPath(e).value.1[i])
    decreases e
  {
    if e.args[0].Call? { assert e.args[0] < e; PathFields(e.args[0]); }
  }

  // ----- Parsing what is printed -----

  lemma {:induction false} ParseFormat(e: Expr, k: Tokens)
    requires Named(e)
    ensures Parse(Format(e, k)) == Some((Reread(e), k))
    decreases e, 2
  {
    match e
    case IntLit(_) =>
    case FloatLit(_) =>
    case BoolLit(_) =>
    case StrLit(_) =>
    case Ident(_) =>
    case Call(_, _, _) => if FieldPath(e).Some? { PathNamed(e); } else { ParseFormatCall(e, k); }
    case Try(s) =>
      ParseFormat(s, [RParen] + k);
      Opened(Format(e, k), TryW, Format(s, [RParen] + k));
      ParseOne(TryW, Format(s, [RParen] + k), Reread(s), k);
    case Binary(_, _, _) => ParseFormatBinary(e, k);
    case Recv(c) =>
      ParseFormat(c, [RParen] + k);
      Opened(Format(e, k), RecvW, Format(c, [RParen] + k));
      ParseOne(RecvW, Format(c, [RParen] + k), Reread(c), k);
    case If(_, _, _) => ParseFormatIf(e, k);
  }

  lemma {:induction false} ParseOne(w: Word, sub: Tokens, e: Expr, k: Tokens)
    requires (w.TryW? || w.RecvW?) && Parse(sub) == Some((e, [RParen] + k))
    ensures ParseCompound([W(w)] + sub) == Some((if w.TryW? then Try(e) else Recv(e), k))
  {
    assert ([W(w)] + sub)[1..] == sub && ([RParen] + k)[1..] == k;
  }

  lemma {:induction false} ParseFormatCall(e: Expr, k: Tokens)
    requires e.Call? && Named(e) && FieldPath(e).None?
    ensures Parse(Format(e, k)) == Some((Reread(e), k))
    decreases e, 1
  {
    var toks := Format(e, k);
    var args := FormatArgs(e, 0, [RParen] + k);
    ParseFormatArgs(e, 0, k);
    assert ([RParen] + k)[1..] == k;
    assert ParseCall(e.func, args, e.hasCall) == Some((Reread(e), k));
    if e.hasCall {
      assert toks == [LParen, W(CallW), W(e.func)] + args;
      assert toks[1..] == [W(CallW), W(e.func)] + args && toks[1..][2..] == args;
    } else {
      assert toks == [LParen, W(e.func)] + args;
      assert toks[1..] == [W(e.func)] + args && toks[1..][1..] == args;
    }
    assert ParseCompound(toks[1..]) == Some((Reread(e), k));
  }

  lemma {:induction false} ParseFormatArgs(call: Expr, i: nat, k: Tokens)
    requires call.Call? && i <= |call.args| && NamedArgs(call, i)
    ensures ParseArgs(call.func == FIELD, i, FormatArgs(call, i, [RParen] + k)) == Some((RereadArgs(call, i), [RParen] + k))
    decreases call, 0, |call.args| - i
  {
    if i < |call.args| {
      var arg, after := call.args[i], FormatArgs(call, i + 1, [RParen] + k);
      assert arg < call;
      ParseFormatArgs(call, i + 1, k);
      if FieldName(call.func, i, arg) {
        assert Format(arg, after) == [W(arg.name)] + after;
      } else {
        ParseFormat(arg, after);
        FirstOf(arg, after);
      }
    }
  }

  // What an expression starts with: only a variable starts with a name.
  lemma {:induction false} FirstOf(e: Expr, k: Tokens)
    ensures Format(e, k) != [] && !Format(e, k)[0].RParen? && (IsName(Format(e, k)[0]) ==> e.Ident?)
  {}

  lemma {:induction false} ParseFormatBinary(e: Expr, k: Tokens)
    requires e.Binary? && Named(e)
    ensures Parse(Format(e, k)) == Some((Reread(e), k))
    decreases e, 1
  {
    var rest := [RParen] + k;
    var right := Format(e.right, rest);
    var left := Format(e.left, right);
    ParseFormat(e.right, rest);
    ParseFormat(e.left, right);
    assert rest[1..] == k;
    if e.operator.WordOp? {
      Opened(Format(e, k), OpW(e.operator.op), left);
      ParseOp(e.operator.op, left, right, rest, Reread(e.left), Reread(e.right));
    } else {
      Opened(Format(e, k), Plain("not"), left);
      FirstOf(e.left, right);
      FirstOf(e.right, rest);
      ParseTwo(left, right, rest, Reread(e.left), Reread(e.right));
    }
  }

  lemma {:induction false} Opened(toks: Tokens, w: Word, more: Tokens)
    requires toks == [LParen, W(w)] + more
    ensures Parse(toks) == ParseCompound([W(w)] + more)
  {
    assert toks[1..] == [W(w)] + more;
  }

  lemma {:induction false} ParseOp(op: Op, left: Tokens, right: Tokens, rest: Tokens, l: Expr, r: Expr)
    requires Parse(left) == Some((l, right)) && Parse(right) == Some((r, rest)) && rest != [] && rest[0].RParen?
    ensures ParseCompound([W(OpW(op))] + left) == Some((Binary(WordOp(op), l, r), rest[1..]))
  {
    var toks := [W(OpW(op))] + left;
    assert toks[1..] == left && IsOperator(toks[0]);
    assert ParseMore(WordOp(op), Binary(WordOp(op), l, r), rest) == Some((Binary(WordOp(op), l, r), rest));
    assert ParseOperation(WordOp(op), left) == Some((Binary(WordOp(op), l, r), rest[1..]));
  }

  lemma {:induction false} ParseTwo(left: Tokens, right: Tokens, rest: Tokens, l: Expr, r: Expr)
    requires Parse(left) == Some((l, right)) && Parse(right) == Some((r, rest)) && rest != [] && rest[0].RParen?
    requires left != [] && !left[0].RParen? && right != [] && !right[0].RParen?
    ensures ParseCompound([W(Plain("not"))] + left) == Some((Call(Plain("not"), [l, r], false), rest[1..]))
  {
    assert ([W(Plain("not"))] + left)[1..] == left;
    NotIsNoField();
    assert ParseArgs(false, 2, rest) == Some(([], rest));
    assert ParseArgs(false, 1, right) == Some(([r] + [], rest));
    assert ParseArgs(false, 0, left) == Some(([l] + ([r] + []), rest));
    assert [l] + ([r] + []) == [l, r];
  }

  // The tokens of the else part and of the end of an if.
  function Tail(el: Option<Expr>, k: Tokens): Tokens {
    if el.Some? then [LParen, W(ElseW)] + Format(el.value, [RParen, RParen] + k) else [RParen] + k
  }

  lemma {:induction false} ParseFormatIf(e: Expr, k: Tokens)
    requires e.If? && Named(e)
    ensures Parse(Format(e, k)) == Some((Reread(e), k))
    decreases e, 1
  {
    var tail := Tail(e.else_, k);
    var then_ := Format(e.then_, [RParen] + tail);
    var cond := Format(e.cond, [LParen, W(ThenW)] + then_);
    ParseFormat(e.cond, [LParen, W(ThenW)] + then_);
    ParseFormat(e.then_, [RParen] + tail);
    var el := if e.else_.Some? then Some(Reread(e.else_.value)) else None;
    if e.else_.Some? { ParseFormat(e.else_.value, [RParen, RParen] + k); }
    ParseTail(e.else_, k, el);
    ParseIfParts(cond, then_, tail, Reread(e.cond), Reread(e.then_), el, k);
    FormatIf(e, k, cond);
  }

  lemma {:induction false} FormatIf(e: Expr, k: Tokens, cond: Tokens)
    requires e.If? && cond == Format(e.cond, [LParen, W(ThenW)] + Format(e.then_, [RParen] + Tail(e.else_, k)))
    ensures Format(e, k) == [LParen, W(IfW)] + cond && Format(e, k)[1..] == [W(IfW)] + cond && ([W(IfW)] + cond)[1..] == cond
  {}

  lemma {:induction false} ParseTail(el: Option<Expr>, k: Tokens, back: Option<Expr>)
    requires el.Some? <==> back.Some?
    requires el.Some? ==> Parse(Format(el.value, [RParen, RParen] + k)) == Some((back.value, [RParen, RParen] + k))
    ensures ParseElse(Tail(el, k)) == Some((back, k))
  {
    if el.Some? {
      ParseElseOf(Format(el.value, [RParen, RParen] + k), k, back.value);
    } else {
      assert ([RParen] + k)[0] == RParen && ([RParen] + k)[1..] == k;
    }
  }

  lemma {:induction false} ParseElseOf(toks: Tokens, k: Tokens, e: Expr)
    requires Parse(toks) == Some((e, [RParen, RParen] + k))
    ensures ParseElse([LParen, W(ElseW)] + toks) == Some((Some(e), k))
  {
    assert ([LParen, W(ElseW)] + toks)[2..] == toks;
    assert ([RParen, RParen] + k)[1..] == [RParen] + k && ([RParen] + k)[1..] == k;
  }

  lemma {:induction false} ParseIfParts(cond: Tokens, then_: Tokens, tail: Tokens, c: Expr, t: Expr, el: Option<Expr>, k: Tokens)
    requires Parse(cond) == Some((c, [LParen, W(ThenW)] + then_)) && Parse(then_) == Some((t, [RParen] + tail))
    requires ParseElse(tail) == Some((el, k))
    ensures ParseIf(cond) == Some((If(c, t, el), k))
  {
    assert ([LParen, W(ThenW)] + then_)[2..] == then_ && ([RParen] + tail)[1..] == tail;
  }

  // ----- Printing what is parsed back -----

  // Formatting twice gives the same text as formatting once.
  lemma {:induction false} FormatAgain(e: Expr, k: Tokens)
    ensures Format(Reread(e), k) == Format(e, k)
    decreases e, 1
  {
    match e
    case IntLit(_) =>
    case FloatLit(_) =>
    case BoolLit(_) =>
    case StrLit(_) =>
    case Ident(_) =>
    case Call(f, args, hasCall) =>
      RereadPath(e);
      if FieldPath(e).Some? {
        PathFields(e);
        assert Reread(e).Call?;
      } else {
        FormatArgsAgain(e, Call(f, RereadArgs(e, 0), hasCall), 0, [RParen] + k);
      }
    case Try(s) => FormatAgain(s, [RParen] + k);
    case Binary(op, l, r) =>
      FormatAgain(r, [RParen] + k);
      FormatAgain(l, Format(r, [RParen] + k));
      if op.NotOp? { NotAgain(Reread(l), Reread(r), k); }
    case Recv(c) => FormatAgain(c, [RParen] + k);
    case If(c, t, el) =>
      var tail := if el.Some? then [LParen, W(ElseW)] + Format(el.value, [RParen, RParen] + k) else [RParen] + k;
      if el.Some? { FormatAgain(el.value, [RParen, RParen] + k); }
      FormatAgain(t, [RParen] + tail);
      FormatAgain(c, [LParen, W(ThenW)] + Format(t, [RParen] + tail));
  }

  lemma NotIsNoField()
    ensures Plain("not") != FIELD
  {
    assert |"not"| != |"field"|;
  }

  lemma {:induction false} TwoArgs(call: Expr, l: Expr, r: Expr, end: Tokens)
    requires call.Call? && call.args == [l, r]
    ensures FormatArgs(call, 0, end) == Format(l, Format(r, end))
  {
    assert FormatArgs(call, 2, end) == end;
    assert FormatArgs(call, 1, end) == Format(r, end);
  }

  lemma {:induction false} NotAgain(l: Expr, r: Expr, k: Tokens)
    ensures Format(Call(Plain("not"), [l, r], false), k) == [LParen, W(Plain("not"))] + Format(l, Format(r, [RParen] + k))
  {
    var call := Call(Plain("not"), [l, r], false);
    NotIsNoField();
    TwoArgs(call, l, r, [RParen] + k);
    assert FieldPath(call).None?;
    var body := FormatArgs(call, 0, [RParen] + k);
    assert [LParen] + [] + [W(Plain("not"))] + body == [LParen, W(Plain("not"))] + body;
  }

  lemma {:induction false} FormatArgsAgain(call: Expr, call': Expr, i: nat, k: Tokens)
    requires call.Call? && call'.Call? && |call'.args| == |call.args| && i <= |call.args|
    requires call'.args[i..] == RereadArgs(call, i)
    ensures FormatArgs(call', i, k) == FormatArgs(call, i, k)
    decreases call, 0, |call.args| - i
  {
    if i < |call.args| {
      assert call'.args[i] == call'.args[i..][0] == Reread(call.args[i]);
      assert call'.args[i + 1..] == call'.args[i..][1..];
      FormatArgsAgain(call, call', i + 1, k);
      assert call.args[i] < call;
      FormatAgain(call.args[i], FormatArgs(call, i + 1, k));
    }
  }

  // ----- Which expressions come back unchanged -----

  // No '!' with two operands, and no call on a field access.
  predicate Canonical(e: Expr)
    decreases e, 1
  {
    match e
    case IntLit(_) => true
    case FloatLit(_) => true
    case BoolLit(_) => true
    case StrLit(_) => true
    case Ident(_) => true
    case Call(_, _, hasCall) => (FieldPath(e).Some? ==> !hasCall) && CanonicalArgs(e, 0)
    case Try(s) => Canonical(s)
    case Binary(op, l, r) => op.WordOp? && Canonical(l) && Canonical(r)
    case Recv(c) => Canonical(c)
    case If(c, t, el) => Canonical(c) && Canonical(t) && (el.Some? ==> Canonical(el.value))
  }

  predicate CanonicalArgs(call: Expr, i: nat)
    requires call.Call? && i <= |call.args|
    decreases call, 0, |call.args| - i
  {
    i < |call.args| ==> Canonical(call.args[i]) && CanonicalArgs(call, i + 1)
  }

  // Exactly these are read back as they are.
  lemma {:induction false} RereadSame(e: Expr)
    ensures Reread(e) == e <==> Canonical(e)
    decreases e, 1
  {
    match e
    case IntLit(_) =>
    case FloatLit(_) =>
    case BoolLit(_) =>
    case StrLit(_) =>
    case Ident(_) =>
    case Call(_, args, _) => if FieldPath(e).Some? { RereadSamePath(e); } else { RereadSameArgs(e, 0); assert args[0..] == args; }
    case Try(s) => RereadSame(s);
    case Binary(_, l, r) => RereadSame(l); RereadSame(r);
    case Recv(c) => RereadSame(c);
    case If(c, t, el) => RereadSame(c); RereadSame(t); if el.Some? { RereadSame(el.value); }
  }

  lemma {:induction false} RereadSameArgs(call: Expr, i: nat)
    requires call.Call? && i <= |call.args|
    ensures RereadArgs(call, i) == call.args[i..] <==> CanonicalArgs(call, i)
    decreases call, 0, |call.args| - i
  {
    if i < |call.args| {
      var arg, rest := call.args[i], RereadArgs(call, i + 1);
      assert arg < call;
      RereadSame(arg);
      RereadSameArgs(call, i + 1);
      assert call.args[i..] == [arg] + call.args[i + 1..];
      assert ([Reread(arg)] + rest)[0] == Reread(arg) && ([Reread(arg)] + rest)[1..] == rest;
      assert ([arg] + call.args[i + 1..])[0] == arg && ([arg] + call.args[i + 1..])[1..] == call.args[i + 1..];
    }
  }

  lemma {:induction false} RereadSamePath(e: Expr)
    requires FieldPath(e).Some?
    ensures PathExpr(FieldPath(e).value.0, FieldPath(e).value.1) == e <==> Canonical(e)
    decreases e, 0
  {
    var (b, fs) := FieldPath(e).value;
    var n := |fs| - 1;
    var inner := e.args[0];
    assert inner < e;
    assert e.args == [inner, e.args[1]];
    assert CanonicalArgs(e, 2) && CanonicalArgs(e, 1) && (CanonicalArgs(e, 0) <==> Canonical(inner));
    if inner.Call? {
      RereadSamePath(inner);
      assert fs[..n] == FieldPath(inner).value.1;
    } else {
      assert fs[..n] == [];
    }
    assert PathExpr(b, fs).args == [PathExpr(b, fs[..n]), Ident(fs[n])];
  }

  // ----- Everything that parses -----

  lemma {:induction false} ParsedNamed(toks: Tokens)
    ensures Parse(toks).Some? ==> Named(Parse(toks).value.0)
    decreases |toks|, 1
  {
    if toks != [] {
      if toks[0].LParen? { CompoundNamed(toks[1..]); }
      if toks[0].Path? && Parse(toks).Some? { PathExprNamed(toks[0].base, toks[0].fields); }
    }
  }

  lemma {:induction false} PathExprNamed(b: Word, fs: seq<Word>)
    requires b.Plain? && forall i :: 0 <= i < |fs| ==> !IsBool(fs[i])
    ensures Named(PathExpr(b, fs))
    decreases |fs|
  {
    if fs != [] {
      var n := |fs| - 1;
      PathExprNamed(b, fs[..n]);
      AllNamed(PathExpr(b, fs), 0);
    }
  }

  lemma {:induction false} AllNamed(call: Expr, i: nat)
    requires call.Call? && i <= |call.args|
    requires forall j :: i <= j < |call.args| ==> FieldName(call.func, j, call.args[j]) || Named(call.args[j])
    ensures NamedArgs(call, i)
    decreases |call.args| - i
  {
    if i < |call.args| { AllNamed(call, i + 1); }
  }

  lemma {:induction false} CompoundNamed(toks: Tokens)
    ensures ParseCompound(toks).Some? ==> Named(ParseCompound(toks).value.0)
    decreases |toks|, 2
  {
    if toks != [] && ParseCompound(toks).Some? {
      if IsOperator(toks[0]) {
        OperationNamed(if toks[0].Bang? then NotOp else WordOp(toks[0].word.op), toks[1..]);
      } else if toks[0].word.CallW? {
        CallNamed(toks[1].word, toks[2..], true);
      } else if toks[0].word.Plain? {
        CallNamed(toks[0].word, toks[1..], false);
      } else if toks[0].word.IfW? {
        IfNamed(toks[1..]);
      } else {
        ParsedNamed(toks[1..]);
      }
    }
  }

  lemma {:induction false} OperationNamed(op: Operator, toks: Tokens)
    requires ParseOperation(op, toks).Some?
    ensures Named(ParseOperation(op, toks).value.0)
    decreases |toks|, 4
  {
    var l := Parse(toks);
    ParsedNamed(toks);
    var r := Parse(l.value.1);
    ParsedNamed(l.value.1);
    MoreNamed(op, Binary(op, l.value.0, r.value.0), r.value.1);
  }

  lemma {:induction false} MoreNamed(op: Operator, cur: Expr, toks: Tokens)
    requires Named(cur)
    ensures ParseMore(op, cur, toks).Some? ==> Named(ParseMore(op, cur, toks).value.0)
    decreases |toks|, 3
  {
    if ParseMore(op, cur, toks).Some? && Chains(op) && toks != [] && !toks[0].RParen? {
      ParsedNamed(toks);
      var next := Parse(toks);
      MoreNamed(op, Binary(op, cur, next.value.0), next.value.1);
    }
  }

  lemma {:induction false} CallNamed(f: Word, toks: Tokens, hasCall: bool)
    requires f.Plain?
    ensures ParseCall(f, toks, hasCall).Some? ==> Named(ParseCall(f, toks, hasCall).value.0)
    decreases |toks|, 4
  {
    if ParseCall(f, toks, hasCall).Some? {
      ArgsNamed(f, 0, toks);
      AllNamed(ParseCall(f, toks, hasCall).value.0, 0);
    }
  }

  lemma {:induction false} ArgsNamed(f: Word, count: nat, toks: Tokens)
    requires ParseArgs(f == FIELD, count, toks).Some?
    ensures var args := ParseArgs(f == FIELD, count, toks).value.0;
            forall j :: 0 <= j < |args| ==> FieldName(f, count + j, args[j]) || Named(args[j])
    decreases |toks|, 3
  {
    if toks != [] && !toks[0].RParen? {
      if f == FIELD && count == 1 && IsName(toks[0]) {
        ArgsNamed(f, count + 1, toks[1..]);
      } else {
        ParsedNamed(toks);
        ArgsNamed(f, count + 1, Parse(toks).value.1);
      }
    }
  }

  lemma {:induction false} IfNamed(toks: Tokens)
    ensures ParseIf(toks).Some? ==> Named(ParseIf(toks).value.0)
    decreases |toks|, 4
  {
    if ParseIf(toks).Some? {
      var c := Parse(toks);
      ParsedNamed(toks);
      ParsedNamed(c.value.1[2..]);
      var t := Expect(RParen, Parse(c.value.1[2..]));
      if |t.value.1| >= 2 { ParsedNamed(t.value.1[2..]); }
    }
  }

  // Whatever parses prints to tokens that parse, in any context, to an expression that prints the same;
  // and that expression is the one first parsed exactly if it is canonical.
  lemma {:induction false} FormattingSettles(toks: Tokens, k: Tokens)
    requires Parse(toks).Some?
    ensures var e := Parse(toks).value.0;
            && Parse(Format(e, k)) == Some((Reread(e), k)) && Format(Reread(e), k) == Format(e, k)
            && (Reread(e) == e <==> Canonical(e))
  {
    ParsedNamed(toks);
    var e := Parse(toks).value.0;
    ParseFormat(e, k);
    FormatAgain(e, k);
    RereadSame(e);
  }

  // '!' with two operands parses, prints as a call of not, and does not come back.
  lemma BangComesBackAsCall()
    ensures var toks := [LParen, Bang, W(Plain("a")), W(Plain("b")), RParen];
            var e := Parse(toks);
            && e.Some? && Parse(Format(e.value.0, [])).Some? && Parse(Format(e.value.0, [])).value.0 != e.value.0
  {
    var a, b := W(Plain("a")), W(Plain("b"));
    var toks := [LParen, Bang, a, b, RParen];
    assert toks[1..] == [Bang, a, b, RParen] && toks[1..][1..] == [a, b, RParen];
    assert [a, b, RParen][1..] == [b, RParen] && [b, RParen][1..] == [RParen];
    var e := Binary(NotOp, Ident(Plain("a")), Ident(Plain("b")));
    assert Parse([a, b, RParen]) == Some((e.left, [b, RParen])) && Parse([b, RParen]) == Some((e.right, [RParen]));
    assert ParseMore(NotOp, e, [RParen]) == Some((e, [RParen]));
    assert ParseOperation(NotOp, [a, b, RParen]) == Some((e, []));
    assert Parse(toks) == Some((e, []));
    FormattingSettles(toks, []);
  }
}
