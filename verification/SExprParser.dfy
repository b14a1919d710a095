/**
The parser of S-expressions with its cursor: it reads what the parsing function says and stops where it
says; a syntax error stops the parse.
*/
module SExprParser {
  import opened Wrappers
  import opened SExpr

  type ParsedArgs = Option<(seq<Expr>, Tokens)>

  // All the arguments: those read so far and those to come.
  predicate Joins(all: ParsedArgs, es: seq<Expr>, more: ParsedArgs) {
    if more.Some? then all == Some((es + more.value.0, more.value.1)) else all.None?
  }

  lemma JoinsMore(all: ParsedArgs, es: seq<Expr>, e: Expr, more: ParsedArgs, rest: ParsedArgs)
    requires Joins(all, es, more)
    requires more == if rest.Some? then Some(([e] + rest.value.0, rest.value.1)) else None
    ensures Joins(all, es + [e], rest)
  {
    if rest.Some? { assert es + ([e] + rest.value.0) == es + [e] + rest.value.0; }
  }

  class Parser {
    const tokens: Tokens
    var pos: nat

    constructor (tokens: Tokens)
      ensures this.tokens == tokens && pos == 0
    {
      this.tokens, pos := tokens, 0;
    }

    predicate Valid()
      reads this
    {
      pos <= |tokens|
    }

    function Rest(): Tokens
      reads this
      requires Valid()
    {
      tokens[pos..]
    }

    // The outcome of a call: the expression and the cursor agree with the function's result.
    predicate Agrees(e: Option<Expr>, r: Parsed)
      reads this
    {
      Valid() && if r.Some? then e == Some(r.value.0) && Rest() == r.value.1 else e.None?
    }

    method NextToken()
      requires Valid() && Rest() != []
      modifies this
      ensures Valid() && Rest() == old(Rest())[1..]
    {
      pos := pos + 1;
    }

    method ExpectCur(t: Token) returns (ok: bool)
      requires Valid()
      modifies this
      ensures Valid() && ok == (old(Rest()) != [] && old(Rest())[0] == t)
      ensures Rest() == if ok then old(Rest())[1..] else old(Rest())
    {
      ok := pos < |tokens| && tokens[pos] == t;
      if ok { NextToken(); }
    }

    method ParseExpression() returns (e: Option<Expr>)
      requires Valid()
      modifies this
      ensures Agrees(e, Parse(old(Rest())))
      decreases |Rest()|, 1
    {
      if pos == |tokens| { return None; }
      match tokens[pos]
      case Int(raw, fits) => if !fits { return None; } NextToken(); e := Some(IntLit(raw));
      case Float(raw, fits) => if !fits { return None; } NextToken(); e := Some(FloatLit(raw));
      case Str(s) => NextToken(); e := Some(StrLit(s));
      case W(w) =>
        if IsBool(w) {
          NextToken();
          e := Some(BoolLit(w.TrueW?));
        } else if w.Plain? {
          NextToken();
          e := Some(Ident(w));
        } else {
          e := None;
        }
      case Path(base, fields) =>
        e := ParsePath(base, fields);
        NextToken();
      case LParen =>
        NextToken();
        e := ParseCompoundExpr();
      case RParen => e := None;
      case Bang => e := None;
      case Other => e := None;
    }

    method ParsePath(base: Word, fields: seq<Word>) returns (e: Option<Expr>)
      ensures e == if base.Plain? && forall i :: 0 <= i < |fields| ==> !IsBool(fields[i]) then Some(PathExpr(base, fields)) else None
    {
      if !base.Plain? { return None; }
      var cur := Ident(base);
      var i := 0;
      while i < |fields|
        invariant 0 <= i <= |fields| && cur == PathExpr(base, fields[..i])
        invariant forall j :: 0 <= j < i ==> !IsBool(fields[j])
      {
        if IsBool(fields[i]) { return None; }
        assert fields[..i + 1][..i] == fields[..i];
        cur := Call(FIELD, [cur, Ident(fields[i])], false);
        i := i + 1;
      }
      assert fields[..i] == fields;
      e := Some(cur);
    }

    method ParseCompoundExpr() returns (e: Option<Expr>)
      requires Valid()
      modifies this
      ensures Agrees(e, ParseCompound(old(Rest())))
      decreases |Rest()|, 2
    {
      if pos == |tokens| { return None; }
      ghost var toks := Rest();
      var tok := tokens[pos];
      if IsOperator(tok) {
        NextToken();
        e := ParseOperands(if tok.Bang? then NotOp else WordOp(tok.word.op));
      } else if tok == W(CallW) {
        NextToken();
        if pos == |tokens| || !tokens[pos].W? || !tokens[pos].word.Plain? { return None; }
        var f := tokens[pos].word;
        NextToken();
        assert Rest() == toks[2..];
        e := ParseCallTail(f, true);
      } else if tok == W(TryW) || tok == W(RecvW) {
        NextToken();
        var sub := ParseExpression();
        if sub.None? { return None; }
        var ok := ExpectCur(RParen);
        if !ok { return None; }
        e := Some(if tok == W(TryW) then Try(sub.value) else Recv(sub.value));
      } else if tok == W(IfW) {
        NextToken();
        e := ParseIfExpr();
      } else if tok.W? && tok.word.Plain? {
        NextToken();
        e := ParseCallTail(tok.word, false);
      } else {
        e := None;
      }
    }

    method ParseCallTail(f: Word, hasCall: bool) returns (e: Option<Expr>)
      requires Valid()
      modifies this
      ensures Agrees(e, ParseCall(f, old(Rest()), hasCall))
      decreases |Rest()|, 4
    {
      var args := ParseCallArgs(f);
      if args.None? { return None; }
      var ok := ExpectCur(RParen);
      e := if ok then Some(Call(f, args.value, hasCall)) else None;
    }

    method ParseCallArgs(f: Word) returns (args: Option<seq<Expr>>)
      requires Valid()
      modifies this
      ensures Valid()
      ensures var r := ParseArgs(f == FIELD, 0, old(Rest()));
              if r.Some? then args == Some(r.value.0) && Rest() == r.value.1 else args.None?
      decreases |Rest()|, 3
    {
      ghost var toks := Rest();
      var es: seq<Expr> := [];
      ghost var all := ParseArgs(f == FIELD, 0, toks);
      if all.Some? { assert [] + all.value.0 == all.value.0; }
      while pos < |tokens| && !tokens[pos].RParen?
        invariant Valid() && |Rest()| <= |toks|
        invariant Joins(all, es, ParseArgs(f == FIELD, |es|, Rest()))
        decreases |Rest()|
      {
        ghost var here, sofar := Rest(), es;
        if f == FIELD && |es| == 1 && IsName(tokens[pos]) {
          es := es + [Ident(tokens[pos].word)];
          NextToken();
        } else {
          var arg := ParseExpression();
          if arg.None? { return None; }
          es := es + [arg.value];
        }
        JoinsMore(all, sofar, es[|sofar|], ParseArgs(f == FIELD, |sofar|, here), ParseArgs(f == FIELD, |es|, Rest()));
      }
      assert es + [] == es;
      args := Some(es);
    }

    method ParseOperands(op: Operator) returns (e: Option<Expr>)
      requires Valid()
      modifies this
      ensures Agrees(e, ParseOperation(op, old(Rest())))
      decreases |Rest()|, 4
    {
      ghost var toks := Rest();
      var l := ParseExpression();
      if l.None? { return None; }
      var r := ParseExpression();
      if r.None? { return None; }
      var cur := Binary(op, l.value, r.value);
      ghost var all := ParseMore(op, cur, Rest());
      if Chains(op) {
        while pos < |tokens| && !tokens[pos].RParen?
          invariant Valid() && |Rest()| < |toks|
          invariant ParseMore(op, cur, Rest()) == all
          decreases |Rest()|
        {
          var next := ParseExpression();
          if next.None? { return None; }
          cur := Binary(op, cur, next.value);
        }
      }
      var ok := ExpectCur(RParen);
      e := if ok then Some(cur) else None;
    }

    method ParseIfExpr() returns (e: Option<Expr>)
      requires Valid()
      modifies this
      ensures Agrees(e, ParseIf(old(Rest())))
      decreases |Rest()|, 4
    {
      var c := ParseExpression();
      if c.None? { return None; }
      ghost var afterCond := Rest();
      var ok := ExpectCur(LParen);
      if !ok { return None; }
      ok := ExpectCur(W(ThenW));
      if !ok { return None; }
      assert Rest() == afterCond[2..];
      var t := ParseExpression();
      if t.None? { return None; }
      ok := ExpectCur(RParen);
      if !ok { return None; }
      var other := ParseElsePart();
      e := if other.Some? then Some(If(c.value, t.value, other.value)) else None;
    }

    method ParseElsePart() returns (e: Option<Option<Expr>>)
      requires Valid()
      modifies this
      ensures Valid()
      ensures var r := ParseElse(old(Rest())); if r.Some? then e == Some(r.value.0) && Rest() == r.value.1 else e.None?
      decreases |Rest()|, 4
    {
      ghost var toks := Rest();
      var other: Option<Expr> := None;
      if pos + 1 < |tokens| && tokens[pos].LParen? && tokens[pos + 1] == W(ElseW) {
        NextToken();
        NextToken();
        assert Rest() == toks[2..];
        other := ParseExpression();
        if other.None? { return None; }
        var ok := ExpectCur(RParen);
        if !ok { return None; }
      }
      var ok := ExpectCur(RParen);
      e := if ok then Some(other) else None;
    }
  }
}
