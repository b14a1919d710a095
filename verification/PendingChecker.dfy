/**
The checker itself: a stack of scopes changed in place, with the pending bits saved, put back and
merged around branches. Its state and its verdict are those of `After` and `Clean`.
*/
module PendingChecker {
  import opened Wrappers
  import opened PendingFlow
  import opened PendingSound

  // A snapshot of the pending bit of every binding in sight.
  type Bits = List<map<string, bool>>

  function BitsOf(s: Scopes): Bits {
    match s
    case Nil => Nil
    case Cons(scope, up) => Cons(map x | x in scope :: scope[x].pending, BitsOf(up))
  }

  // The bindings of s with the bits of the snapshot.
  function WithBits(s: Scopes, bits: Bits): Scopes {
    match s
    case Nil => Nil
    case Cons(scope, up) =>
      if bits.Nil? then s
      else Cons(map x | x in scope :: if x in bits.head then scope[x].(pending := bits.head[x]) else scope[x], WithBits(up, bits.tail))
  }

  function OrBits(a: Bits, b: Bits): Bits {
    match a
    case Nil => Nil
    case Cons(m, up) =>
      if b.Nil? then a else Cons(map x | x in m :: m[x] || (x in b.head && b.head[x]), OrBits(up, b.tail))
  }

  // Putting a snapshot back, into whatever bits the same bindings have by now.
  lemma {:induction false} RestoreExact(s: Scopes, t: Scopes)
    requires Same(s, t)
    ensures WithBits(s, BitsOf(t)) == t
  {
    if s.Cons? {
      RestoreExact(s.tail, t.tail);
      assert WithBits(s, BitsOf(t)).head == t.head;
    }
  }

  lemma {:induction false} MergeExact(s: Scopes, a: Scopes, b: Scopes)
    requires Same(s, a) && Same(a, b)
    ensures WithBits(s, OrBits(BitsOf(a), BitsOf(b))) == Or(a, b)
  {
    if s.Cons? {
      MergeExact(s.tail, a.tail, b.tail);
      assert WithBits(s, OrBits(BitsOf(a), BitsOf(b))).head == Or(a, b).head;
    }
  }

  // After a merge of two snapshots a variable, looked up by its name, is pending exactly if it was pending in
  // one of them.
  lemma {:induction false} MergedBit(s: Scopes, a: Scopes, b: Scopes, x: string)
    requires Same(s, a) && Same(a, b)
    ensures var (m, p, q) := (Lookup(WithBits(s, OrBits(BitsOf(a), BitsOf(b))), x), Lookup(a, x), Lookup(b, x));
            && (m.Some? <==> Lookup(s, x).Some?) && (m.Some? <==> p.Some? && q.Some?)
            && (m.Some? ==> m.value == Lookup(s, x).value.(pending := p.value.pending || q.value.pending))
  {
    if s.Cons? {
      assert x in s.head <==> x in a.head;
      MergedBit(s.tail, a.tail, b.tail, x);
    }
  }

  // Headers are evaluated inside the loop's scope, where nothing is declared yet.
  lemma {:induction false} FlowPush(e: Expr, s: Scopes)
    ensures Flow(e, Push(s)) == Push(Flow(e, s)) && Known(e, Push(s)) == Known(e, s)
    decreases e
  {
    match e
    case Ident(_) =>
    case Node(args) => FlowAllPush(args, s);
    case UnwrapOr(v, d) =>
      FlowPush(v, s);
      FlowPush(d, s);
      FlowPush(d, Consume(Flow(v, s), v));
  }

  lemma {:induction false} FlowAllPush(es: seq<Expr>, s: Scopes)
    ensures FlowAll(es, Push(s)) == Push(FlowAll(es, s)) && KnownAll(es, Push(s)) == KnownAll(es, s)
    decreases es
  {
    if es != [] {
      FlowPush(es[0], s);
      FlowAllPush(es[1..], s);
      FlowAllPush(es[1..], Flow(es[0], s));
    }
  }

  lemma {:induction false} KnownFlow(e: Expr, f: Expr, s: Scopes)
    ensures Known(e, Flow(f, s)) == Known(e, s)
  {
    SameRefl(s);
    FlowLeq(f, s, s);
    FlowLeq(e, Flow(f, s), s);
  }

  lemma {:induction false} KnownAllFlow(es: seq<Expr>, f: Expr, s: Scopes)
    ensures KnownAll(es, Flow(f, s)) == KnownAll(es, s)
  {
    SameRefl(s);
    FlowLeq(f, s, s);
    FlowAllLeq(es, Flow(f, s), s);
  }

  class Checker {
    var scopes: Scopes
    var errors: nat

    constructor ()
      ensures scopes == Nil && errors == 0
    {
      scopes, errors := Nil, 0;
    }

    method Error()
      modifies `errors
      ensures errors == old(errors) + 1
    {
      errors := errors + 1;
    }

    method PushScope()
      modifies `scopes
      ensures scopes == Push(old(scopes))
    {
      scopes := Cons(map[], scopes);
    }

    method PopScope()
      requires scopes.Cons?
      modifies this
      ensures scopes == Pop(old(scopes)) && errors >= old(errors)
      ensures (errors == old(errors)) == NonePendingHere(old(scopes))
    {
      var scope := scopes.head;
      var ids := scope.Keys;
      ghost var seen := {};
      while ids != {}
        invariant ids <= scope.Keys && seen == scope.Keys - ids && scopes == old(scopes) && errors >= old(errors)
        invariant (errors == old(errors)) == forall x :: x in seen ==> !scope[x].pending
        decreases ids
      {
        var id :| id in ids;
        if scope[id].pending { Error(); }
        ids := ids - {id};
        seen := seen + {id};
      }
      scopes := scopes.tail;
    }

    method DefineName(id: string, isResult: bool)
      requires scopes.Cons?
      modifies this
      ensures scopes == Define(old(scopes), id, isResult) && errors >= old(errors)
      ensures (errors == old(errors)) == CanDefine(old(scopes), id)
    {
      if id == "_" { return; }
      if id in scopes.head { Error(); }
      scopes := Cons(scopes.head[id := Binding(isResult, isResult)], scopes.tail);
    }

    method ConsumeName(e: Expr)
      modifies `scopes
      ensures scopes == Consume(old(scopes), e)
    {
      if e.Ident? { scopes := Mark(scopes, e.name, false); }
    }

    method Restore(state: Bits)
      modifies `scopes
      ensures scopes == WithBits(old(scopes), state)
    {
      scopes := WithBits(scopes, state);
    }

    method Merge(a: Bits, b: Bits)
      modifies `scopes
      ensures scopes == WithBits(old(scopes), OrBits(a, b))
    {
      scopes := WithBits(scopes, OrBits(a, b));
    }

    method WalkExpr(e: Expr)
      modifies this
      ensures scopes == Flow(e, old(scopes)) && errors >= old(errors)
      ensures (errors == old(errors)) == Known(e, old(scopes))
      decreases e
    {
      match e {
        case Ident(x) => if Lookup(scopes, x).None? { Error(); }
        case Node(args) => WalkAll(args);
        case UnwrapOr(v, d) =>
          ghost var s := scopes;
          WalkExpr(v);
          ConsumeName(v);
          KnownFlow(d, v, s);
          ghost var t := Flow(v, s);
          SameRefl(t);
          if v.Ident? { ClearBelow(t, v.name); }
          FlowLeq(d, Consume(t, v), t);
          WalkExpr(d);
      }
    }

    method WalkAll(es: seq<Expr>)
      modifies this
      ensures scopes == FlowAll(es, old(scopes)) && errors >= old(errors)
      ensures (errors == old(errors)) == KnownAll(es, old(scopes))
      decreases es
    {
      if es != [] {
        KnownAllFlow(es[1..], es[0], scopes);
        WalkExpr(es[0]);
        WalkAll(es[1..]);
      }
    }

    method Block(body: seq<Stmt>)
      modifies this
      ensures scopes == Pop(AfterAll(body, Push(old(scopes)))) && errors >= old(errors)
      ensures (errors == old(errors)) == CleanBlock(body, Push(old(scopes)), false)
      decreases body, 1
    {
      AllTail(body, Push(scopes));
      PushScope();
      Statements(body);
      PopScope();
    }

    method Statements(body: seq<Stmt>)
      requires scopes.Cons?
      modifies this
      ensures scopes == AfterAll(body, old(scopes)) && errors >= old(errors)
      ensures (errors == old(errors)) == CleanAll(body, old(scopes), false)
      decreases body, 0
    {
      ghost var s0 := scopes;
      var i := 0;
      while i < |body|
        invariant 0 <= i <= |body| && scopes.Cons? && errors >= old(errors)
        invariant AfterAll(body[i..], scopes) == AfterAll(body, s0)
        invariant (errors == old(errors) && CleanAll(body[i..], scopes, false)) == CleanAll(body, s0, false)
      {
        assert body[i..][0] == body[i] && body[i..][1..] == body[i + 1..];
        StmtTail(body[i], scopes);
        Statement(body[i]);
        i := i + 1;
      }
    }

    method Statement(st: Stmt)
      requires scopes.Cons?
      modifies this
      ensures scopes == After(st, old(scopes)) && errors >= old(errors)
      ensures (errors == old(errors)) == Clean(st, old(scopes), false)
      decreases st, 1
    {
      ghost var s0 := scopes;
      match st {
        case Let(x, isResult, e) =>
          FlowSame(e, s0);
          WalkExpr(e);
          DefineName(x, isResult);
        case Set(x, e) =>
          var b := Lookup(scopes, x);
          if b.None? {
            Error();
            WalkExpr(e);
          } else {
            if b.value.pending { Error(); }
            WalkExpr(e);
            scopes := Mark(scopes, x, b.value.isResult);
          }
        case Return(e) =>
          WalkExpr(e);
          ConsumeName(e);
          if !NonePending(scopes) { Error(); }
        case Do(e, isResult) =>
          WalkExpr(e);
          if isResult { Error(); }
        case If(c, t, f) =>
          WalkExpr(c);
          ghost var base := scopes;
          var before := BitsOf(scopes);
          Block(t);
          var afterThen := BitsOf(scopes);
          SameRefl(base);
          BlockSame(t, base, Push(base));
          RestoreExact(scopes, base);
          Restore(before);
          Block(f);
          Join(t, afterThen, f, Push(base), Push(base), base);
        case Match(_, _, _, _, _, _, _) => MatchStatement(st);
        case Transaction(conn, body) =>
          var b := Lookup(scopes, conn);
          if b.None? || b.value.pending { Error(); }
          AllTail(body, DefinePlain(Push(s0), conn));
          PushScope();
          DefineName(conn, false);
          Statements(body);
          PopScope();
        case Repeat(_, _) => LoopStatement(st);
      }
    }

    // Which state goes on after two branches.
    method Join(t: seq<Stmt>, afterThen: Bits, f: seq<Stmt>, ghost et: Scopes, ghost ef: Scopes, ghost base: Scopes)
      requires et.Cons? && et.tail == base && ef.Cons? && ef.tail == base
      requires afterThen == BitsOf(Pop(AfterAll(t, et))) && scopes == Pop(AfterAll(f, ef))
      modifies `scopes
      ensures scopes == Joined(t, Pop(AfterAll(t, et)), f, Pop(AfterAll(f, ef)))
    {
      BranchesSame(t, et, f, ef, base);
      RestoreExact(Pop(AfterAll(f, ef)), Pop(AfterAll(t, et)));
      MergeExact(Pop(AfterAll(f, ef)), Pop(AfterAll(t, et)), Pop(AfterAll(f, ef)));
      if Returns(t) {
      } else if Returns(f) {
        Restore(afterThen);
      } else {
        Merge(afterThen, BitsOf(scopes));
      }
    }

    method MatchStatement(st: Stmt)
      requires scopes.Cons? && st.Match?
      modifies this
      ensures scopes == After(st, old(scopes)) && errors >= old(errors)
      ensures (errors == old(errors)) == Clean(st, old(scopes), false)
      decreases st, 0
    {
      WalkExpr(st.value);
      ConsumeName(st.value);
      ghost var base := scopes;
      ghost var eo := Define(Push(base), st.okName, st.okResult);
      ghost var ee := Define(Push(base), st.errName, st.errResult);
      ArmsKeep(st, base, eo, ee);
      var before := BitsOf(scopes);
      Arm(st.okName, st.okResult, st.ok);
      var afterOK := BitsOf(scopes);
      Restore(before);
      Arm(st.errName, st.errResult, st.err);
      Join(st.ok, afterOK, st.err, eo, ee, base);
    }

    // One arm, in a scope of its own in which the payload is declared.
    method Arm(name: string, isResult: bool, body: seq<Stmt>)
      requires AfterAll(body, Define(Push(scopes), name, isResult)).Cons?
      modifies this
      ensures var entry := Define(Push(old(scopes)), name, isResult);
              && scopes == Pop(AfterAll(body, entry)) && errors >= old(errors)
              && (errors == old(errors)) == CleanBlock(body, entry, false)
      decreases body, 1
    {
      PushScope();
      DefineName(name, isResult);
      Statements(body);
      PopScope();
    }

    method LoopStatement(st: Stmt)
      requires scopes.Cons? && st.Repeat?
      modifies this
      ensures scopes == After(st, old(scopes)) && errors >= old(errors)
      ensures (errors == old(errors)) == Clean(st, old(scopes), false)
      decreases st, 0
    {
      ghost var s0 := scopes;
      ghost var entry := Entry(st.loop, Headers(st.loop, s0));
      var before := BitsOf(scopes);
      PushScope();
      match st.loop {
        case While(cond) =>
          FlowPush(cond, s0);
          WalkExpr(cond);
        case For(x, headers) =>
          FlowAllPush(headers, s0);
          WalkAll(headers);
          DefineName(x, false);
      }
      AllTail(st.body, entry);
      Statements(st.body);
      PopScope();
      LoopSame(st.loop, st.body, s0);
      SameRefl(scopes);
      MergeExact(scopes, s0, scopes);
      Merge(before, BitsOf(scopes));
    }
  }

  // The arms of a match leave the scopes outside them, and putting the bits back gives the state before.
  lemma {:induction false} ArmsKeep(st: Stmt, base: Scopes, eo: Scopes, ee: Scopes)
    requires st.Match? && eo == Define(Push(base), st.okName, st.okResult) && ee == Define(Push(base), st.errName, st.errResult)
    ensures AfterAll(st.ok, eo).Cons? && AfterAll(st.err, ee).Cons?
    ensures WithBits(Pop(AfterAll(st.ok, eo)), BitsOf(base)) == base
  {
    SameRefl(base);
    AllTail(st.ok, eo);
    AllTail(st.err, ee);
    BlockSame(st.ok, base, eo);
    RestoreExact(Pop(AfterAll(st.ok, eo)), base);
  }

  // A function body, with its parameters in scope and nothing pending: does the checker complain?
  method CheckFunction(params: map<string, bool>, body: seq<Stmt>) returns (accepted: bool)
    ensures accepted == CleanBlock(body, Cons(map x | x in params :: Binding(params[x], false), Nil), false)
  {
    var c := new Checker();
    c.scopes := Cons(map x | x in params :: Binding(params[x], false), Nil);
    AllTail(body, c.scopes);
    c.Statements(body);
    c.PopScope();
    accepted := c.errors == 0;
  }
}
