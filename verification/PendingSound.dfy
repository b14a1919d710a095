/**
What the one pass of the checker guarantees. Its state over-approximates every run
(`Covers`); a body that is clean on both passes is safe on every run (`Sound`); and the
checker's single pass is enough when loops do not set outer results (`OnePassEnough`).
*/
module PendingSound {
  import opened Wrappers
  import opened PendingFlow

  // ----- Order of states -----

  ghost predicate LeqMap(c: map<string, Binding>, a: map<string, Binding>) {
    && c.Keys == a.Keys
    && forall x :: x in c ==> c[x].isResult == a[x].isResult && (c[x].pending ==> a[x].pending)
  }

  // The same bindings, pending in c only where pending in a.
  ghost predicate Leq(c: Scopes, a: Scopes) {
    match c
    case Nil => a.Nil?
    case Cons(scope, up) => a.Cons? && LeqMap(scope, a.head) && Leq(up, a.tail)
  }

  ghost predicate SameMap(c: map<string, Binding>, a: map<string, Binding>) {
    c.Keys == a.Keys && forall x :: x in c ==> c[x].isResult == a[x].isResult
  }

  ghost predicate Same(c: Scopes, a: Scopes) {
    match c
    case Nil => a.Nil?
    case Cons(scope, up) => a.Cons? && SameMap(scope, a.head) && Same(up, a.tail)
  }

  lemma {:induction false} LeqSame(c: Scopes, a: Scopes)
    requires Leq(c, a)
    ensures Same(c, a) && Same(a, c)
  {
    if c.Cons? { LeqSame(c.tail, a.tail); }
  }

  lemma {:induction false} SameRefl(s: Scopes)
    ensures Same(s, s) && Leq(s, s)
  {
    if s.Cons? { SameRefl(s.tail); }
  }

  lemma {:induction false} SameTrans(a: Scopes, b: Scopes, c: Scopes)
    requires Same(a, b) && Same(b, c)
    ensures Same(a, c) && Same(b, a)
  {
    if a.Cons? { SameTrans(a.tail, b.tail, c.tail); } else { assert b.Nil?; }
  }

  lemma {:induction false} LeqTrans(a: Scopes, b: Scopes, c: Scopes)
    requires Leq(a, b) && Leq(b, c)
    ensures Leq(a, c)
  {
    if a.Cons? { LeqTrans(a.tail, b.tail, c.tail); }
  }

  lemma {:induction false} OrUpper(a: Scopes, b: Scopes)
    requires Same(a, b)
    ensures Leq(a, Or(a, b)) && Leq(b, Or(a, b))
  {
    if a.Cons? { OrUpper(a.tail, b.tail); }
  }

  lemma {:induction false} OrLeast(a: Scopes, b: Scopes, c: Scopes)
    requires Leq(a, c) && Leq(b, c)
    ensures Leq(Or(a, b), c)
  {
    if a.Cons? { OrLeast(a.tail, b.tail, c.tail); }
  }

  lemma {:induction false} OrAbsorbs(a: Scopes, b: Scopes)
    requires Leq(b, a)
    ensures Or(a, b) == a
  {
    if a.Cons? {
      OrAbsorbs(a.tail, b.tail);
      assert Either(a.head, b.head) == a.head;
    }
  }

  // ----- The operations are monotone and depend on the bindings only -----

  lemma {:induction false} LookupLeq(c: Scopes, a: Scopes, x: string)
    requires Leq(c, a)
    ensures var l, k := Lookup(c, x), Lookup(a, x);
            l.Some? == k.Some? && (l.Some? ==> l.value.isResult == k.value.isResult && (l.value.pending ==> k.value.pending))
  {
    if c.Cons? { LookupLeq(c.tail, a.tail, x); }
  }

  lemma {:induction false} LookupSame(c: Scopes, a: Scopes, x: string)
    requires Same(c, a)
    ensures var l, k := Lookup(c, x), Lookup(a, x);
            l.Some? == k.Some? && (l.Some? ==> l.value.isResult == k.value.isResult)
  {
    if c.Cons? { LookupSame(c.tail, a.tail, x); }
  }

  lemma {:induction false} MarkLeq(c: Scopes, a: Scopes, x: string, pending: bool)
    requires Leq(c, a)
    ensures Leq(Mark(c, x, pending), Mark(a, x, pending))
  {
    if c.Cons? { MarkLeq(c.tail, a.tail, x, pending); }
  }

  lemma {:induction false} MarkSame(s: Scopes, x: string, pending: bool)
    ensures Same(Mark(s, x, pending), s) && Same(s, Mark(s, x, pending))
  {
    if s.Cons? {
      SameRefl(s.tail);
      MarkSame(s.tail, x, pending);
    }
  }

  lemma {:induction false} ClearBelow(s: Scopes, x: string)
    ensures Leq(Mark(s, x, false), s)
  {
    if s.Cons? {
      SameRefl(s.tail);
      ClearBelow(s.tail, x);
    }
  }

  lemma {:induction false} FlowLeq(e: Expr, c: Scopes, a: Scopes)
    requires Leq(c, a)
    ensures Leq(Flow(e, c), Flow(e, a)) && Known(e, c) == Known(e, a) && Leq(Flow(e, c), c)
    decreases e
  {
    SameRefl(c);
    match e
    case Ident(x) => LookupLeq(c, a, x);
    case Node(args) => FlowAllLeq(args, c, a);
    case UnwrapOr(v, d) =>
      FlowLeq(v, c, a);
      FlowLeq(d, c, a);
      var c1, a1 := Flow(v, c), Flow(v, a);
      if v.Ident? {
        MarkLeq(c1, a1, v.name, false);
        ClearBelow(c1, v.name);
        LeqTrans(Mark(c1, v.name, false), c1, c);
      }
      FlowLeq(d, Consume(c1, v), Consume(a1, v));
      LeqTrans(Flow(d, Consume(c1, v)), Consume(c1, v), c);
  }

  lemma {:induction false} FlowAllLeq(es: seq<Expr>, c: Scopes, a: Scopes)
    requires Leq(c, a)
    ensures Leq(FlowAll(es, c), FlowAll(es, a)) && KnownAll(es, c) == KnownAll(es, a) && Leq(FlowAll(es, c), c)
    decreases es
  {
    SameRefl(c);
    if es != [] {
      FlowLeq(es[0], c, a);
      FlowAllLeq(es[1..], c, a);
      FlowAllLeq(es[1..], Flow(es[0], c), Flow(es[0], a));
      LeqTrans(FlowAll(es, c), Flow(es[0], c), c);
    }
  }

  lemma {:induction false} ConsumeLeq(c: Scopes, a: Scopes, e: Expr)
    requires Leq(c, a)
    ensures Leq(Consume(c, e), Consume(a, e))
  {
    if e.Ident? { MarkLeq(c, a, e.name, false); }
  }

  lemma {:induction false} NonePendingLeq(c: Scopes, a: Scopes)
    requires Leq(c, a) && NonePending(a)
    ensures NonePending(c)
  {
    if c.Cons? { NonePendingLeq(c.tail, a.tail); }
  }

  lemma {:induction false} HeadersLeq(loop: Loop, c: Scopes, a: Scopes)
    requires Leq(c, a)
    ensures Leq(Headers(loop, c), Headers(loop, a)) && Leq(Headers(loop, c), c) && KnownHeaders(loop, c) == KnownHeaders(loop, a)
  {
    SameRefl(c);
    if loop.For? { FlowAllLeq(loop.headers, c, a); } else { FlowLeq(loop.cond, c, a); }
  }

  lemma {:induction false} EntryLeq(loop: Loop, c: Scopes, a: Scopes)
    requires Leq(c, a)
    ensures Leq(Entry(loop, c), Entry(loop, a)) && Entry(loop, c).Cons? && Leq(Entry(loop, c).tail, c)
  {
    SameRefl(c);
    if loop.While? {
      FlowLeq(loop.cond, Push(c), Push(a));
    }
  }

  // ----- Each statement acts on each pending bit as identity, clear or set -----

  // From m1 and m2 to k1 and k2: a bit ends the same from both, or stays as it was in both.
  ghost predicate ActsMap(m1: map<string, Binding>, m2: map<string, Binding>, k1: map<string, Binding>, k2: map<string, Binding>) {
    && SameMap(k1, k2)
    && forall x :: x in k1 ==>
         || k1[x].pending == k2[x].pending
         || (x in m1 && x in m2 && k1[x].pending == m1[x].pending && k2[x].pending == m2[x].pending)
  }

  ghost predicate Acts(s1: Scopes, s2: Scopes, r1: Scopes, r2: Scopes) {
    match s1
    case Nil => s2.Nil? && r1.Nil? && r2.Nil?
    case Cons(m1, up) =>
      && s2.Cons? && r1.Cons? && r2.Cons?
      && ActsMap(m1, s2.head, r1.head, r2.head) && Acts(up, s2.tail, r1.tail, r2.tail)
  }

  lemma {:induction false} ActsRefl(s1: Scopes, s2: Scopes)
    requires Same(s1, s2)
    ensures Acts(s1, s2, s1, s2)
  {
    if s1.Cons? { ActsRefl(s1.tail, s2.tail); }
  }

  lemma {:induction false} ActsSame(s1: Scopes, s2: Scopes, r1: Scopes, r2: Scopes)
    requires Acts(s1, s2, r1, r2)
    ensures Same(r1, r2)
  {
    if s1.Cons? { ActsSame(s1.tail, s2.tail, r1.tail, r2.tail); }
  }

  lemma {:induction false} ActsTrans(s1: Scopes, s2: Scopes, t1: Scopes, t2: Scopes, r1: Scopes, r2: Scopes)
    requires Acts(s1, s2, t1, t2) && Acts(t1, t2, r1, r2)
    ensures Acts(s1, s2, r1, r2)
  {
    if s1.Cons? { ActsTrans(s1.tail, s2.tail, t1.tail, t2.tail, r1.tail, r2.tail); }
  }

  lemma {:induction false} ActsMark(s1: Scopes, s2: Scopes, x: string, pending: bool)
    requires Same(s1, s2)
    ensures Acts(s1, s2, Mark(s1, x, pending), Mark(s2, x, pending))
  {
    if s1.Cons? {
      ActsRefl(s1.tail, s2.tail);
      ActsMark(s1.tail, s2.tail, x, pending);
    }
  }

  lemma {:induction false} ActsDefine(s1: Scopes, s2: Scopes, x: string, isResult: bool)
    requires Same(s1, s2)
    ensures Acts(s1, s2, Define(s1, x, isResult), Define(s2, x, isResult))
  {
    ActsRefl(s1, s2);
  }

  lemma {:induction false} ActsOr(s1: Scopes, s2: Scopes, r1: Scopes, r2: Scopes, t1: Scopes, t2: Scopes)
    requires Acts(s1, s2, r1, r2) && Acts(s1, s2, t1, t2) && Same(r1, t1) && Same(r2, t2)
    ensures Acts(s1, s2, Or(r1, t1), Or(r2, t2))
  {
    if s1.Cons? { ActsOr(s1.tail, s2.tail, r1.tail, r2.tail, t1.tail, t2.tail); }
  }

  lemma {:induction false} ActsFlow(e: Expr, s1: Scopes, s2: Scopes)
    requires Same(s1, s2)
    ensures Acts(s1, s2, Flow(e, s1), Flow(e, s2))
    decreases e
  {
    ActsRefl(s1, s2);
    match e
    case Ident(_) =>
    case Node(args) => ActsFlowAll(args, s1, s2);
    case UnwrapOr(v, d) =>
      ActsFlow(v, s1, s2);
      var t1, t2 := Flow(v, s1), Flow(v, s2);
      ActsSame(s1, s2, t1, t2);
      ActsConsume(t1, t2, v);
      ActsTrans(s1, s2, t1, t2, Consume(t1, v), Consume(t2, v));
      ActsSame(s1, s2, Consume(t1, v), Consume(t2, v));
      ActsFlow(d, Consume(t1, v), Consume(t2, v));
      ActsTrans(s1, s2, Consume(t1, v), Consume(t2, v), Flow(e, s1), Flow(e, s2));
  }

  lemma {:induction false} ActsConsume(s1: Scopes, s2: Scopes, e: Expr)
    requires Same(s1, s2)
    ensures Acts(s1, s2, Consume(s1, e), Consume(s2, e))
  {
    ActsRefl(s1, s2);
    if e.Ident? { ActsMark(s1, s2, e.name, false); }
  }

  lemma {:induction false} ActsFlowAll(es: seq<Expr>, s1: Scopes, s2: Scopes)
    requires Same(s1, s2)
    ensures Acts(s1, s2, FlowAll(es, s1), FlowAll(es, s2))
    decreases es
  {
    ActsRefl(s1, s2);
    if es != [] {
      ActsFlow(es[0], s1, s2);
      ActsSame(s1, s2, Flow(es[0], s1), Flow(es[0], s2));
      ActsFlowAll(es[1..], Flow(es[0], s1), Flow(es[0], s2));
      ActsTrans(s1, s2, Flow(es[0], s1), Flow(es[0], s2), FlowAll(es, s1), FlowAll(es, s2));
    }
  }

  lemma {:induction false} ActsEntry(loop: Loop, s1: Scopes, s2: Scopes)
    requires Same(s1, s2)
    ensures Acts(Push(s1), Push(s2), Entry(loop, s1), Entry(loop, s2)) && Same(Entry(loop, s1), Entry(loop, s2))
  {
    ActsRefl(Push(s1), Push(s2));
    if loop.While? { ActsFlow(loop.cond, Push(s1), Push(s2)); } else { ActsDefine(Push(s1), Push(s2), loop.name, false); }
    ActsSame(Push(s1), Push(s2), Entry(loop, s1), Entry(loop, s2));
  }

  // A block entered with `e1`, `e2` in place of the pushed states and left again.
  lemma {:induction false} ActsBlock(body: seq<Stmt>, s1: Scopes, s2: Scopes, e1: Scopes, e2: Scopes)
    requires Acts(Push(s1), Push(s2), e1, e2)
    ensures Acts(s1, s2, Pop(AfterAll(body, e1)), Pop(AfterAll(body, e2)))
    decreases body, 1
  {
    ActsSame(Push(s1), Push(s2), e1, e2);
    ActsAll(body, e1, e2);
    ActsTrans(Push(s1), Push(s2), e1, e2, AfterAll(body, e1), AfterAll(body, e2));
  }

  // A block does not change what bindings there are around it.
  lemma {:induction false} BlockSame(body: seq<Stmt>, s: Scopes, e: Scopes)
    requires e.Cons? && Same(e.tail, s)
    ensures Same(Pop(AfterAll(body, e)), s) && AfterAll(body, e).Cons?
    decreases body, 1
  {
    AllTail(body, e);
    SameTrans(Pop(AfterAll(body, e)), e.tail, s);
  }

  lemma {:induction false} AllTail(body: seq<Stmt>, s: Scopes)
    requires s.Cons?
    ensures AfterAll(body, s).Cons? && Same(AfterAll(body, s).tail, s.tail)
    decreases body, 0
  {
    SameRefl(s.tail);
    if body != [] {
      StmtTail(body[0], s);
      AllTail(body[1..], After(body[0], s));
      SameTrans(AfterAll(body, s).tail, After(body[0], s).tail, s.tail);
    }
  }

  lemma {:induction false} StmtTail(st: Stmt, s: Scopes)
    requires s.Cons?
    ensures After(st, s).Cons? && Same(After(st, s).tail, s.tail)
    ensures !st.Let? ==> Same(After(st, s), s)
    decreases st, 0
  {
    SameRefl(s);
    match st
    case Let(x, r, e) => FlowSame(e, s);
    case Set(x, e) =>
      FlowSame(e, s);
      var b := Lookup(s, x);
      if b.Some? {
        MarkSame(Flow(e, s), x, b.value.isResult);
        SameTrans(After(st, s), Flow(e, s), s);
      }
    case Return(e) => ConsumedSame(e, s);
    case Do(e, _) => FlowSame(e, s);
    case If(c, t, f) =>
      var before := Flow(c, s);
      FlowSame(c, s);
      SameRefl(before);
      BlockSame(t, before, Push(before));
      BlockSame(f, before, Push(before));
      JoinedSame(t, Pop(AfterAll(t, Push(before))), f, Pop(AfterAll(f, Push(before))), before);
      SameTrans(After(st, s), before, s);
    case Match(e, okName, okR, ok, errName, errR, err) =>
      var before := Consume(Flow(e, s), e);
      ConsumedSame(e, s);
      SameRefl(before);
      var eo, ee := Define(Push(before), okName, okR), Define(Push(before), errName, errR);
      BlockSame(ok, before, eo);
      BlockSame(err, before, ee);
      JoinedSame(ok, Pop(AfterAll(ok, eo)), err, Pop(AfterAll(err, ee)), before);
      SameTrans(After(st, s), before, s);
    case Transaction(conn, body) => BlockSame(body, s, DefinePlain(Push(s), conn));
    case Repeat(loop, body) => LoopSame(loop, body, s);
  }

  lemma {:induction false} LoopSame(loop: Loop, body: seq<Stmt>, s: Scopes)
    ensures var h := Headers(loop, s);
            var once := Pop(AfterAll(body, Entry(loop, h)));
            Same(h, s) && Same(h, once) && Same(once, s) && Same(s, once) && Same(Or(s, once), s)
    decreases body, 2
  {
    SameRefl(s);
    var h := Headers(loop, s);
    HeadersLeq(loop, s, s);
    LeqSame(h, s);
    SameRefl(h);
    EntryLeq(loop, h, h);
    LeqSame(Entry(loop, h).tail, h);
    BlockSame(body, h, Entry(loop, h));
    var once := Pop(AfterAll(body, Entry(loop, h)));
    SameTrans(once, h, s);
    SameTrans(once, s, s);
    OrUpper(s, once);
    LeqSame(s, Or(s, once));
    SameTrans(h, once, once) by { SameRefl(once); assert Same(h, once) by { SameTrans(once, h, h); } }
  }

  lemma {:induction false} JoinedSame(t: seq<Stmt>, at: Scopes, f: seq<Stmt>, af: Scopes, s: Scopes)
    requires Same(at, s) && Same(af, s)
    ensures Same(Joined(t, at, f, af), s)
  {
    SameTrans(af, s, s) by { SameRefl(s); }
    SameTrans(at, s, af);
    OrUpper(at, af);
    LeqSame(at, Or(at, af));
    SameTrans(Or(at, af), at, s);
  }

  lemma {:induction false} FlowSame(e: Expr, s: Scopes)
    ensures Same(Flow(e, s), s) && Leq(Flow(e, s), s)
  {
    SameRefl(s);
    FlowLeq(e, s, s);
    LeqSame(Flow(e, s), s);
  }

  lemma {:induction false} ConsumedSame(e: Expr, s: Scopes)
    ensures Same(Consume(Flow(e, s), e), s)
  {
    FlowSame(e, s);
    SameRefl(Flow(e, s));
    if e.Ident? { MarkSame(Flow(e, s), e.name, false); }
    SameTrans(Consume(Flow(e, s), e), Flow(e, s), s);
  }

  lemma {:induction false} ActsAll(body: seq<Stmt>, s1: Scopes, s2: Scopes)
    requires Same(s1, s2)
    ensures Acts(s1, s2, AfterAll(body, s1), AfterAll(body, s2))
    decreases body, 0
  {
    ActsRefl(s1, s2);
    if body != [] {
      var t1, t2 := After(body[0], s1), After(body[0], s2);
      ActsStmt(body[0], s1, s2);
      ActsSame(s1, s2, t1, t2);
      ActsAll(body[1..], t1, t2);
      ActsTrans(s1, s2, t1, t2, AfterAll(body, s1), AfterAll(body, s2));
    }
  }

  lemma {:induction false} ActsStmt(st: Stmt, s1: Scopes, s2: Scopes)
    requires Same(s1, s2)
    ensures Acts(s1, s2, After(st, s1), After(st, s2))
    decreases st, 0
  {
    ActsRefl(s1, s2);
    match st
    case Let(x, r, e) =>
      var t1, t2 := Flow(e, s1), Flow(e, s2);
      ActsFlow(e, s1, s2);
      ActsSame(s1, s2, t1, t2);
      ActsDefine(t1, t2, x, r);
      ActsTrans(s1, s2, t1, t2, After(st, s1), After(st, s2));
    case Set(x, e) =>
      var t1, t2 := Flow(e, s1), Flow(e, s2);
      ActsFlow(e, s1, s2);
      ActsSame(s1, s2, t1, t2);
      LookupSame(s1, s2, x);
      if Lookup(s1, x).Some? {
        ActsMark(t1, t2, x, Lookup(s1, x).value.isResult);
        ActsTrans(s1, s2, t1, t2, After(st, s1), After(st, s2));
      }
    case Return(e) => ActsConsumed(e, s1, s2);
    case Do(e, _) => ActsFlow(e, s1, s2);
    case If(c, t, f) =>
      var b1, b2 := Flow(c, s1), Flow(c, s2);
      ActsFlow(c, s1, s2);
      ActsSame(s1, s2, b1, b2);
      ActsRefl(Push(b1), Push(b2));
      ActsBlock(t, b1, b2, Push(b1), Push(b2));
      ActsBlock(f, b1, b2, Push(b1), Push(b2));
      BranchesSame(t, Push(b1), f, Push(b1), b1);
      BranchesSame(t, Push(b2), f, Push(b2), b2);
      ActsJoined(t, Pop(AfterAll(t, Push(b1))), Pop(AfterAll(t, Push(b2))), f, Pop(AfterAll(f, Push(b1))), Pop(AfterAll(f, Push(b2))), b1, b2);
      ActsTrans(s1, s2, b1, b2, After(st, s1), After(st, s2));
    case Match(e, okName, okR, ok, errName, errR, err) =>
      var b1, b2 := Consume(Flow(e, s1), e), Consume(Flow(e, s2), e);
      ActsConsumed(e, s1, s2);
      ActsSame(s1, s2, b1, b2);
      var o1, o2 := Define(Push(b1), okName, okR), Define(Push(b2), okName, okR);
      var e1, e2 := Define(Push(b1), errName, errR), Define(Push(b2), errName, errR);
      ActsDefine(Push(b1), Push(b2), okName, okR);
      ActsDefine(Push(b1), Push(b2), errName, errR);
      ActsBlock(ok, b1, b2, o1, o2);
      ActsBlock(err, b1, b2, e1, e2);
      BranchesSame(ok, o1, err, e1, b1);
      BranchesSame(ok, o2, err, e2, b2);
      ActsJoined(ok, Pop(AfterAll(ok, o1)), Pop(AfterAll(ok, o2)), err, Pop(AfterAll(err, e1)), Pop(AfterAll(err, e2)), b1, b2);
      ActsTrans(s1, s2, b1, b2, After(st, s1), After(st, s2));
    case Transaction(conn, body) =>
      ActsDefine(Push(s1), Push(s2), conn, false);
      ActsBlock(body, s1, s2, DefinePlain(Push(s1), conn), DefinePlain(Push(s2), conn));
    case Repeat(loop, body) =>
      ActsHeaders(loop, s1, s2);
      var h1, h2 := Headers(loop, s1), Headers(loop, s2);
      var o1, o2 := Pop(AfterAll(body, Entry(loop, h1))), Pop(AfterAll(body, Entry(loop, h2)));
      ActsSame(s1, s2, h1, h2);
      ActsEntry(loop, h1, h2);
      ActsBlock(body, h1, h2, Entry(loop, h1), Entry(loop, h2));
      ActsTrans(s1, s2, h1, h2, o1, o2);
      LoopSame(loop, body, s1);
      LoopSame(loop, body, s2);
      ActsOr(s1, s2, s1, s2, o1, o2);
  }

  lemma {:induction false} ActsHeaders(loop: Loop, s1: Scopes, s2: Scopes)
    requires Same(s1, s2)
    ensures Acts(s1, s2, Headers(loop, s1), Headers(loop, s2))
  {
    ActsRefl(s1, s2);
    if loop.For? { ActsFlowAll(loop.headers, s1, s2); }
  }

  lemma {:induction false} ActsConsumed(e: Expr, s1: Scopes, s2: Scopes)
    requires Same(s1, s2)
    ensures Acts(s1, s2, Consume(Flow(e, s1), e), Consume(Flow(e, s2), e))
  {
    var t1, t2 := Flow(e, s1), Flow(e, s2);
    ActsFlow(e, s1, s2);
    ActsSame(s1, s2, t1, t2);
    ActsConsume(t1, t2, e);
    ActsTrans(s1, s2, t1, t2, Consume(t1, e), Consume(t2, e));
  }

  lemma {:induction false} ActsJoined(t: seq<Stmt>, p1: Scopes, p2: Scopes, f: seq<Stmt>, q1: Scopes, q2: Scopes, b1: Scopes, b2: Scopes)
    requires Acts(b1, b2, p1, p2) && Acts(b1, b2, q1, q2) && Same(p1, q1) && Same(p2, q2)
    ensures Acts(b1, b2, Joined(t, p1, f, q1), Joined(t, p2, f, q2))
  {
    ActsOr(b1, b2, p1, p2, q1, q2);
  }

  // ----- One pass covers all iterations -----

  // Analysing the body once more from where iterations start leads nowhere new.
  lemma {:induction false} OnceMore(h: Scopes, once: Scopes, more: Scopes)
    requires Same(h, once) && Acts(h, Or(h, once), once, more)
    ensures Leq(more, Or(h, once))
  {
    if h.Cons? { OnceMore(h.tail, once.tail, more.tail); }
  }

  lemma {:induction false} StartsStable(loop: Loop, body: seq<Stmt>, s: Scopes)
    ensures var starts := Starts(loop, body, s);
            && Leq(Pop(AfterAll(body, Entry(loop, starts))), starts)
            && Leq(Headers(loop, s), starts)
            && Leq(starts, After(Repeat(loop, body), s))
  {
    var h := Headers(loop, s);
    var once := Pop(AfterAll(body, Entry(loop, h)));
    var starts := Or(h, once);
    LoopSame(loop, body, s);
    OrUpper(h, once);
    LeqSame(h, starts);
    ActsEntry(loop, h, starts);
    ActsBlock(body, h, starts, Entry(loop, h), Entry(loop, starts));
    OnceMore(h, once, Pop(AfterAll(body, Entry(loop, starts))));
    SameRefl(s);
    HeadersLeq(loop, s, s);
    OrUpper(s, once);
    LeqTrans(h, s, Or(s, once));
    OrLeast(h, once, Or(s, once));
  }

  // The state after two branches is above the branch that was taken and came back.
  lemma {:induction false} JoinedLeq(t: seq<Stmt>, at: Scopes, f: seq<Stmt>, af: Scopes, c: Scopes, first: bool)
    requires Same(at, af) && Same(af, at)
    requires if first then Leq(c, at) && !Returns(t) else Leq(c, af) && !Returns(f)
    ensures Leq(c, Joined(t, at, f, af))
  {
    OrUpper(at, af);
    if first { LeqTrans(c, at, Or(at, af)); } else { LeqTrans(c, af, Or(at, af)); }
  }

  lemma {:induction false} BranchesSame(t: seq<Stmt>, et: Scopes, f: seq<Stmt>, ef: Scopes, before: Scopes)
    requires et.Cons? && et.tail == before && ef.Cons? && ef.tail == before
    ensures Same(Pop(AfterAll(t, et)), Pop(AfterAll(f, ef))) && Same(Pop(AfterAll(f, ef)), Pop(AfterAll(t, et)))
  {
    SameRefl(before);
    BlockSame(t, before, et);
    BlockSame(f, before, ef);
    SameTrans(Pop(AfterAll(f, ef)), before, before);
    SameTrans(Pop(AfterAll(t, et)), before, Pop(AfterAll(f, ef)));
    SameTrans(Pop(AfterAll(f, ef)), before, Pop(AfterAll(t, et)));
  }

  // Whatever the choices, a run that comes to the end of a statement is below the checker's state
  // there, and a statement that returns on every path never comes to its end.
  lemma {:induction false} Covers(st: Stmt, c: Scopes, a: Scopes, ch: seq<bool>)
    requires Leq(c, a) && c.Cons? && Exec(st, c, ch).outcome == Normal
    ensures Leq(Exec(st, c, ch).scopes, After(st, a)) && !ReturnsStmt(st)
    decreases |ch|, st, 1
  {
    match st
    case Let(x, r, e) => FlowLeq(e, c, a);
    case Set(x, e) =>
      FlowLeq(e, c, a);
      FlowSame(e, c);
      LookupSame(Flow(e, c), c, x);
      LookupLeq(c, a, x);
      if Lookup(c, x).Some? { MarkLeq(Flow(e, c), Flow(e, a), x, Lookup(c, x).value.isResult); }
    case Return(e) =>
    case Do(e, _) => FlowLeq(e, c, a);
    case If(_, _, _) => CoversIf(st, c, a, ch);
    case Match(_, _, _, _, _, _, _) => CoversMatch(st, c, a, ch);
    case Transaction(conn, body) =>
      CoversBlock(body, DefinePlain(Push(c), conn), DefinePlain(Push(a), conn), ch);
    case Repeat(loop, body) =>
      StartsStable(loop, body, a);
      HeadersLeq(loop, c, a);
      LeqTrans(Headers(loop, c), Headers(loop, a), Starts(loop, body, a));
      CoversLoop(st, Headers(loop, c), a, ch);
  }

  lemma {:induction false} CoversIf(st: Stmt, c: Scopes, a: Scopes, ch: seq<bool>)
    requires st.If? && Leq(c, a) && c.Cons? && Exec(st, c, ch).outcome == Normal
    ensures Leq(Exec(st, c, ch).scopes, After(st, a)) && !ReturnsStmt(st)
    decreases |ch|, st, 0
  {
    var If(e, t, f) := st;
    var bc, ba := Flow(e, c), Flow(e, a);
    FlowLeq(e, c, a);
    BranchesSame(t, Push(ba), f, Push(ba), ba);
    CoversBlock(if ch[0] then t else f, Push(bc), Push(ba), ch[1..]);
    JoinedLeq(t, Pop(AfterAll(t, Push(ba))), f, Pop(AfterAll(f, Push(ba))), Exec(st, c, ch).scopes, ch[0]);
  }

  lemma {:induction false} CoversMatch(st: Stmt, c: Scopes, a: Scopes, ch: seq<bool>)
    requires st.Match? && Leq(c, a) && c.Cons? && Exec(st, c, ch).outcome == Normal
    ensures Leq(Exec(st, c, ch).scopes, After(st, a)) && !ReturnsStmt(st)
    decreases |ch|, st, 0
  {
    var Match(e, okName, okR, ok, errName, errR, err) := st;
    var bc, ba := Consume(Flow(e, c), e), Consume(Flow(e, a), e);
    FlowLeq(e, c, a);
    ConsumeLeq(Flow(e, c), Flow(e, a), e);
    var eo, ee := Define(Push(ba), okName, okR), Define(Push(ba), errName, errR);
    BranchesSame(ok, eo, err, ee, ba);
    if ch[0] {
      CoversBlock(ok, Define(Push(bc), okName, okR), eo, ch[1..]);
    } else {
      CoversBlock(err, Define(Push(bc), errName, errR), ee, ch[1..]);
    }
    JoinedLeq(ok, Pop(AfterAll(ok, eo)), err, Pop(AfterAll(err, ee)), Exec(st, c, ch).scopes, ch[0]);
  }

  lemma {:induction false} CoversBlock(body: seq<Stmt>, c: Scopes, a: Scopes, ch: seq<bool>)
    requires Leq(c, a) && c.Cons? && LeaveBlock(ExecAll(body, c, ch)).outcome == Normal
    ensures Leq(LeaveBlock(ExecAll(body, c, ch)).scopes, Pop(AfterAll(body, a))) && !Returns(body)
    decreases |ch|, body, 1
  {
    CoversAll(body, c, a, ch);
  }

  lemma {:induction false} CoversAll(body: seq<Stmt>, c: Scopes, a: Scopes, ch: seq<bool>)
    requires Leq(c, a) && c.Cons? && ExecAll(body, c, ch).outcome == Normal
    ensures Leq(ExecAll(body, c, ch).scopes, AfterAll(body, a)) && !Returns(body)
    decreases |ch|, body, 0
  {
    if body != [] {
      Covers(body[0], c, a, ch);
      var r := Exec(body[0], c, ch);
      StmtTail(body[0], a);
      CoversAll(body[1..], r.scopes, After(body[0], a), r.rest);
    }
  }

  // After any number of iterations, even when the body sets outer results.
  lemma {:induction false} CoversLoop(st: Stmt, c: Scopes, a: Scopes, ch: seq<bool>)
    requires st.Repeat? && Leq(c, Starts(st.loop, st.body, a)) && c.Cons?
    requires Iterate(st, c, ch).outcome == Normal
    ensures Leq(Iterate(st, c, ch).scopes, After(st, a))
    decreases |ch|, st, 0
  {
    var starts := Starts(st.loop, st.body, a);
    StartsStable(st.loop, st.body, a);
    if !ch[0] {
      SameRefl(c);
      if st.loop.While? { FlowLeq(st.loop.cond, c, c); }
      LeqTrans(Iterate(st, c, ch).scopes, c, starts);
      LeqTrans(Iterate(st, c, ch).scopes, starts, After(st, a));
    } else {
      EntryLeq(st.loop, c, starts);
      CoversBlock(st.body, Entry(st.loop, c), Entry(st.loop, starts), ch[1..]);
      var r := LeaveBlock(ExecAll(st.body, Entry(st.loop, c), ch[1..]));
      LeqTrans(r.scopes, Pop(AfterAll(st.body, Entry(st.loop, starts))), starts);
      CoversLoop(st, r.scopes, a, r.rest);
    }
  }

  // ----- Clean on both passes: safe on every run -----

  lemma {:induction false} Sound(st: Stmt, c: Scopes, a: Scopes, ch: seq<bool>)
    requires Leq(c, a) && c.Cons? && Clean(st, a, true)
    ensures !Exec(st, c, ch).bad
    decreases |ch|, st, 1
  {
    match st
    case Let(x, r, e) => FlowLeq(e, c, a);
    case Set(x, e) =>
      FlowLeq(e, c, a);
      LookupLeq(c, a, x);
      LookupLeq(Flow(e, c), c, x);
    case Return(e) =>
      FlowLeq(e, c, a);
      ConsumeLeq(Flow(e, c), Flow(e, a), e);
      NonePendingLeq(Consume(Flow(e, c), e), Consume(Flow(e, a), e));
    case Do(e, _) => FlowLeq(e, c, a);
    case If(e, t, f) =>
      FlowLeq(e, c, a);
      if ch != [] {
        SoundBlock(if ch[0] then t else f, Push(Flow(e, c)), Push(Flow(e, a)), ch[1..]);
      }
    case Match(e, okName, okR, ok, errName, errR, err) =>
      FlowLeq(e, c, a);
      ConsumeLeq(Flow(e, c), Flow(e, a), e);
      var bc, ba := Consume(Flow(e, c), e), Consume(Flow(e, a), e);
      if ch != [] {
        if ch[0] {
          SoundBlock(ok, Define(Push(bc), okName, okR), Define(Push(ba), okName, okR), ch[1..]);
        } else {
          SoundBlock(err, Define(Push(bc), errName, errR), Define(Push(ba), errName, errR), ch[1..]);
        }
      }
    case Transaction(conn, body) =>
      LookupLeq(c, a, conn);
      SoundBlock(body, DefinePlain(Push(c), conn), DefinePlain(Push(a), conn), ch);
    case Repeat(loop, body) =>
      StartsStable(loop, body, a);
      HeadersLeq(loop, c, a);
      LeqTrans(Headers(loop, c), Headers(loop, a), Starts(loop, body, a));
      SoundLoop(st, Headers(loop, c), a, ch);
  }

  lemma {:induction false} SoundBlock(body: seq<Stmt>, c: Scopes, a: Scopes, ch: seq<bool>)
    requires Leq(c, a) && c.Cons? && CleanBlock(body, a, true)
    ensures !LeaveBlock(ExecAll(body, c, ch)).bad
    decreases |ch|, body, 1
  {
    SoundAll(body, c, a, ch);
    if ExecAll(body, c, ch).outcome == Normal {
      CoversAll(body, c, a, ch);
    }
  }

  lemma {:induction false} SoundAll(body: seq<Stmt>, c: Scopes, a: Scopes, ch: seq<bool>)
    requires Leq(c, a) && c.Cons? && CleanAll(body, a, true)
    ensures !ExecAll(body, c, ch).bad
    decreases |ch|, body, 0
  {
    if body != [] {
      Sound(body[0], c, a, ch);
      var r := Exec(body[0], c, ch);
      if r.outcome == Normal {
        Covers(body[0], c, a, ch);
        StmtTail(body[0], a);
        SoundAll(body[1..], r.scopes, After(body[0], a), r.rest);
      }
    }
  }

  lemma {:induction false} SoundLoop(st: Stmt, c: Scopes, a: Scopes, ch: seq<bool>)
    requires st.Repeat? && Leq(c, Starts(st.loop, st.body, a)) && c.Cons? && Clean(st, a, true)
    ensures !Iterate(st, c, ch).bad
    decreases |ch|, st, 0
  {
    var starts := Starts(st.loop, st.body, a);
    if ch != [] && ch[0] {
      StartsStable(st.loop, st.body, a);
      EntryLeq(st.loop, c, starts);
      SoundBlock(st.body, Entry(st.loop, c), Entry(st.loop, starts), ch[1..]);
      var r := LeaveBlock(ExecAll(st.body, Entry(st.loop, c), ch[1..]));
      if r.outcome == Normal {
        CoversBlock(st.body, Entry(st.loop, c), Entry(st.loop, starts), ch[1..]);
        LeqTrans(r.scopes, Pop(AfterAll(st.body, Entry(st.loop, starts))), starts);
        SoundLoop(st, r.scopes, a, r.rest);
      }
    }
  }

  // ----- Loops that do not set outer results: the single pass is enough -----

  function Depth(s: Scopes): nat { if s.Nil? then 0 else 1 + Depth(s.tail) }

  // The outermost d scopes.
  function Outer(s: Scopes, d: nat): Scopes
  {
    if Depth(s) <= d then s else Outer(s.tail, d)
  }

  // x is declared in a scope inside the outermost d, so that is where it resolves.
  predicate Inner(s: Scopes, d: nat, x: string) {
    Depth(s) > d && (x in s.head || Inner(s.tail, d, x))
  }

  // No `set` of a result variable of the outermost d scopes.
  predicate Keeps(st: Stmt, s: Scopes, d: nat)
    decreases st, 0
  {
    match st
    case Set(x, e) => Inner(s, d, x) || (Lookup(s, x).Some? ==> !Lookup(s, x).value.isResult)
    case If(c, t, f) => KeepsAll(t, Push(Flow(c, s)), d) && KeepsAll(f, Push(Flow(c, s)), d)
    case Match(e, okName, okR, ok, errName, errR, err) =>
      var before := Consume(Flow(e, s), e);
      KeepsAll(ok, Define(Push(before), okName, okR), d) && KeepsAll(err, Define(Push(before), errName, errR), d)
    case Transaction(conn, body) => KeepsAll(body, DefinePlain(Push(s), conn), d)
    case Repeat(loop, body) => KeepsAll(body, Entry(loop, Headers(loop, s)), d)
    case Let(_, _, _) => true
    case Return(_) => true
    case Do(_, _) => true
  }

  predicate KeepsAll(body: seq<Stmt>, s: Scopes, d: nat)
    decreases body
  {
    body == [] || (Keeps(body[0], s, d) && KeepsAll(body[1..], After(body[0], s), d))
  }

  // Every loop in the body keeps the results declared outside of it.
  predicate LoopsKeep(st: Stmt, s: Scopes)
    decreases st, 0
  {
    match st
    case If(c, t, f) => LoopsKeepAll(t, Push(Flow(c, s))) && LoopsKeepAll(f, Push(Flow(c, s)))
    case Match(e, okName, okR, ok, errName, errR, err) =>
      var before := Consume(Flow(e, s), e);
      LoopsKeepAll(ok, Define(Push(before), okName, okR)) && LoopsKeepAll(err, Define(Push(before), errName, errR))
    case Transaction(conn, body) => LoopsKeepAll(body, DefinePlain(Push(s), conn))
    case Repeat(loop, body) =>
      var entry := Entry(loop, Headers(loop, s));
      KeepsAll(body, entry, Depth(s)) && LoopsKeepAll(body, entry)
    case Set(_, _) => true
    case Let(_, _, _) => true
    case Return(_) => true
    case Do(_, _) => true
  }

  predicate LoopsKeepAll(body: seq<Stmt>, s: Scopes)
    decreases body
  {
    body == [] || (LoopsKeep(body[0], s) && LoopsKeepAll(body[1..], After(body[0], s)))
  }

  lemma {:induction false} SameDepth(c: Scopes, a: Scopes)
    requires Same(c, a)
    ensures Depth(c) == Depth(a)
  {
    if c.Cons? { SameDepth(c.tail, a.tail); }
  }

  lemma {:induction false} OuterLeq(c: Scopes, a: Scopes, d: nat)
    requires Leq(c, a)
    ensures Leq(Outer(c, d), Outer(a, d))
  {
    LeqSame(c, a);
    SameDepth(c, a);
    if Depth(c) > d { OuterLeq(c.tail, a.tail, d); }
  }

  lemma {:induction false} MarkOuter(s: Scopes, x: string, d: nat, pending: bool)
    requires Inner(s, d, x) || !pending
    ensures Leq(Outer(Mark(s, x, pending), d), Outer(s, d))
  {
    MarkSame(s, x, pending);
    SameDepth(Mark(s, x, pending), s);
    if !pending {
      ClearBelow(s, x);
      OuterLeq(Mark(s, x, pending), s, d);
    } else {
      SameRefl(Outer(s, d));
      if x !in s.head {
        MarkSame(s.tail, x, pending);
        SameDepth(Mark(s.tail, x, pending), s.tail);
        MarkOuter(s.tail, x, d, pending);
      }
    }
  }

  lemma {:induction false} InnerFlow(e: Expr, s: Scopes, d: nat, x: string)
    ensures Inner(Flow(e, s), d, x) == Inner(s, d, x)
  {
    FlowSame(e, s);
    InnerSame(Flow(e, s), s, d, x);
  }

  lemma {:induction false} InnerSame(c: Scopes, a: Scopes, d: nat, x: string)
    requires Same(c, a)
    ensures Inner(c, d, x) == Inner(a, d, x)
  {
    SameDepth(c, a);
    if c.Cons? { InnerSame(c.tail, a.tail, d, x); }
  }

  lemma {:induction false} KeepsStmt(st: Stmt, s: Scopes, d: nat)
    requires s.Cons? && Depth(s) >= d && Keeps(st, s, d)
    requires Depth(s) == d ==> !st.Let?
    ensures Leq(Outer(After(st, s), d), Outer(s, d))
    decreases st, 0
  {
    match st
    case Let(x, r, e) =>
      FlowSame(e, s);
      SameDepth(Flow(e, s), s);
      OuterLeq(Flow(e, s), s, d);
      assert Outer(After(st, s), d) == Outer(Flow(e, s), d);
    case Set(x, e) =>
      FlowSame(e, s);
      OuterLeq(Flow(e, s), s, d);
      InnerFlow(e, s, d, x);
      var b := Lookup(s, x);
      if b.Some? {
        MarkOuter(Flow(e, s), x, d, b.value.isResult);
        LeqTrans(Outer(After(st, s), d), Outer(Flow(e, s), d), Outer(s, d));
      }
    case Return(e) => ConsumedBelow(e, s); OuterLeq(After(st, s), s, d);
    case Do(e, _) => FlowSame(e, s); OuterLeq(Flow(e, s), s, d);
    case If(c, t, f) =>
      var before := Flow(c, s);
      FlowSame(c, s);
      SameDepth(before, s);
      OuterLeq(before, s, d);
      KeepsBlock(t, before, Push(before), d);
      KeepsBlock(f, before, Push(before), d);
      KeepsJoined(t, Push(before), f, Push(before), before, s, d);
    case Match(e, okName, okR, ok, errName, errR, err) =>
      var before := Consume(Flow(e, s), e);
      ConsumedBelow(e, s);
      ConsumedSame(e, s);
      SameDepth(before, s);
      OuterLeq(before, s, d);
      KeepsBlock(ok, before, Define(Push(before), okName, okR), d);
      KeepsBlock(err, before, Define(Push(before), errName, errR), d);
      KeepsJoined(ok, Define(Push(before), okName, okR), err, Define(Push(before), errName, errR), before, s, d);
    case Transaction(conn, body) => KeepsBlock(body, s, DefinePlain(Push(s), conn), d);
    case Repeat(loop, body) =>
      var h := Headers(loop, s);
      SameRefl(s);
      HeadersLeq(loop, s, s);
      LeqSame(h, s);
      SameDepth(h, s);
      SameRefl(h);
      EntryLeq(loop, h, h);
      LeqSame(Entry(loop, h).tail, h);
      SameDepth(Entry(loop, h).tail, h);
      KeepsAllOuter(body, Entry(loop, h), d);
      var once := Pop(AfterAll(body, Entry(loop, h)));
      LoopSame(loop, body, s);
      SameDepth(once, s);
      SameDepth(After(st, s), s);
      OuterLeq(h, s, d);
      OuterLeq(Entry(loop, h).tail, h, d);
      LeqTrans(Outer(Entry(loop, h), d), Outer(h, d), Outer(s, d));
      LeqTrans(Outer(once, d), Outer(Entry(loop, h), d), Outer(s, d));
      OuterOr(s, once, d);
      SameRefl(Outer(s, d));
      OrLeast(Outer(s, d), Outer(once, d), Outer(s, d));
  }

  lemma {:induction false} ConsumedBelow(e: Expr, s: Scopes)
    ensures Leq(Consume(Flow(e, s), e), s)
  {
    FlowSame(e, s);
    if e.Ident? {
      ClearBelow(Flow(e, s), e.name);
      LeqTrans(Consume(Flow(e, s), e), Flow(e, s), s);
    }
  }

  lemma {:induction false} OuterOr(a: Scopes, b: Scopes, d: nat)
    requires Same(a, b)
    ensures Outer(Or(a, b), d) == Or(Outer(a, d), Outer(b, d))
  {
    SameDepth(a, b);
    OrUpper(a, b);
    LeqSame(a, Or(a, b));
    SameDepth(a, Or(a, b));
    if Depth(a) > d { OuterOr(a.tail, b.tail, d); }
  }

  lemma {:induction false} KeepsBlock(body: seq<Stmt>, before: Scopes, e: Scopes, d: nat)
    requires e.Cons? && e.tail == before && Depth(before) >= d && KeepsAll(body, e, d)
    ensures Leq(Outer(Pop(AfterAll(body, e)), d), Outer(before, d))
    decreases body, 1
  {
    KeepsAllOuter(body, e, d);
    SameRefl(before);
    BlockSame(body, before, e);
    SameDepth(Pop(AfterAll(body, e)), before);
  }

  lemma {:induction false} KeepsJoined(t: seq<Stmt>, et: Scopes, f: seq<Stmt>, ef: Scopes, before: Scopes, s: Scopes, d: nat)
    requires et.Cons? && et.tail == before && ef.Cons? && ef.tail == before
    requires Leq(Outer(before, d), Outer(s, d))
    requires Leq(Outer(Pop(AfterAll(t, et)), d), Outer(before, d)) && Leq(Outer(Pop(AfterAll(f, ef)), d), Outer(before, d))
    ensures Leq(Outer(Joined(t, Pop(AfterAll(t, et)), f, Pop(AfterAll(f, ef))), d), Outer(s, d))
  {
    var at, af := Pop(AfterAll(t, et)), Pop(AfterAll(f, ef));
    BranchesSame(t, et, f, ef, before);
    OuterOr(at, af, d);
    OrLeast(Outer(at, d), Outer(af, d), Outer(before, d));
    LeqTrans(Outer(Joined(t, at, f, af), d), Outer(before, d), Outer(s, d));
  }

  // Bodies run in a scope of their own: only the scopes around it are kept.
  lemma {:induction false} KeepsAllOuter(body: seq<Stmt>, s: Scopes, d: nat)
    requires s.Cons? && Depth(s) > d && KeepsAll(body, s, d)
    ensures Leq(Outer(AfterAll(body, s), d), Outer(s, d))
    decreases body, 0
  {
    SameRefl(Outer(s, d));
    if body != [] {
      KeepsStmt(body[0], s, d);
      StmtTail(body[0], s);
      SameDepth(After(body[0], s).tail, s.tail);
      KeepsAllOuter(body[1..], After(body[0], s), d);
      LeqTrans(Outer(AfterAll(body, s), d), Outer(After(body[0], s), d), Outer(s, d));
    }
  }

  lemma {:induction false} OuterWhole(s: Scopes)
    ensures Outer(s, Depth(s)) == s
  {}

  // Iterations start where the loop was entered, so the second analysis is the first one again.
  lemma {:induction false} KeepingLoop(loop: Loop, body: seq<Stmt>, s: Scopes)
    requires KeepsAll(body, Entry(loop, Headers(loop, s)), Depth(s))
    ensures Starts(loop, body, s) == Headers(loop, s)
  {
    var h := Headers(loop, s);
    var entry := Entry(loop, h);
    var once := Pop(AfterAll(body, entry));
    SameRefl(h);
    EntryLeq(loop, h, h);
    LeqSame(entry.tail, h);
    LoopSame(loop, body, s);
    SameDepth(h, s);
    SameDepth(once, s);
    SameDepth(entry.tail, h);
    KeepsAllOuter(body, entry, Depth(s));
    BlockSame(body, h, entry);
    OuterWhole(once);
    OuterWhole(entry.tail);
    assert Outer(AfterAll(body, entry), Depth(s)) == once && Outer(entry, Depth(s)) == entry.tail;
    LeqTrans(once, entry.tail, h);
    OrAbsorbs(h, once);
  }

  lemma {:induction false} OnePassEnough(st: Stmt, s: Scopes)
    requires LoopsKeep(st, s) && Clean(st, s, false)
    ensures Clean(st, s, true)
    decreases st, 0
  {
    match st
    case If(c, t, f) =>
      OnePassEnoughAll(t, Push(Flow(c, s)));
      OnePassEnoughAll(f, Push(Flow(c, s)));
    case Match(e, okName, okR, ok, errName, errR, err) =>
      var before := Consume(Flow(e, s), e);
      OnePassEnoughAll(ok, Define(Push(before), okName, okR));
      OnePassEnoughAll(err, Define(Push(before), errName, errR));
    case Transaction(conn, body) => OnePassEnoughAll(body, DefinePlain(Push(s), conn));
    case Repeat(loop, body) =>
      KeepingLoop(loop, body, s);
      OnePassEnoughAll(body, Entry(loop, Headers(loop, s)));
    case Set(_, _) =>
    case Let(_, _, _) =>
    case Return(_) =>
    case Do(_, _) =>
  }

  lemma {:induction false} OnePassEnoughAll(body: seq<Stmt>, s: Scopes)
    requires LoopsKeepAll(body, s) && CleanAll(body, s, false)
    ensures CleanAll(body, s, true)
    decreases body, 1
  {
    if body != [] {
      OnePassEnough(body[0], s);
      OnePassEnoughAll(body[1..], After(body[0], s));
    }
  }
}
