/**
Exactness. In a body without dead code, whose loop headers and assigned values do not themselves
handle what they are about, a run misbehaves whenever the analysis with its second look at every
loop complains. So that second look is the exact condition under which the checker's verdict holds.
*/
module PendingExact {
  import opened Wrappers
  import opened PendingFlow
  import opened PendingSound

  // ----- Bodies on which the analysis is exact -----

  // The names an expression handles.
  function Consumed(e: Expr): set<string>
    decreases e
  {
    match e
    case Ident(_) => {}
    case Node(args) => ConsumedAll(args)
    case UnwrapOr(v, d) => Consumed(v) + Consumed(d) + (if v.Ident? then {v.name} else {})
  }

  function ConsumedAll(es: seq<Expr>): set<string>
    decreases es
  {
    if es == [] then {} else Consumed(es[0]) + ConsumedAll(es[1..])
  }

  predicate Tidy(st: Stmt)
    decreases st, 0
  {
    match st
    case Set(x, e) => x !in Consumed(e)
    case If(_, t, f) => TidyAll(t) && TidyAll(f)
    case Match(_, _, _, ok, _, _, err) => TidyAll(ok) && TidyAll(err)
    case Transaction(_, body) => TidyAll(body)
    case Repeat(loop, body) => (if loop.For? then ConsumedAll(loop.headers) else Consumed(loop.cond)) == {} && TidyAll(body)
    case Let(_, _, _) => true
    case Return(_) => true
    case Do(_, _) => true
  }

  // Nothing follows a statement that returns on every path.
  predicate TidyAll(body: seq<Stmt>)
    decreases body
  {
    body == [] || (Tidy(body[0]) && TidyAll(body[1..]) && (ReturnsStmt(body[0]) ==> body[1..] == []))
  }

  // ----- Positions: one pending bit, found by the depth of its scope and its name -----

  datatype Pos = Pos(depth: nat, name: string)

  predicate PendingAt(s: Scopes, p: Pos) {
    s.Cons? && (if Depth(s.tail) == p.depth then p.name in s.head && s.head[p.name].pending else PendingAt(s.tail, p))
  }

  ghost predicate Agrees(c: Scopes, a: Scopes, p: Pos) { PendingAt(c, p) == PendingAt(a, p) }

  lemma {:induction false} TooDeep(s: Scopes, p: Pos)
    requires p.depth >= Depth(s)
    ensures !PendingAt(s, p)
  {
    if s.Cons? { TooDeep(s.tail, p); }
  }

  lemma {:induction false} FindPending(s: Scopes) returns (p: Pos)
    requires !NonePending(s)
    ensures PendingAt(s, p)
  {
    if NoneIn(s.head) {
      p := FindPending(s.tail);
      if p.depth >= Depth(s.tail) { TooDeep(s.tail, p); }
    } else {
      var x :| x in s.head && s.head[x].pending;
      p := Pos(Depth(s.tail), x);
    }
  }

  lemma {:induction false} PendingSeen(s: Scopes, p: Pos)
    requires PendingAt(s, p)
    ensures !NonePending(s)
  {
    if Depth(s.tail) != p.depth { PendingSeen(s.tail, p); }
  }

  // Where the innermost x lives.
  lemma {:induction false} LookupPos(s: Scopes, x: string) returns (p: Pos)
    requires Lookup(s, x).Some?
    ensures p.name == x && p.depth < Depth(s) && PendingAt(s, p) == Lookup(s, x).value.pending
    ensures forall c: Scopes :: Same(c, s) ==> Lookup(c, x).Some? && PendingAt(c, p) == Lookup(c, x).value.pending
  {
    if x in s.head {
      p := Pos(Depth(s.tail), x);
      forall c: Scopes | Same(c, s) ensures Lookup(c, x).Some? && PendingAt(c, p) == Lookup(c, x).value.pending {
        SameDepth(c.tail, s.tail);
      }
    } else {
      p := LookupPos(s.tail, x);
      forall c: Scopes | Same(c, s) ensures Lookup(c, x).Some? && PendingAt(c, p) == Lookup(c, x).value.pending {
        SameDepth(c.tail, s.tail);
      }
    }
  }

  lemma {:induction false} MarkAgrees(c: Scopes, a: Scopes, x: string, pending: bool, p: Pos)
    requires Same(c, a) && Agrees(c, a, p)
    ensures Agrees(Mark(c, x, pending), Mark(a, x, pending), p)
  {
    if c.Cons? {
      SameDepth(c.tail, a.tail);
      MarkSame(c.tail, x, pending);
      MarkSame(a.tail, x, pending);
      SameDepth(Mark(c.tail, x, pending), c.tail);
      SameDepth(Mark(a.tail, x, pending), a.tail);
      if x !in c.head && Depth(c.tail) != p.depth { MarkAgrees(c.tail, a.tail, x, pending, p); }
    }
  }

  lemma {:induction false} FlowAgrees(e: Expr, c: Scopes, a: Scopes, p: Pos)
    requires Same(c, a) && Agrees(c, a, p)
    ensures Agrees(Flow(e, c), Flow(e, a), p)
    decreases e
  {
    match e
    case Ident(_) =>
    case Node(args) => FlowAllAgrees(args, c, a, p);
    case UnwrapOr(v, d) =>
      FlowAgrees(v, c, a, p);
      ActsFlow(v, c, a);
      ActsSame(c, a, Flow(v, c), Flow(v, a));
      ConsumeAgrees(Flow(v, c), Flow(v, a), v, p);
      ActsConsume(Flow(v, c), Flow(v, a), v);
      ActsSame(Flow(v, c), Flow(v, a), Consume(Flow(v, c), v), Consume(Flow(v, a), v));
      FlowAgrees(d, Consume(Flow(v, c), v), Consume(Flow(v, a), v), p);
  }

  lemma {:induction false} FlowAllAgrees(es: seq<Expr>, c: Scopes, a: Scopes, p: Pos)
    requires Same(c, a) && Agrees(c, a, p)
    ensures Agrees(FlowAll(es, c), FlowAll(es, a), p)
    decreases es
  {
    if es != [] {
      FlowAgrees(es[0], c, a, p);
      ActsFlow(es[0], c, a);
      ActsSame(c, a, Flow(es[0], c), Flow(es[0], a));
      FlowAllAgrees(es[1..], Flow(es[0], c), Flow(es[0], a), p);
    }
  }

  lemma {:induction false} ConsumeAgrees(c: Scopes, a: Scopes, e: Expr, p: Pos)
    requires Same(c, a) && Agrees(c, a, p)
    ensures Agrees(Consume(c, e), Consume(a, e), p)
  {
    if e.Ident? { MarkAgrees(c, a, e.name, false, p); }
  }

  lemma {:induction false} UntouchedFlow(e: Expr, s: Scopes)
    requires Consumed(e) == {}
    ensures Flow(e, s) == s
    decreases e
  {
    match e
    case Ident(_) =>
    case Node(args) => UntouchedFlowAll(args, s);
    case UnwrapOr(v, d) =>
      UntouchedFlow(v, s);
      assert !v.Ident?;
      UntouchedFlow(d, s);
  }

  lemma {:induction false} UntouchedFlowAll(es: seq<Expr>, s: Scopes)
    requires ConsumedAll(es) == {}
    ensures FlowAll(es, s) == s
    decreases es
  {
    if es != [] {
      UntouchedFlow(es[0], s);
      UntouchedFlowAll(es[1..], s);
    }
  }

  // An expression that does not handle x leaves its bit alone.
  lemma {:induction false} LookupFlow(e: Expr, s: Scopes, x: string)
    requires x !in Consumed(e)
    ensures Lookup(Flow(e, s), x) == Lookup(s, x)
    decreases e
  {
    match e
    case Ident(_) =>
    case Node(args) => LookupFlowAll(args, s, x);
    case UnwrapOr(v, d) =>
      LookupFlow(v, s, x);
      if v.Ident? { LookupMark(Flow(v, s), v.name, x); }
      LookupFlow(d, Consume(Flow(v, s), v), x);
  }

  lemma {:induction false} LookupFlowAll(es: seq<Expr>, s: Scopes, x: string)
    requires x !in ConsumedAll(es)
    ensures Lookup(FlowAll(es, s), x) == Lookup(s, x)
    decreases es
  {
    if es != [] {
      LookupFlow(es[0], s, x);
      LookupFlowAll(es[1..], Flow(es[0], s), x);
    }
  }

  lemma {:induction false} LookupMark(s: Scopes, y: string, x: string)
    requires x != y
    ensures Lookup(Mark(s, y, false), x) == Lookup(s, x)
  {
    if s.Cons? { LookupMark(s.tail, y, x); }
  }

  // ----- Runs can be put one after another -----

  function Longer(r: Run, more: seq<bool>): Run { r.(rest := r.rest + more) }

  lemma {:induction false} ExecMore(st: Stmt, s: Scopes, ch: seq<bool>, more: seq<bool>)
    requires Exec(st, s, ch).outcome != Cut
    ensures Exec(st, s, ch + more) == Longer(Exec(st, s, ch), more)
    decreases |ch|, st, 1
  {
    assert ch != [] ==> (ch + more)[0] == ch[0] && (ch + more)[1..] == ch[1..] + more;
    match st
    case If(c, t, f) => BlockMore(if ch[0] then t else f, Push(Flow(c, s)), ch[1..], more);
    case Match(e, okName, okR, ok, errName, errR, err) =>
      var before := Consume(Flow(e, s), e);
      if ch[0] {
        BlockMore(ok, Define(Push(before), okName, okR), ch[1..], more);
      } else {
        BlockMore(err, Define(Push(before), errName, errR), ch[1..], more);
      }
    case Transaction(conn, body) => BlockMore(body, DefinePlain(Push(s), conn), ch, more);
    case Repeat(loop, body) => IterateMore(st, Headers(loop, s), ch, more);
    case Let(_, _, _) =>
    case Set(_, _) =>
    case Return(_) =>
    case Do(_, _) =>
  }

  lemma {:induction false} BlockMore(body: seq<Stmt>, s: Scopes, ch: seq<bool>, more: seq<bool>)
    requires LeaveBlock(ExecAll(body, s, ch)).outcome != Cut
    ensures LeaveBlock(ExecAll(body, s, ch + more)) == Longer(LeaveBlock(ExecAll(body, s, ch)), more)
    decreases |ch|, body, 1
  {
    AllMore(body, s, ch, more);
  }

  lemma {:induction false} AllMore(body: seq<Stmt>, s: Scopes, ch: seq<bool>, more: seq<bool>)
    requires ExecAll(body, s, ch).outcome != Cut
    ensures ExecAll(body, s, ch + more) == Longer(ExecAll(body, s, ch), more)
    decreases |ch|, body, 0
  {
    if body != [] {
      ExecMore(body[0], s, ch, more);
      var r := Exec(body[0], s, ch);
      if r.outcome == Normal { AllMore(body[1..], r.scopes, r.rest, more); }
    }
  }

  lemma {:induction false} IterateMore(st: Stmt, s: Scopes, ch: seq<bool>, more: seq<bool>)
    requires st.Repeat? && Iterate(st, s, ch).outcome != Cut
    ensures Iterate(st, s, ch + more) == Longer(Iterate(st, s, ch), more)
    decreases |ch|, st, 0
  {
    assert (ch + more)[0] == ch[0] && (ch + more)[1..] == ch[1..] + more;
    if ch[0] {
      BlockMore(st.body, Entry(st.loop, s), ch[1..], more);
      var r := LeaveBlock(ExecAll(st.body, Entry(st.loop, s), ch[1..]));
      if r.outcome == Normal { IterateMore(st, r.scopes, r.rest, more); }
    }
  }

  // ----- Bits through the operations -----

  lemma {:induction false} OrAt(a: Scopes, b: Scopes, p: Pos)
    requires Same(a, b)
    ensures PendingAt(Or(a, b), p) == (PendingAt(a, p) || PendingAt(b, p))
  {
    if a.Cons? {
      OrAt(a.tail, b.tail, p);
      SameDepth(a.tail, b.tail);
      OrUpper(a.tail, b.tail);
      LeqSame(a.tail, Or(a.tail, b.tail));
      SameDepth(a.tail, Or(a.tail, b.tail));
    }
  }

  lemma {:induction false} PushAgrees(c: Scopes, a: Scopes, p: Pos)
    requires Same(c, a) && Agrees(c, a, p)
    ensures Agrees(Push(c), Push(a), p)
  {
    SameDepth(c, a);
  }

  lemma {:induction false} DefineAgrees(c: Scopes, a: Scopes, x: string, isResult: bool, p: Pos)
    requires Same(c, a) && Agrees(c, a, p)
    ensures Agrees(Define(c, x, isResult), Define(a, x, isResult), p)
  {
    if c.Cons? { SameDepth(c.tail, a.tail); }
  }

  lemma {:induction false} PopAgrees(c: Scopes, a: Scopes, p: Pos)
    requires Same(c, a) && Agrees(c, a, p)
    ensures Agrees(Pop(c), Pop(a), p)
  {
    if c.Cons? {
      SameDepth(c.tail, a.tail);
      if Depth(c.tail) == p.depth {
        TooDeep(c.tail, p);
        TooDeep(a.tail, p);
      }
    }
  }

  lemma {:induction false} EntryAgrees(loop: Loop, c: Scopes, a: Scopes, p: Pos)
    requires Same(c, a) && Agrees(c, a, p)
    ensures Agrees(Entry(loop, c), Entry(loop, a), p)
  {
    PushAgrees(c, a, p);
    if loop.For? { DefineAgrees(Push(c), Push(a), loop.name, false, p); } else { FlowAgrees(loop.cond, Push(c), Push(a), p); }
  }

  lemma {:induction false} TidyHeaders(loop: Loop, body: seq<Stmt>, s: Scopes)
    requires Tidy(Repeat(loop, body))
    ensures Headers(loop, s) == s && (loop.While? ==> Flow(loop.cond, s) == s)
  {
    if loop.For? { UntouchedFlowAll(loop.headers, s); } else { UntouchedFlow(loop.cond, s); }
  }

  // ----- Behind a clean return nothing is pending -----

  lemma {:induction false} ReturnsNone(st: Stmt, a: Scopes)
    requires ReturnsStmt(st) && Tidy(st) && Clean(st, a, true)
    ensures NonePending(After(st, a))
    decreases st, 0
  {
    match st
    case Return(_) =>
    case If(c, t, f) => BlockReturnsNone(f, Push(Flow(c, a)));
    case Match(e, _, _, _, errName, errR, err) => BlockReturnsNone(err, Define(Push(Consume(Flow(e, a), e)), errName, errR));
    case Transaction(conn, body) => BlockReturnsNone(body, DefinePlain(Push(a), conn));
  }

  lemma {:induction false} BlockReturnsNone(body: seq<Stmt>, a: Scopes)
    requires Returns(body) && TidyAll(body) && CleanAll(body, a, true)
    ensures NonePending(AfterAll(body, a)) && NonePending(Pop(AfterAll(body, a)))
    decreases body, 1
  {
    if ReturnsStmt(body[0]) {
      ReturnsNone(body[0], a);
    } else {
      BlockReturnsNone(body[1..], After(body[0], a));
    }
  }

  // ----- Reaching the end with one chosen bit exact -----

  // The run from c with these choices ends normally, uses them all up, and has bit p as the checker says.
  ghost predicate Reaches(st: Stmt, c: Scopes, a: Scopes, p: Pos, ch: seq<bool>) {
    var r := Exec(st, c, ch);
    r.outcome == Normal && r.rest == [] && Agrees(r.scopes, After(st, a), p)
  }

  ghost predicate ReachesBlock(body: seq<Stmt>, c: Scopes, a: Scopes, p: Pos, ch: seq<bool>) {
    var r := LeaveBlock(ExecAll(body, c, ch));
    r.outcome == Normal && r.rest == [] && Agrees(r.scopes, Pop(AfterAll(body, a)), p)
  }

  lemma {:induction false} Follow(st: Stmt, c: Scopes, a: Scopes, p: Pos) returns (ch: seq<bool>)
    requires Leq(c, a) && c.Cons? && Agrees(c, a, p)
    requires Tidy(st) && Clean(st, a, true) && !ReturnsStmt(st)
    ensures Reaches(st, c, a, p, ch)
    decreases st, 2
  {
    ch := [];
    LeqSame(c, a);
    match st
    case Let(x, r, e) =>
      FlowAgrees(e, c, a, p);
      FlowLeq(e, c, a);
      LeqSame(Flow(e, c), Flow(e, a));
      DefineAgrees(Flow(e, c), Flow(e, a), x, r, p);
    case Set(x, e) =>
      FlowAgrees(e, c, a, p);
      FlowLeq(e, c, a);
      LeqSame(Flow(e, c), Flow(e, a));
      LookupSame(c, a, x);
      LookupFlow(e, c, x);
      MarkAgrees(Flow(e, c), Flow(e, a), x, Lookup(a, x).value.isResult, p);
    case Do(e, _) => FlowAgrees(e, c, a, p);
    case If(_, _, _) => ch := FollowIf(st, c, a, p);
    case Match(_, _, _, _, _, _, _) => ch := FollowMatch(st, c, a, p);
    case Transaction(conn, body) =>
      PushAgrees(c, a, p);
      DefineAgrees(Push(c), Push(a), conn, false, p);
      ch := FollowBlock(body, DefinePlain(Push(c), conn), DefinePlain(Push(a), conn), p);
    case Repeat(loop, body) => ch := FollowLoop(st, c, a, p);
  }

  lemma {:induction false} FollowIf(st: Stmt, c: Scopes, a: Scopes, p: Pos) returns (ch: seq<bool>)
    requires st.If? && Leq(c, a) && c.Cons? && Agrees(c, a, p)
    requires Tidy(st) && Clean(st, a, true) && !ReturnsStmt(st)
    ensures Reaches(st, c, a, p, ch)
    decreases st, 1
  {
    var e, fc, fa := st.cond, Flow(st.cond, c), Flow(st.cond, a);
    LeqSame(c, a);
    FlowAgrees(e, c, a, p);
    FlowLeq(e, c, a);
    LeqSame(fc, fa);
    PushAgrees(fc, fa, p);
    ch := FollowBranches(st, st.thn, Push(fc), Push(fa), st.els, Push(fc), Push(fa), fa, p);
  }

  lemma {:induction false} FollowMatch(st: Stmt, c: Scopes, a: Scopes, p: Pos) returns (ch: seq<bool>)
    requires st.Match? && Leq(c, a) && c.Cons? && Agrees(c, a, p)
    requires Tidy(st) && Clean(st, a, true) && !ReturnsStmt(st)
    ensures Reaches(st, c, a, p, ch)
    decreases st, 1
  {
    var e := st.value;
    var bc, ba := Consume(Flow(e, c), e), Consume(Flow(e, a), e);
    LeqSame(c, a);
    FlowAgrees(e, c, a, p);
    FlowLeq(e, c, a);
    LeqSame(Flow(e, c), Flow(e, a));
    ConsumeAgrees(Flow(e, c), Flow(e, a), e, p);
    ConsumeLeq(Flow(e, c), Flow(e, a), e);
    LeqSame(bc, ba);
    PushAgrees(bc, ba, p);
    DefineAgrees(Push(bc), Push(ba), st.okName, st.okResult, p);
    DefineAgrees(Push(bc), Push(ba), st.errName, st.errResult, p);
    ch := FollowBranches(st, st.ok, Define(Push(bc), st.okName, st.okResult), Define(Push(ba), st.okName, st.okResult),
                         st.err, Define(Push(bc), st.errName, st.errResult), Define(Push(ba), st.errName, st.errResult), ba, p);
  }

  // Into the branch that decides the bit.
  lemma {:induction false} FollowBranches(
      st: Stmt, t: seq<Stmt>, ct: Scopes, at: Scopes, f: seq<Stmt>, cf: Scopes, af: Scopes, before: Scopes, p: Pos)
    returns (ch: seq<bool>)
    requires (st.If? && t == st.thn && f == st.els) || (st.Match? && t == st.ok && f == st.err)
    requires Leq(ct, at) && Leq(cf, af) && ct.Cons? && cf.Cons? && at.tail == before && af.tail == before
    requires Agrees(ct, at, p) && Agrees(cf, af, p)
    requires TidyAll(t) && TidyAll(f) && CleanBlock(t, at, true) && CleanBlock(f, af, true) && !(Returns(t) && Returns(f))
    ensures ch != []
    ensures var r := LeaveBlock(if ch[0] then ExecAll(t, ct, ch[1..]) else ExecAll(f, cf, ch[1..]));
            && r.outcome == Normal && r.rest == []
            && Agrees(r.scopes, Joined(t, Pop(AfterAll(t, at)), f, Pop(AfterAll(f, af))), p)
    decreases st, 0
  {
    var pt, pf := Pop(AfterAll(t, at)), Pop(AfterAll(f, af));
    BranchesSame(t, at, f, af, before);
    OrAt(pt, pf, p);
    if Returns(t) || (!Returns(f) && !PendingAt(pt, p)) {
      var more := FollowBlock(f, cf, af, p);
      ch := [false] + more;
    } else {
      var more := FollowBlock(t, ct, at, p);
      ch := [true] + more;
    }
  }

  lemma {:induction false} FollowBlock(body: seq<Stmt>, c: Scopes, a: Scopes, p: Pos) returns (ch: seq<bool>)
    requires Leq(c, a) && c.Cons? && Agrees(c, a, p)
    requires TidyAll(body) && CleanAll(body, a, true) && !Returns(body)
    ensures ReachesBlock(body, c, a, p, ch)
    ensures var r := ExecAll(body, c, ch); r.outcome == Normal && r.rest == [] && Agrees(r.scopes, AfterAll(body, a), p)
    decreases body, 1
  {
    ch := FollowAll(body, c, a, p);
    CoversAll(body, c, a, ch);
    LeqSame(ExecAll(body, c, ch).scopes, AfterAll(body, a));
    PopAgrees(ExecAll(body, c, ch).scopes, AfterAll(body, a), p);
  }

  lemma {:induction false} FollowAll(body: seq<Stmt>, c: Scopes, a: Scopes, p: Pos) returns (ch: seq<bool>)
    requires Leq(c, a) && c.Cons? && Agrees(c, a, p)
    requires TidyAll(body) && CleanAll(body, a, true) && !Returns(body)
    ensures var r := ExecAll(body, c, ch); r.outcome == Normal && r.rest == [] && Agrees(r.scopes, AfterAll(body, a), p)
    decreases body, 0
  {
    ch := [];
    if body != [] {
      var first := Follow(body[0], c, a, p);
      var r := Exec(body[0], c, first);
      Covers(body[0], c, a, first);
      StmtTail(body[0], a);
      var more := FollowAll(body[1..], r.scopes, After(body[0], a), p);
      ExecMore(body[0], c, first, more);
      ch := first + more;
      assert [] + more == more;
    }
  }

  lemma {:induction false} FollowLoop(st: Stmt, c: Scopes, a: Scopes, p: Pos) returns (ch: seq<bool>)
    requires st.Repeat? && Leq(c, a) && c.Cons? && Agrees(c, a, p)
    requires Tidy(st) && Clean(st, a, true)
    ensures Reaches(st, c, a, p, ch)
    decreases st, 0
  {
    var loop, body := st.loop, st.body;
    var once := Pop(AfterAll(body, Entry(loop, a)));
    TidyHeaders(loop, body, c);
    TidyHeaders(loop, body, a);
    LoopSame(loop, body, a);
    OrAt(a, once, p);
    if PendingAt(After(st, a), p) == PendingAt(a, p) {
      ch := [false];
    } else {
      if Returns(body) {
        BlockReturnsNone(body, Entry(loop, a));
        PendingSeen(once, p);
        assert false;
      }
      LeqSame(c, a);
      EntryLeq(loop, c, a);
      EntryAgrees(loop, c, a, p);
      var more := FollowBlock(body, Entry(loop, c), Entry(loop, a), p);
      var r := LeaveBlock(ExecAll(body, Entry(loop, c), more));
      BlockMore(body, Entry(loop, c), more, [false]);
      ch := [true] + (more + [false]);
      assert ch[1..] == more + [false] && [] + [false] == [false];
      TidyHeaders(loop, body, r.scopes);
      assert Iterate(st, r.scopes, [false]).outcome == Normal;
    }
  }

  // ----- A complaint is a run that misbehaves -----

  ghost predicate Misbehaves(st: Stmt, c: Scopes) { exists ch :: Exec(st, c, ch).bad }
  ghost predicate MisbehavesAll(body: seq<Stmt>, c: Scopes) { exists ch :: ExecAll(body, c, ch).bad }
  ghost predicate MisbehavesBlock(body: seq<Stmt>, c: Scopes) { exists ch :: LeaveBlock(ExecAll(body, c, ch)).bad }

  // Any state below the analysed one that has the bit p right.
  ghost predicate Below(c: Scopes, a: Scopes, p: Pos) { Leq(c, a) && c.Cons? && Agrees(c, a, p) }

  lemma {:induction false} Complete(st: Stmt, a: Scopes) returns (p: Pos)
    requires a.Cons? && Tidy(st) && !Clean(st, a, true)
    ensures forall c :: Below(c, a, p) ==> Misbehaves(st, c)
    decreases st, 1
  {
    p := Pos(0, "");
    match st
    case Let(x, _, e) => p := CompleteSimple(st, a);
    case Do(e, _) => p := CompleteSimple(st, a);
    case Set(x, e) => p := CompleteSimple(st, a);
    case Return(e) => p := CompleteSimple(st, a);
    case If(e, t, f) =>
      if !Known(e, a) {
        forall c | Below(c, a, p) ensures Misbehaves(st, c) { FlowLeq(e, c, a); assert Exec(st, c, []).bad; }
      } else {
        var first := !CleanBlock(t, Push(Flow(e, a)), true);
        p := CompleteBlock(if first then t else f, Push(Flow(e, a)));
        forall c | Below(c, a, p) ensures Misbehaves(st, c) {
          LeqSame(c, a);
          FlowAgrees(e, c, a, p);
          FlowLeq(e, c, a);
          LeqSame(Flow(e, c), Flow(e, a));
          PushAgrees(Flow(e, c), Flow(e, a), p);
          assert Below(Push(Flow(e, c)), Push(Flow(e, a)), p);
          var ch :| LeaveBlock(ExecAll(if first then t else f, Push(Flow(e, c)), ch)).bad;
          assert ([first] + ch)[1..] == ch;
          assert Exec(st, c, [first] + ch).bad;
        }
      }
    case Match(e, okName, okR, ok, errName, errR, err) =>
      if !Known(e, a) {
        forall c | Below(c, a, p) ensures Misbehaves(st, c) { FlowLeq(e, c, a); assert Exec(st, c, []).bad; }
      } else {
        p := CompleteMatch(st, a);
      }
    case Transaction(conn, body) => p := CompleteTransaction(st, a);
    case Repeat(loop, body) =>
      if !KnownHeaders(loop, a) {
        forall c | Below(c, a, p) ensures Misbehaves(st, c) { HeadersLeq(loop, c, a); assert Exec(st, c, []).bad; }
      } else {
        p := CompleteLoop(st, a);
      }
  }

  lemma CompleteSimple(st: Stmt, a: Scopes) returns (p: Pos)
    requires st.Let? || st.Do? || st.Set? || st.Return?
    requires a.Cons? && Tidy(st) && !Clean(st, a, true)
    ensures forall c :: Below(c, a, p) ==> Misbehaves(st, c)
  {
    p := Pos(0, "");
    if st.Set? && Lookup(a, st.name).Some? {
      p := LookupPos(a, st.name);
    } else if st.Return? && Known(st.value, a) {
      p := FindPending(After(st, a));
    }
    forall c | Below(c, a, p) ensures Misbehaves(st, c) {
      var e := st.value;
      LeqSame(c, a);
      FlowLeq(e, c, a);
      if st.Set? {
        LookupSame(c, a, st.name);
        LookupFlow(e, c, st.name);
      } else if st.Return? && Known(e, a) {
        FlowAgrees(e, c, a, p);
        LeqSame(Flow(e, c), Flow(e, a));
        ConsumeAgrees(Flow(e, c), Flow(e, a), e, p);
        PendingSeen(Consume(Flow(e, c), e), p);
      }
      assert Exec(st, c, []).bad;
    }
  }

  lemma {:induction false} CompleteMatch(st: Stmt, a: Scopes) returns (p: Pos)
    requires st.Match? && Known(st.value, a)
    requires a.Cons? && Tidy(st) && !Clean(st, a, true)
    ensures forall c :: Below(c, a, p) ==> Misbehaves(st, c)
    decreases st, 0
  {
    var e := st.value;
    var ba := Consume(Flow(e, a), e);
    var first := !CleanBlock(st.ok, Define(Push(ba), st.okName, st.okResult), true);
    var body := if first then st.ok else st.err;
    var x, r := if first then st.okName else st.errName, if first then st.okResult else st.errResult;
    p := CompleteBlock(body, Define(Push(ba), x, r));
    forall c | Below(c, a, p) ensures Misbehaves(st, c) {
      var bc := Consume(Flow(e, c), e);
      LeqSame(c, a);
      FlowAgrees(e, c, a, p);
      FlowLeq(e, c, a);
      LeqSame(Flow(e, c), Flow(e, a));
      ConsumeAgrees(Flow(e, c), Flow(e, a), e, p);
      ConsumeLeq(Flow(e, c), Flow(e, a), e);
      LeqSame(bc, ba);
      PushAgrees(bc, ba, p);
      DefineAgrees(Push(bc), Push(ba), x, r, p);
      assert Below(Define(Push(bc), x, r), Define(Push(ba), x, r), p);
      var ch :| LeaveBlock(ExecAll(body, Define(Push(bc), x, r), ch)).bad;
      assert ([first] + ch)[1..] == ch;
      assert Exec(st, c, [first] + ch).bad;
    }
  }

  lemma {:induction false} CompleteTransaction(st: Stmt, a: Scopes) returns (p: Pos)
    requires st.Transaction?
    requires a.Cons? && Tidy(st) && !Clean(st, a, true)
    ensures forall c :: Below(c, a, p) ==> Misbehaves(st, c)
    decreases st, 0
  {
    var conn := st.conn;
    p := Pos(0, "");
    var b := Lookup(a, conn);
    if b.Some? && !b.value.pending {
      p := CompleteBlock(st.body, DefinePlain(Push(a), conn));
    } else if b.Some? {
      p := LookupPos(a, conn);
    }
    forall c | Below(c, a, p) ensures Misbehaves(st, c) {
      LeqSame(c, a);
      LookupSame(c, a, conn);
      if b.Some? && !b.value.pending {
        PushAgrees(c, a, p);
        DefineAgrees(Push(c), Push(a), conn, false, p);
        assert Below(DefinePlain(Push(c), conn), DefinePlain(Push(a), conn), p);
        var ch :| LeaveBlock(ExecAll(st.body, DefinePlain(Push(c), conn), ch)).bad;
        assert Exec(st, c, ch).bad;
      } else {
        assert Exec(st, c, []).bad;
      }
    }
  }

  lemma {:induction false} CompleteLoop(st: Stmt, a: Scopes) returns (p: Pos)
    requires st.Repeat? && KnownHeaders(st.loop, a)
    requires a.Cons? && Tidy(st) && !Clean(st, a, true)
    ensures forall c :: Below(c, a, p) ==> Misbehaves(st, c)
    decreases st, 0
  {
    var loop, body := st.loop, st.body;
    TidyHeaders(loop, body, a);
    SameRefl(a);
    EntryLeq(loop, a, a);
    if !CleanBlock(body, Entry(loop, a), true) {
      p := CompleteBlock(body, Entry(loop, a));
      forall c | Below(c, a, p) ensures Misbehaves(st, c) { FirstIteration(st, c, a, p); }
    } else {
      var starts := Starts(loop, body, a);
      var once := Pop(AfterAll(body, Entry(loop, a)));
      LoopSame(loop, body, a);
      OrUpper(a, once);
      EntryLeq(loop, a, starts);
      p := CompleteBlock(body, Entry(loop, starts));
      OrAt(a, once, p);
      forall c | Below(c, a, p) ensures Misbehaves(st, c) {
        if PendingAt(starts, p) == PendingAt(a, p) {
          LeqTrans(c, a, starts);
          FirstIteration(st, c, starts, p);
        } else {
          if Returns(body) {
            BlockReturnsNone(body, Entry(loop, a));
            PendingSeen(once, p);
            assert false;
          }
          SecondIteration(st, c, a, p);
        }
      }
    }
  }

  // Trouble in the body, entered from c, is trouble in the first iteration.
  lemma {:induction false} FirstIteration(st: Stmt, c: Scopes, a: Scopes, p: Pos)
    requires st.Repeat? && Tidy(st) && Below(c, a, p)
    requires forall d :: Below(d, Entry(st.loop, a), p) ==> MisbehavesBlock(st.body, d)
    ensures Misbehaves(st, c)
    ensures exists ch :: Iterate(st, c, ch).bad
  {
    LeqSame(c, a);
    TidyHeaders(st.loop, st.body, c);
    EntryLeq(st.loop, c, a);
    EntryAgrees(st.loop, c, a, p);
    assert Below(Entry(st.loop, c), Entry(st.loop, a), p);
    var ch :| LeaveBlock(ExecAll(st.body, Entry(st.loop, c), ch)).bad;
    assert ([true] + ch)[1..] == ch;
    assert Iterate(st, c, [true] + ch).bad;
    assert Exec(st, c, [true] + ch).bad;
  }

  // The bit is pending only after an iteration: run one, then get into trouble in the next.
  lemma {:induction false} SecondIteration(st: Stmt, c: Scopes, a: Scopes, p: Pos)
    requires st.Repeat? && Tidy(st) && Below(c, a, p)
    requires CleanBlock(st.body, Entry(st.loop, a), true) && !Returns(st.body)
    requires Headers(st.loop, a) == a
    requires PendingAt(Pop(AfterAll(st.body, Entry(st.loop, a))), p) && PendingAt(Starts(st.loop, st.body, a), p)
    requires forall d :: Below(d, Entry(st.loop, Starts(st.loop, st.body, a)), p) ==> MisbehavesBlock(st.body, d)
    ensures Misbehaves(st, c)
  {
    var loop, body := st.loop, st.body;
    var starts := Starts(loop, body, a);
    var once := Pop(AfterAll(body, Entry(loop, a)));
    LeqSame(c, a);
    TidyHeaders(loop, body, c);
    EntryLeq(loop, c, a);
    EntryAgrees(loop, c, a, p);
    var first := FollowBlock(body, Entry(loop, c), Entry(loop, a), p);
    CoversBlock(body, Entry(loop, c), Entry(loop, a), first);
    var r := LeaveBlock(ExecAll(body, Entry(loop, c), first));
    LoopSame(loop, body, a);
    OrUpper(a, once);
    LeqTrans(r.scopes, once, starts);
    FirstIteration(st, r.scopes, starts, p);
    var more :| Iterate(st, r.scopes, more).bad;
    OneMore(st, c, first, more);
  }

  // An iteration in front of a run that goes wrong.
  lemma {:induction false} OneMore(st: Stmt, c: Scopes, first: seq<bool>, more: seq<bool>)
    requires st.Repeat? && Headers(st.loop, c) == c
    requires var r := LeaveBlock(ExecAll(st.body, Entry(st.loop, c), first));
             r.outcome == Normal && r.rest == [] && Iterate(st, r.scopes, more).bad
    ensures Misbehaves(st, c)
  {
    BlockMore(st.body, Entry(st.loop, c), first, more);
    var ch := [true] + (first + more);
    assert ch[1..] == first + more && [] + more == more;
    assert Iterate(st, c, ch).bad;
    assert Exec(st, c, ch).bad;
  }

  lemma {:induction false} CompleteBlock(body: seq<Stmt>, a: Scopes) returns (p: Pos)
    requires a.Cons? && TidyAll(body) && !CleanBlock(body, a, true)
    ensures forall c :: Below(c, a, p) ==> MisbehavesBlock(body, c)
    decreases body, 1
  {
    if !CleanAll(body, a, true) {
      p := CompleteAll(body, a);
      forall c | Below(c, a, p) ensures MisbehavesBlock(body, c) {
        var ch :| ExecAll(body, c, ch).bad;
        assert LeaveBlock(ExecAll(body, c, ch)).bad;
      }
    } else {
      var end := AfterAll(body, a);
      if Returns(body) {
        BlockReturnsNone(body, a);
        assert false;
      }
      var x :| x in end.head && end.head[x].pending;
      p := Pos(Depth(end.tail), x);
      forall c | Below(c, a, p) ensures MisbehavesBlock(body, c) {
        var ch := FollowBlock(body, c, a, p);
        CoversAll(body, c, a, ch);
        var r := ExecAll(body, c, ch);
        LeqSame(r.scopes, end);
        SameDepth(r.scopes.tail, end.tail);
        assert x in r.scopes.head && r.scopes.head[x].pending;
        assert LeaveBlock(r).bad;
      }
    }
  }

  lemma {:induction false} CompleteAll(body: seq<Stmt>, a: Scopes) returns (p: Pos)
    requires a.Cons? && TidyAll(body) && !CleanAll(body, a, true)
    ensures forall c :: Below(c, a, p) ==> MisbehavesAll(body, c)
    decreases body, 0
  {
    if !Clean(body[0], a, true) {
      p := Complete(body[0], a);
      forall c | Below(c, a, p) ensures MisbehavesAll(body, c) {
        var ch :| Exec(body[0], c, ch).bad;
        assert ExecAll(body, c, ch).bad;
      }
    } else {
      StmtTail(body[0], a);
      p := CompleteAll(body[1..], After(body[0], a));
      forall c | Below(c, a, p) ensures MisbehavesAll(body, c) {
        var first := Follow(body[0], c, a, p);
        Covers(body[0], c, a, first);
        var r := Exec(body[0], c, first);
        assert Below(r.scopes, After(body[0], a), p);
        var more :| ExecAll(body[1..], r.scopes, more).bad;
        ExecMore(body[0], c, first, more);
        assert [] + more == more;
        assert ExecAll(body, c, first + more).bad;
      }
    }
  }

  // ----- Functions -----

  // No parameter is pending when a function is entered.
  function Start(params: map<string, bool>): Scopes {
    Cons(map x | x in params :: Binding(params[x], false), Nil)
  }

  // No run returns, leaves a scope or overwrites a variable while a result is unhandled.
  ghost predicate Safe(params: map<string, bool>, body: seq<Stmt>) {
    forall ch :: !LeaveBlock(ExecAll(body, Start(params), ch)).bad
  }

  // What the checker accepts, when no loop sets an outer result, is safe.
  lemma {:induction false} AcceptedIsSafe(params: map<string, bool>, body: seq<Stmt>)
    requires CleanBlock(body, Start(params), false) && LoopsKeepAll(body, Start(params))
    ensures Safe(params, body)
  {
    OnePassEnoughAll(body, Start(params));
    TwiceIsSafe(params, body);
  }

  lemma {:induction false} TwiceIsSafe(params: map<string, bool>, body: seq<Stmt>)
    requires CleanBlock(body, Start(params), true)
    ensures Safe(params, body)
  {
    SameRefl(Start(params));
    forall ch ensures !LeaveBlock(ExecAll(body, Start(params), ch)).bad {
      SoundBlock(body, Start(params), Start(params), ch);
    }
  }

  // Without that restriction the single pass is not enough. What the checker accepts is safe if and
  // only if analysing every loop body a second time, from where iterations may start, finds nothing.
  lemma {:induction false} AcceptedSafeExactly(params: map<string, bool>, body: seq<Stmt>)
    requires TidyAll(body)
    ensures Safe(params, body) <==> CleanBlock(body, Start(params), true)
  {
    var a := Start(params);
    if CleanBlock(body, a, true) {
      TwiceIsSafe(params, body);
    } else {
      SameRefl(a);
      var p := CompleteBlock(body, a);
      assert Below(a, a, p);
      assert MisbehavesBlock(body, a);
    }
  }

  lemma FirstLook(idle: map<string, Binding>, busy: map<string, Binding>)
    requires idle == map["r" := Binding(true, false)] && busy == map["r" := Binding(true, true)]
    ensures var loop, a := Repeat(While(Node([])), [Set("r", Node([]))]), Cons(idle, Nil);
            Clean(loop, a, false) && After(loop, a) == Cons(busy, Nil)
  {
    var test, set1 := While(Node([])), [Set("r", Node([]))];
    var a, full := Cons(idle, Nil), Cons(busy, Nil);
    assert set1[1..] == [];
    assert Entry(test, Headers(test, a)) == Push(a) && Lookup(Push(a), "r") == Some(Binding(true, false));
    assert idle["r" := Binding(true, true)] == busy && Mark(a, "r", true) == full;
    assert After(set1[0], Push(a)) == Mark(Push(a), "r", true) == Push(full);
    assert AfterAll(set1, Push(a)) == Push(full);
    assert Either(idle, busy) == busy && Or(a, full) == full;
    assert CleanAll(set1, Push(a), false) && CleanBlock(set1, Push(a), false);
  }

  // The second iteration starts with r pending.
  lemma SecondLook(idle: map<string, Binding>, busy: map<string, Binding>)
    requires idle == map["r" := Binding(true, false)] && busy == map["r" := Binding(true, true)]
    ensures !Clean(Repeat(While(Node([])), [Set("r", Node([]))]), Cons(idle, Nil), true)
  {
    var test, set1 := While(Node([])), [Set("r", Node([]))];
    var a, full := Cons(idle, Nil), Cons(busy, Nil);
    FirstLook(idle, busy);
    assert Starts(test, set1, a) == full && Entry(test, full) == Push(full);
    assert Lookup(Push(full), "r") == Some(Binding(true, true));
    assert !Clean(set1[0], Push(full), true) && !CleanBlock(set1, Push(full), true);
  }

  lemma ReturnLook(idle: map<string, Binding>, busy: map<string, Binding>)
    requires idle == map["r" := Binding(true, false)] && busy == map["r" := Binding(true, true)]
    ensures var ret := Return(Ident("r")); Clean(ret, Cons(busy, Nil), false) && After(ret, Cons(busy, Nil)) == Cons(idle, Nil)
  {
    var full := Cons(busy, Nil);
    assert Lookup(full, "r") == Some(Binding(true, true));
    assert busy["r" := Binding(true, false)] == idle;
    assert After(Return(Ident("r")), full) == Mark(full, "r", false);
  }

  // What the checker says of a loop and the statement behind it.
  lemma {:induction false} LoopThenReturn(loop: Stmt, ret: Stmt, a: Scopes, b: Scopes, twice: bool)
    requires After(loop, a) == b && After(ret, b) == a && !ReturnsStmt(loop)
    ensures AfterAll([loop, ret], a) == a
    ensures CleanAll([loop, ret], a, twice) <==> Clean(loop, a, twice) && Clean(ret, b, twice)
  {
    assert [loop, ret][1..] == [ret] && [ret][1..] == [];
    assert AfterAll([ret], b) == a;
    assert CleanAll([ret], b, twice) == Clean(ret, b, twice);
  }

  lemma SetTidy()
    ensures TidyAll([Repeat(While(Node([])), [Set("r", Node([]))]), Return(Ident("r"))])
  {
    var set1, ret := Set("r", Node([])), Return(Ident("r"));
    var loop := Repeat(While(Node([])), [set1]);
    assert Consumed(Node([])) == ConsumedAll([]) == {};
    assert [set1][1..] == [] && Tidy(set1) && TidyAll([set1]);
    assert [loop, ret][1..] == [ret] && [ret][1..] == [] && TidyAll([ret]);
    assert Tidy(loop) && !ReturnsStmt(loop);
  }

  // An accepted function that overwrites an unhandled result in its second iteration:
  // while c { set r f() }; return r.
  lemma OnePassMisses()
    ensures var params := map["r" := true];
            var body := [Repeat(While(Node([])), [Set("r", Node([]))]), Return(Ident("r"))];
            CleanBlock(body, Start(params), false) && TidyAll(body) && !Safe(params, body)
  {
    var params := map["r" := true];
    var loop, ret := Repeat(While(Node([])), [Set("r", Node([]))]), Return(Ident("r"));
    var idle, busy := map["r" := Binding(true, false)], map["r" := Binding(true, true)];
    var a, full := Start(params), Cons(busy, Nil);
    assert a.head == idle && a == Cons(idle, Nil);
    FirstLook(idle, busy);
    SecondLook(idle, busy);
    ReturnLook(idle, busy);
    LoopThenReturn(loop, ret, a, full, false);
    LoopThenReturn(loop, ret, a, full, true);
    SetTidy();
    AcceptedSafeExactly(params, [loop, ret]);
  }
}
