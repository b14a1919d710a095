/**
What goes wrong in a run, said without the checker's scopes: a run is told as a list of events, in which names are
resolved by the blocks that are still open, and a result is unhandled if nothing handled it since it was received.
*/
module PendingStory {
  import opened Wrappers
  import opened PendingFlow
  import opened PendingSound
  import opened PendingExact

  datatype Event =
    | Open                                   // a block is entered
    | Close                                  // a block has reached its end
    | Param(name: string, isResult: bool)
    | Bind(name: string, isResult: bool)     // a declaration with its value
    | Assign(name: string)
    | Read(name: string)
    | Handle(name: string)                   // matched, returned or unwrapped
    | Begin(name: string)                    // a transaction on the connection
    | Discard                                // a result that no variable receives
    | End                                    // a return

  type Story = seq<Event>

  // ----- What an event list says -----

  // How many blocks are open.
  function Level(ev: Story): nat {
    if ev == [] then 0 else
    var (before, e) := (ev[..|ev| - 1], ev[|ev| - 1]);
    match e
    case Open => Level(before) + 1
    case Close => if Level(before) == 0 then 0 else Level(before) - 1
    case Param(_, _) => Level(before)
    case Bind(_, _) => Level(before)
    case Assign(_) => Level(before)
    case Read(_) => Level(before)
    case Handle(_) => Level(before)
    case Begin(_) => Level(before)
    case Discard => Level(before)
    case End => Level(before)
  }

  // Event e, when l blocks are open, declares x in the block at level d.
  predicate Declares(e: Event, l: nat, d: nat, x: string) {
    l == d + 1 && ((e.Param? && e.name == x) || (e.Bind? && e.name == x && x != "_"))
  }

  // The last declaration of x in the open block at level d.
  function At(ev: Story, d: nat, x: string): (r: Option<nat>)
    ensures r.Some? ==> r.value < |ev|
  {
    if ev == [] then None else
    var (before, e) := (ev[..|ev| - 1], ev[|ev| - 1]);
    if Declares(e, Level(before), d, x) then Some(|before|)
    else if e.Close? && Level(before) == d + 1 then None
    else At(before, d, x)
  }

  // The declaration that x stands for: the innermost.
  function Find(ev: Story, d: nat, x: string): (r: Option<nat>)
    ensures r.Some? ==> r.value < |ev|
  {
    if d == 0 then None else if At(ev, d - 1, x).Some? then At(ev, d - 1, x) else Find(ev, d - 1, x)
  }

  function Meaning(ev: Story, x: string): (r: Option<nat>)
    ensures r.Some? ==> r.value < |ev|
  {
    Find(ev, Level(ev), x)
  }

  predicate IsResult(e: Event) { (e.Param? || e.Bind?) && e.isResult }

  // Event i gives the variable declared at b a new result.
  predicate Received(ev: Story, i: nat, b: nat)
    requires i < |ev| && b < |ev|
  {
    IsResult(ev[b]) && ((i == b && ev[i].Bind?) || (ev[i].Assign? && Meaning(ev[..i], ev[i].name) == Some(b)))
  }

  predicate Handled(ev: Story, i: nat, b: nat)
    requires i < |ev|
  {
    ev[i].Handle? && Meaning(ev[..i], ev[i].name) == Some(b)
  }

  // A result was received and not handled since.
  predicate Unhandled(ev: Story, b: nat)
    requires b < |ev|
  {
    exists i :: 0 <= i < |ev| && Received(ev, i, b) && forall k :: i < k < |ev| ==> !Handled(ev, k, b)
  }

  ghost predicate UnhandledAt(ev: Story, d: nat, x: string) { At(ev, d, x).Some? && Unhandled(ev, At(ev, d, x).value) }

  ghost predicate UnhandledIn(ev: Story, d: nat) { exists x :: UnhandledAt(ev, d, x) }

  ghost predicate UnhandledName(ev: Story, x: string) { Meaning(ev, x).Some? && Unhandled(ev, Meaning(ev, x).value) }

  // The next event is a mistake: an unknown name, a name declared twice in its block, a result that is discarded,
  // or one that is unhandled when its variable is set or its block or the function is left.
  ghost predicate Wrong(ev: Story, e: Event) {
    match e
    case Open => false
    case Close => Level(ev) > 0 && UnhandledIn(ev, Level(ev) - 1)
    case Param(_, _) => false
    case Bind(x, _) => x != "_" && (Level(ev) == 0 || At(ev, Level(ev) - 1, x).Some?)
    case Assign(x) => Meaning(ev, x).None? || UnhandledName(ev, x)
    case Read(x) => Meaning(ev, x).None?
    case Handle(_) => false
    case Begin(x) => Meaning(ev, x).None? || UnhandledName(ev, x)
    case Discard => true
    case End => exists d: nat :: d < Level(ev) && UnhandledIn(ev, d)
  }

  ghost predicate GoesWrong(ev: Story) { exists j :: 0 <= j < |ev| && Wrong(ev[..j], ev[j]) }

  // ----- The checker's scopes, event by event -----

  function Apply(e: Event, s: Scopes): Scopes {
    match e
    case Open => Push(s)
    case Close => Pop(s)
    case Param(x, isResult) => if s.Cons? then Cons(s.head[x := Binding(isResult, false)], s.tail) else s
    case Bind(x, isResult) => Define(s, x, isResult)
    case Assign(x) => if Lookup(s, x).Some? then Mark(s, x, Lookup(s, x).value.isResult) else s
    case Read(_) => s
    case Handle(x) => Mark(s, x, false)
    case Begin(_) => s
    case Discard => s
    case End => s
  }

  function Replay(ev: Story): Scopes {
    if ev == [] then Nil else Apply(ev[|ev| - 1], Replay(ev[..|ev| - 1]))
  }

  predicate Amiss(s: Scopes, e: Event) {
    match e
    case Open => false
    case Close => !NonePendingHere(s)
    case Param(_, _) => false
    case Bind(x, _) => !CanDefine(s, x)
    case Assign(x) => Lookup(s, x).None? || Lookup(s, x).value.pending
    case Read(x) => Lookup(s, x).None?
    case Handle(_) => false
    case Begin(x) => Lookup(s, x).None? || Lookup(s, x).value.pending
    case Discard => true
    case End => !NonePending(s)
  }

  // The scope at level d, the outermost being 0.
  function Slot(s: Scopes, d: nat): map<string, Binding>
    requires d < Depth(s)
  {
    if Depth(s.tail) == d then s.head else Slot(s.tail, d)
  }

  function Where(s: Scopes, x: string): Option<nat> {
    if s.Nil? then None else if x in s.head then Some(Depth(s.tail)) else Where(s.tail, x)
  }

  function Marked(b: Binding, it: bool, pending: bool): Binding { if it then b.(pending := pending) else b }

  lemma {:induction false} MarkDepth(s: Scopes, x: string, pending: bool)
    ensures Depth(Mark(s, x, pending)) == Depth(s)
  {
    MarkSame(s, x, pending);
    SameDepth(s, Mark(s, x, pending));
  }

  lemma {:induction false} MarkSlot(s: Scopes, x: string, pending: bool, d: nat, y: string)
    requires d < Depth(s)
    ensures Depth(Mark(s, x, pending)) == Depth(s)
    ensures y in Slot(Mark(s, x, pending), d) <==> y in Slot(s, d)
    ensures y in Slot(s, d) ==> Slot(Mark(s, x, pending), d)[y] == Marked(Slot(s, d)[y], y == x && Where(s, x) == Some(d), pending)
  {
    MarkDepth(s, x, pending);
    MarkDepth(s.tail, x, pending);
    WhereDepth(s.tail, x);
    if x !in s.head && Depth(s.tail) != d { MarkSlot(s.tail, x, pending, d, y); }
  }

  lemma {:induction false} WhereDepth(s: Scopes, x: string)
    ensures Where(s, x).Some? ==> Where(s, x).value < Depth(s)
    ensures Where(s, x).Some? <==> Lookup(s, x).Some?
  {
    if s.Cons? { WhereDepth(s.tail, x); }
  }

  lemma {:induction false} ReplayLevel(ev: Story)
    ensures Depth(Replay(ev)) == Level(ev)
  {
    if ev != [] {
      var (before, e) := (ev[..|ev| - 1], ev[|ev| - 1]);
      ReplayLevel(before);
      if e.Assign? || e.Handle? {
        MarkDepth(Replay(before), e.name, false);
        MarkDepth(Replay(before), e.name, true);
      }
    }
  }

  // ----- What names stand for -----

  lemma {:induction false} AtIs(ev: Story, d: nat, x: string)
    ensures At(ev, d, x).Some? ==> Declares(ev[At(ev, d, x).value], Level(ev[..At(ev, d, x).value]), d, x) && d < Level(ev)
  {
    if ev != [] {
      var before := ev[..|ev| - 1];
      AtIs(before, d, x);
      if At(before, d, x).Some? { assert before[..At(before, d, x).value] == ev[..At(before, d, x).value]; }
    }
  }

  lemma {:induction false} UnhandledSnoc(before: Story, e: Event, b: nat)
    requires b <= |before|
    ensures var ev, n := before + [e], |before|;
            Unhandled(ev, b) == (Received(ev, n, b) || (b < n && Unhandled(before, b) && !Handled(ev, n, b)))
  {
    var ev, n := before + [e], |before|;
    assert ev[..n] == before;
    forall i | 0 <= i < n ensures ev[i] == before[i] && ev[..i] == before[..i] {}
    if b < n {
      forall i | 0 <= i < n ensures Received(ev, i, b) == Received(before, i, b) && Handled(ev, i, b) == Handled(before, i, b) {}
      if Unhandled(ev, b) && !Received(ev, n, b) {
        var i :| 0 <= i < |ev| && Received(ev, i, b) && forall k :: i < k < |ev| ==> !Handled(ev, k, b);
        assert Received(before, i, b) && forall k :: i < k < n ==> !Handled(before, k, b);
        assert Unhandled(before, b);
      }
      if Unhandled(before, b) && !Handled(ev, n, b) {
        var i :| 0 <= i < n && Received(before, i, b) && forall k :: i < k < n ==> !Handled(before, k, b);
        assert Received(ev, i, b) && forall k :: i < k < |ev| ==> !Handled(ev, k, b);
      }
    }
    if Received(ev, n, b) { assert Unhandled(ev, b); }
  }

  // The binding that the scopes hold for the declaration at b.
  ghost function Held(ev: Story, b: nat): Binding
    requires b < |ev|
  {
    Binding((ev[b].Param? || ev[b].Bind?) && ev[b].isResult, Unhandled(ev, b))
  }

  // A scope holds the declarations of its level.
  ghost predicate Shows(ev: Story, d: nat, x: string)
    requires d < Depth(Replay(ev))
  {
    && (x in Slot(Replay(ev), d) <==> At(ev, d, x).Some?)
    && (x in Slot(Replay(ev), d) ==> Slot(Replay(ev), d)[x] == Held(ev, At(ev, d, x).value))
  }

  ghost predicate ShowsAll(ev: Story) { forall d: nat, x :: d < Depth(Replay(ev)) ==> Shows(ev, d, x) }

  lemma {:induction false} OuterStep(s: Scopes, d: nat)
    requires 0 < d <= Depth(s)
    ensures Outer(s, d) == Cons(Slot(s, d - 1), Outer(s, d - 1)) && Depth(Outer(s, d - 1)) == d - 1
  {
    OuterDepth(s, d);
    OuterDepth(s, d - 1);
    if Depth(s) > d { OuterStep(s.tail, d); }
  }

  lemma {:induction false} OuterDepth(s: Scopes, d: nat)
    requires d <= Depth(s)
    ensures Depth(Outer(s, d)) == d
  {
    if Depth(s) > d { OuterDepth(s.tail, d); }
  }

  lemma {:induction false} FindIs(ev: Story, d: nat, x: string)
    requires ShowsAll(ev) && d <= Depth(Replay(ev))
    ensures var (l, w, f) := (Lookup(Outer(Replay(ev), d), x), Where(Outer(Replay(ev), d), x), Find(ev, d, x));
            && (l.Some? <==> f.Some?) && (w.Some? <==> f.Some?)
            && (f.Some? ==> l.value == Held(ev, f.value) && w.value < d && At(ev, w.value, x) == f)
  {
    if d > 0 {
      OuterStep(Replay(ev), d);
      FindIs(ev, d - 1, x);
      assert Shows(ev, d - 1, x);
    } else {
      OuterDepth(Replay(ev), 0);
    }
  }

  // What a name stands for, and what the scopes find.
  lemma {:induction false} MeaningIs(ev: Story, x: string)
    requires ShowsAll(ev)
    ensures var (l, w, f) := (Lookup(Replay(ev), x), Where(Replay(ev), x), Meaning(ev, x));
            && (l.Some? <==> f.Some?) && (w.Some? <==> f.Some?)
            && (f.Some? ==> l.value == Held(ev, f.value) && At(ev, w.value, x) == f)
  {
    ReplayLevel(ev);
    FindIs(ev, Level(ev), x);
  }

  // ----- One more event -----

  lemma {:induction false} ShowsSnoc(before: Story, e: Event, d: nat, x: string)
    requires ShowsAll(before) && d < Depth(Replay(before + [e]))
    ensures Shows(before + [e], d, x)
  {
    var ev, n := before + [e], |before|;
    assert ev[..n] == before && ev[n] == e;
    ReplayLevel(before);
    ReplayLevel(ev);
    assert d < Depth(Replay(before)) ==> Shows(before, d, x);
    UnhandledSnoc(before, e, n);
    AtIs(before, d, x);
    if At(before, d, x).Some? { UnhandledSnoc(before, e, At(before, d, x).value); }
    if e.Assign? || e.Handle? { MarkShows(before, e, d, x); }
  }

  lemma {:induction false} MarkShows(before: Story, e: Event, d: nat, x: string)
    requires ShowsAll(before) && d < Depth(Replay(before)) && (e.Assign? || e.Handle?)
    ensures Depth(Replay(before + [e])) == Depth(Replay(before)) && Shows(before + [e], d, x)
  {
    var ev, n, y := before + [e], |before|, e.name;
    var s := Replay(before);
    assert ev[..n] == before && ev[n] == e && Replay(ev) == Apply(e, s);
    MeaningIs(before, y);
    AtIs(before, d, x);
    WhereDepth(s, y);
    assert Shows(before, d, x);
    if Where(s, y).Some? { AtIs(before, Where(s, y).value, y); }
    if At(before, d, x).Some? { UnhandledSnoc(before, e, At(before, d, x).value); }
    MarkSlot(s, y, false, d, x);
    MarkSlot(s, y, Lookup(s, y).Some? && Lookup(s, y).value.isResult, d, x);
  }

  lemma {:induction false} ShowsEvent(ev: Story)
    ensures ShowsAll(ev)
  {
    if ev != [] {
      var (before, e) := (ev[..|ev| - 1], ev[|ev| - 1]);
      ShowsEvent(before);
      assert before + [e] == ev;
      forall d: nat, x | d < Depth(Replay(ev)) ensures Shows(ev, d, x) { ShowsSnoc(before, e, d, x); }
    }
  }

  // ----- Mistakes -----

  lemma {:induction false} UnhandledInSlot(ev: Story, d: nat)
    requires d < Depth(Replay(ev))
    ensures NoneIn(Slot(Replay(ev), d)) <==> !UnhandledIn(ev, d)
  {
    ShowsEvent(ev);
    forall x ensures UnhandledAt(ev, d, x) <==> x in Slot(Replay(ev), d) && Slot(Replay(ev), d)[x].pending {
      assert Shows(ev, d, x);
    }
    if !NoneIn(Slot(Replay(ev), d)) {
      var x :| x in Slot(Replay(ev), d) && Slot(Replay(ev), d)[x].pending;
      assert UnhandledAt(ev, d, x);
    }
  }

  lemma {:induction false} NonePendingIs(ev: Story, d: nat)
    requires d <= Depth(Replay(ev))
    ensures NonePending(Outer(Replay(ev), d)) <==> forall l: nat :: l < d ==> !UnhandledIn(ev, l)
  {
    if d > 0 {
      OuterStep(Replay(ev), d);
      NonePendingIs(ev, d - 1);
      UnhandledInSlot(ev, d - 1);
    } else {
      OuterDepth(Replay(ev), 0);
    }
  }

  // The scopes show a mistake exactly where there is one.
  lemma {:induction false} AmissExactly(ev: Story, e: Event)
    ensures Amiss(Replay(ev), e) <==> Wrong(ev, e)
  {
    var s := Replay(ev);
    ReplayLevel(ev);
    ShowsEvent(ev);
    match e
    case Open =>
    case Close => if s.Cons? { UnhandledInSlot(ev, Level(ev) - 1); }
    case Param(_, _) =>
    case Bind(x, _) => if s.Cons? { assert Shows(ev, Level(ev) - 1, x); }
    case Assign(x) => MeaningIs(ev, x);
    case Read(x) => MeaningIs(ev, x);
    case Handle(_) =>
    case Begin(x) => MeaningIs(ev, x);
    case Discard =>
    case End => NonePendingIs(ev, Level(ev)); OuterDepth(s, Level(ev));
  }

  predicate Bad(ev: Story) {
    ev != [] && (Bad(ev[..|ev| - 1]) || Amiss(Replay(ev[..|ev| - 1]), ev[|ev| - 1]))
  }

  lemma {:induction false} BadExactly(ev: Story)
    ensures Bad(ev) <==> GoesWrong(ev)
  {
    if ev != [] {
      var (before, e) := (ev[..|ev| - 1], ev[|ev| - 1]);
      BadExactly(before);
      AmissExactly(before, e);
      forall j | 0 <= j < |before| ensures before[..j] == ev[..j] && before[j] == ev[j] {}
      if GoesWrong(before) {
        var j :| 0 <= j < |before| && Wrong(before[..j], before[j]);
        assert Wrong(ev[..j], ev[j]);
      }
      if GoesWrong(ev) && !Wrong(before, e) {
        var j :| 0 <= j < |ev| && Wrong(ev[..j], ev[j]);
        assert Wrong(before[..j], before[j]);
      }
    }
  }

  lemma {:induction false} Next(ev: Story, e: Event)
    ensures Replay(ev + [e]) == Apply(e, Replay(ev)) && Bad(ev + [e]) == (Bad(ev) || Amiss(Replay(ev), e))
  {
    var all := ev + [e];
    assert all[..|all| - 1] == ev && all[|all| - 1] == e;
  }

  // ----- Telling a run -----

  function TellExpr(e: Expr, ev: Story): Story
    decreases e
  {
    match e
    case Ident(x) => ev + [Read(x)]
    case Node(args) => TellAll(args, ev)
    case UnwrapOr(v, d) => TellExpr(d, TellHandled(v, TellExpr(v, ev)))
  }

  function TellAll(es: seq<Expr>, ev: Story): Story
    decreases es
  {
    if es == [] then ev else TellAll(es[1..], TellExpr(es[0], ev))
  }

  // A variable is handled by name; a value in any other form has no variable.
  function TellHandled(e: Expr, ev: Story): Story { if e.Ident? then ev + [Handle(e.name)] else ev }

  datatype Told = Told(outcome: Outcome, story: Story, rest: seq<bool>)

  function Leave(t: Told): Told { if t.outcome == Normal then t.(story := t.story + [Close]) else t }

  function TellStmt(s: Stmt, ev: Story, ch: seq<bool>): (t: Told)
    ensures |t.rest| <= |ch|
    decreases |ch|, s, 1
  {
    match s
    case Let(x, isResult, e) => Told(Normal, TellExpr(e, ev) + [Bind(x, isResult)], ch)
    case Set(x, e) => Told(Normal, TellExpr(e, ev) + [Assign(x)], ch)
    case Return(e) => Told(Returned, TellHandled(e, TellExpr(e, ev)) + [End], ch)
    case Do(e, isResult) => Told(Normal, if isResult then TellExpr(e, ev) + [Discard] else TellExpr(e, ev), ch)
    case If(c, t, f) =>
      var before := TellExpr(c, ev);
      if ch == [] then Told(Cut, before, [])
      else Leave(TellBody(if ch[0] then t else f, before + [Open], ch[1..]))
    case Match(e, okName, okResult, ok, errName, errResult, err) =>
      var before := TellHandled(e, TellExpr(e, ev));
      if ch == [] then Told(Cut, before, [])
      else if ch[0] then Leave(TellBody(ok, before + [Open] + [Bind(okName, okResult)], ch[1..]))
      else Leave(TellBody(err, before + [Open] + [Bind(errName, errResult)], ch[1..]))
    case Transaction(conn, body) => Leave(TellBody(body, ev + [Begin(conn)] + [Open] + [Bind(conn, false)], ch))
    case Repeat(loop, _) => TellLoop(s, if loop.For? then TellAll(loop.headers, ev) else TellNames(loop.cond, ev), ch)
  }

  // The names of a condition are known before the loop begins.
  function TellNames(e: Expr, ev: Story): Story
    decreases e
  {
    match e
    case Ident(x) => ev + [Read(x)]
    case Node(args) => TellAllNames(args, ev)
    case UnwrapOr(v, d) => TellNames(d, TellNames(v, ev))
  }

  function TellAllNames(es: seq<Expr>, ev: Story): Story
    decreases es
  {
    if es == [] then ev else TellAllNames(es[1..], TellNames(es[0], ev))
  }

  function TellBody(body: seq<Stmt>, ev: Story, ch: seq<bool>): (t: Told)
    ensures |t.rest| <= |ch|
    decreases |ch|, body
  {
    if body == [] then Told(Normal, ev, ch) else
    var t := TellStmt(body[0], ev, ch);
    if t.outcome == Normal then TellBody(body[1..], t.story, t.rest) else t
  }

  // Every turn is a block; the condition of a while loop is evaluated in it, and once more at the end.
  function TellLoop(s: Stmt, ev: Story, ch: seq<bool>): (t: Told)
    requires s.Repeat?
    ensures |t.rest| <= |ch|
    decreases |ch|, s, 0
  {
    if ch == [] then Told(Cut, ev, [])
    else if !ch[0] then Told(Normal, if s.loop.While? then TellExpr(s.loop.cond, ev) else ev, ch[1..]) else
    var entry := if s.loop.For? then ev + [Open] + [Bind(s.loop.name, false)] else TellExpr(s.loop.cond, ev + [Open]);
    var t := Leave(TellBody(s.body, entry, ch[1..]));
    if t.outcome == Normal then TellLoop(s, t.story, t.rest) else t
  }

  // ----- The run told is the run -----

  lemma {:induction false} KnownSame(e: Expr, s: Scopes, t: Scopes)
    requires Same(s, t)
    ensures Known(e, s) == Known(e, t)
    decreases e
  {
    match e
    case Ident(x) => LookupSame(s, t, x);
    case Node(args) => KnownAllSame(args, s, t);
    case UnwrapOr(v, d) => KnownSame(v, s, t); KnownSame(d, s, t);
  }

  lemma {:induction false} KnownAllSame(es: seq<Expr>, s: Scopes, t: Scopes)
    requires Same(s, t)
    ensures KnownAll(es, s) == KnownAll(es, t)
    decreases es
  {
    if es != [] {
      KnownSame(es[0], s, t);
      KnownAllSame(es[1..], s, t);
    }
  }

  lemma {:induction false} HandledSaid(e: Expr, ev: Story)
    ensures Replay(TellHandled(e, ev)) == Consume(Replay(ev), e) && Bad(TellHandled(e, ev)) == Bad(ev)
  {
    if e.Ident? { Next(ev, Handle(e.name)); }
  }

  lemma {:induction false} ExprSaid(e: Expr, ev: Story)
    ensures Replay(TellExpr(e, ev)) == Flow(e, Replay(ev)) && Bad(TellExpr(e, ev)) == (Bad(ev) || !Known(e, Replay(ev)))
    decreases e
  {
    match e
    case Ident(x) => Next(ev, Read(x));
    case Node(args) => AllSaid(args, ev);
    case UnwrapOr(v, d) =>
      ExprSaid(v, ev);
      HandledSaid(v, TellExpr(v, ev));
      ConsumedSame(v, Replay(ev));
      KnownSame(d, Consume(Flow(v, Replay(ev)), v), Replay(ev));
      ExprSaid(d, TellHandled(v, TellExpr(v, ev)));
  }

  lemma {:induction false} AllSaid(es: seq<Expr>, ev: Story)
    ensures Replay(TellAll(es, ev)) == FlowAll(es, Replay(ev)) && Bad(TellAll(es, ev)) == (Bad(ev) || !KnownAll(es, Replay(ev)))
    decreases es
  {
    if es != [] {
      ExprSaid(es[0], ev);
      FlowSame(es[0], Replay(ev));
      KnownAllSame(es[1..], Flow(es[0], Replay(ev)), Replay(ev));
      AllSaid(es[1..], TellExpr(es[0], ev));
    }
  }

  lemma {:induction false} NamesSaid(e: Expr, ev: Story)
    ensures Replay(TellNames(e, ev)) == Replay(ev) && Bad(TellNames(e, ev)) == (Bad(ev) || !Known(e, Replay(ev)))
    decreases e
  {
    match e
    case Ident(x) => Next(ev, Read(x));
    case Node(args) => AllNamesSaid(args, ev);
    case UnwrapOr(v, d) => NamesSaid(v, ev); NamesSaid(d, TellNames(v, ev));
  }

  lemma {:induction false} AllNamesSaid(es: seq<Expr>, ev: Story)
    ensures Replay(TellAllNames(es, ev)) == Replay(ev) && Bad(TellAllNames(es, ev)) == (Bad(ev) || !KnownAll(es, Replay(ev)))
    decreases es
  {
    if es != [] {
      NamesSaid(es[0], ev);
      AllNamesSaid(es[1..], TellNames(es[0], ev));
    }
  }

  // The story t, begun by ev, is that of the run r.
  predicate Tells(t: Told, ev: Story, r: Run) {
    && t.outcome == r.outcome && t.rest == r.rest
    && (r.outcome == Normal ==> Replay(t.story) == r.scopes)
    && Bad(t.story) == (Bad(ev) || r.bad)
  }

  lemma {:induction false} LeaveSaid(t: Told, ev: Story, r: Run)
    requires Tells(t, ev, r)
    ensures Tells(Leave(t), ev, LeaveBlock(r))
  {
    if t.outcome == Normal { Next(t.story, Close); }
  }

  // A block, whose scope is entered after some events.
  lemma {:induction false} BlockSaid(body: seq<Stmt>, ev: Story, entry: Story, ch: seq<bool>, soiled: bool)
    requires Bad(entry) == (Bad(ev) || soiled)
    ensures Tells(Leave(TellBody(body, entry, ch)), ev, Soiled(LeaveBlock(ExecAll(body, Replay(entry), ch)), soiled))
    decreases |ch|, body, 1
  {
    BodySaid(body, entry, ch);
    LeaveSaid(TellBody(body, entry, ch), entry, ExecAll(body, Replay(entry), ch));
  }

  lemma {:induction false} BodySaid(body: seq<Stmt>, ev: Story, ch: seq<bool>)
    ensures Tells(TellBody(body, ev, ch), ev, ExecAll(body, Replay(ev), ch))
    decreases |ch|, body, 0
  {
    if body != [] {
      StmtSaid(body[0], ev, ch);
      var t := TellStmt(body[0], ev, ch);
      if t.outcome == Normal { BodySaid(body[1..], t.story, t.rest); }
    }
  }

  // The events of a block's beginning.
  lemma {:induction false} OpenSaid(ev: Story)
    ensures Replay(ev + [Open]) == Push(Replay(ev)) && Bad(ev + [Open]) == Bad(ev)
  {
    Next(ev, Open);
  }

  lemma {:induction false} EntrySaid(ev: Story, x: string, isResult: bool)
    ensures var entry := ev + [Open] + [Bind(x, isResult)];
            Replay(entry) == Define(Push(Replay(ev)), x, isResult) && Bad(entry) == Bad(ev)
  {
    Next(ev, Open);
    Next(ev + [Open], Bind(x, isResult));
  }

  lemma {:induction false} StmtSaid(st: Stmt, ev: Story, ch: seq<bool>)
    ensures Tells(TellStmt(st, ev, ch), ev, Exec(st, Replay(ev), ch))
    decreases |ch|, st, 2
  {
    match st
    case Let(_, _, _) => SimpleSaid(st, ev, ch);
    case Set(_, _) => SetSaid(st, ev, ch);
    case Return(_) => ReturnSaid(st, ev, ch);
    case Do(_, _) => SimpleSaid(st, ev, ch);
    case If(_, _, _) => IfSaid(st, ev, ch);
    case Match(_, _, _, _, _, _, _) => MatchSaid(st, ev, ch);
    case Transaction(_, _) => TransactionSaid(st, ev, ch);
    case Repeat(_, _) => RepeatSaid(st, ev, ch);
  }

  lemma {:induction false} SimpleSaid(st: Stmt, ev: Story, ch: seq<bool>)
    requires st.Let? || st.Do?
    ensures Tells(TellStmt(st, ev, ch), ev, Exec(st, Replay(ev), ch))
  {
    ExprSaid(st.value, ev);
    if st.Let? {
      Next(TellExpr(st.value, ev), Bind(st.name, st.isResult));
      FlowDefines(st.value, Replay(ev), st.name);
    } else if st.isResult {
      Next(TellExpr(st.value, ev), Discard);
    }
  }

  lemma {:induction false} SetSaid(st: Stmt, ev: Story, ch: seq<bool>)
    requires st.Set?
    ensures Tells(TellStmt(st, ev, ch), ev, Exec(st, Replay(ev), ch))
  {
    ExprSaid(st.value, ev);
    Next(TellExpr(st.value, ev), Assign(st.name));
  }

  lemma {:induction false} ReturnSaid(st: Stmt, ev: Story, ch: seq<bool>)
    requires st.Return?
    ensures Tells(TellStmt(st, ev, ch), ev, Exec(st, Replay(ev), ch))
  {
    ExprSaid(st.value, ev);
    HandledSaid(st.value, TellExpr(st.value, ev));
    Next(TellHandled(st.value, TellExpr(st.value, ev)), End);
  }

  lemma {:induction false} IfSaid(st: Stmt, ev: Story, ch: seq<bool>)
    requires st.If?
    ensures Tells(TellStmt(st, ev, ch), ev, Exec(st, Replay(ev), ch))
    decreases |ch|, st, 0
  {
    var before := TellExpr(st.cond, ev);
    ExprSaid(st.cond, ev);
    if ch != [] {
      OpenSaid(before);
      BlockSaid(if ch[0] then st.thn else st.els, ev, before + [Open], ch[1..], !Known(st.cond, Replay(ev)));
    }
  }

  lemma {:induction false} TransactionSaid(st: Stmt, ev: Story, ch: seq<bool>)
    requires st.Transaction?
    ensures Tells(TellStmt(st, ev, ch), ev, Exec(st, Replay(ev), ch))
    decreases |ch|, st, 0
  {
    Next(ev, Begin(st.conn));
    EntrySaid(ev + [Begin(st.conn)], st.conn, false);
    BlockSaid(st.body, ev, ev + [Begin(st.conn)] + [Open] + [Bind(st.conn, false)], ch, Amiss(Replay(ev), Begin(st.conn)));
  }

  lemma {:induction false} RepeatSaid(st: Stmt, ev: Story, ch: seq<bool>)
    requires st.Repeat?
    ensures Tells(TellStmt(st, ev, ch), ev, Exec(st, Replay(ev), ch))
    decreases |ch|, st, 1
  {
    var start := if st.loop.For? then TellAll(st.loop.headers, ev) else TellNames(st.loop.cond, ev);
    if st.loop.For? { AllSaid(st.loop.headers, ev); } else { NamesSaid(st.loop.cond, ev); }
    LoopSaid(st, start, ch);
  }

  lemma {:induction false} FlowDefines(e: Expr, s: Scopes, x: string)
    ensures CanDefine(Flow(e, s), x) == CanDefine(s, x)
  {
    FlowSame(e, s);
  }

  lemma {:induction false} MatchSaid(st: Stmt, ev: Story, ch: seq<bool>)
    requires st.Match?
    ensures Tells(TellStmt(st, ev, ch), ev, Exec(st, Replay(ev), ch))
    decreases |ch|, st, 0
  {
    var before := TellHandled(st.value, TellExpr(st.value, ev));
    ExprSaid(st.value, ev);
    HandledSaid(st.value, TellExpr(st.value, ev));
    if ch != [] {
      var (name, isResult, body) := if ch[0] then (st.okName, st.okResult, st.ok) else (st.errName, st.errResult, st.err);
      EntrySaid(before, name, isResult);
      BlockSaid(body, ev, before + [Open] + [Bind(name, isResult)], ch[1..], !Known(st.value, Replay(ev)));
    }
  }

  lemma {:induction false} LoopSaid(st: Stmt, ev: Story, ch: seq<bool>)
    requires st.Repeat? && (st.loop.While? ==> Known(st.loop.cond, Replay(ev)) || Bad(ev))
    ensures Tells(TellLoop(st, ev, ch), ev, Iterate(st, Replay(ev), ch))
    decreases |ch|, st, 0
  {
    if st.loop.While? { ExprSaid(st.loop.cond, ev); }
    if ch != [] && ch[0] {
      var entry := if st.loop.For? then ev + [Open] + [Bind(st.loop.name, false)] else TellExpr(st.loop.cond, ev + [Open]);
      TurnSaid(st.loop, ev);
      BlockSaid(st.body, ev, entry, ch[1..], false);
      var (t, r) := (Leave(TellBody(st.body, entry, ch[1..])), LeaveBlock(ExecAll(st.body, Replay(entry), ch[1..])));
      if t.outcome == Normal {
        TurnKnown(st, Replay(ev), ch[1..]);
        LoopSaid(st, t.story, t.rest);
      }
    }
  }

  lemma {:induction false} TurnSaid(loop: Loop, ev: Story)
    requires loop.While? ==> Known(loop.cond, Replay(ev)) || Bad(ev)
    ensures var entry := if loop.For? then ev + [Open] + [Bind(loop.name, false)] else TellExpr(loop.cond, ev + [Open]);
            Replay(entry) == Entry(loop, Replay(ev)) && Bad(entry) == Bad(ev)
  {
    if loop.For? {
      EntrySaid(ev, loop.name, false);
    } else {
      OpenSaid(ev);
      ExprSaid(loop.cond, ev + [Open]);
      KnownPush(loop.cond, Replay(ev));
    }
  }

  lemma {:induction false} KnownPush(e: Expr, s: Scopes)
    ensures Known(e, Push(s)) == Known(e, s)
    decreases e
  {
    match e
    case Ident(_) =>
    case Node(args) => KnownAllPush(args, s);
    case UnwrapOr(v, d) => KnownPush(v, s); KnownPush(d, s);
  }

  lemma {:induction false} KnownAllPush(es: seq<Expr>, s: Scopes)
    ensures KnownAll(es, Push(s)) == KnownAll(es, s)
    decreases es
  {
    if es != [] {
      KnownPush(es[0], s);
      KnownAllPush(es[1..], s);
    }
  }

  // A turn leaves the names that were known.
  lemma {:induction false} TurnKnown(st: Stmt, s: Scopes, ch: seq<bool>)
    requires st.Repeat? && LeaveBlock(ExecAll(st.body, Entry(st.loop, s), ch)).outcome == Normal
    ensures st.loop.While? ==> Known(st.loop.cond, LeaveBlock(ExecAll(st.body, Entry(st.loop, s), ch)).scopes) == Known(st.loop.cond, s)
  {
    if st.loop.While? {
      var (entry, r) := (Entry(st.loop, s), LeaveBlock(ExecAll(st.body, Entry(st.loop, s), ch)));
      FlowSame(st.loop.cond, Push(s));
      SameRefl(entry);
      CoversBlock(st.body, entry, entry, ch);
      LeqSame(r.scopes, Pop(AfterAll(st.body, entry)));
      BlockSame(st.body, s, entry);
      SameTrans(r.scopes, Pop(AfterAll(st.body, entry)), s);
      KnownSame(st.loop.cond, r.scopes, s);
    }
  }

  // ----- Functions -----

  // A function is entered, with its parameters.
  function Opening(names: seq<string>, params: map<string, bool>): Story
    requires forall x :: x in names ==> x in params
  {
    if names == [] then [Open] else Opening(names[..|names| - 1], params) + [Param(names[|names| - 1], params[names[|names| - 1]])]
  }

  function StoryOf(names: seq<string>, params: map<string, bool>, body: seq<Stmt>, ch: seq<bool>): Story
    requires forall x :: x in names ==> x in params
  {
    Leave(TellBody(body, Opening(names, params), ch)).story
  }

  function Entered(names: seq<string>, params: map<string, bool>): map<string, Binding>
    requires forall x :: x in names ==> x in params
  {
    map x | x in names :: Binding(params[x], false)
  }

  lemma EnteredMore(names: seq<string>, last: string, params: map<string, bool>)
    requires forall x :: x in names + [last] ==> x in params
    ensures forall x :: x in names ==> x in params
    ensures last in params && Entered(names + [last], params) == Entered(names, params)[last := Binding(params[last], false)]
  {
    assert last in names + [last];
    assert forall x :: x in names ==> x in names + [last];
    assert forall x :: x in names + [last] ==> x in names || x == last;
  }

  lemma {:induction false} OpeningSaid(names: seq<string>, params: map<string, bool>)
    requires forall x :: x in names ==> x in params
    ensures Replay(Opening(names, params)) == Cons(Entered(names, params), Nil) && !Bad(Opening(names, params))
  {
    if names == [] {
      Next([], Open);
      assert [] + [Open] == [Open] && Entered(names, params) == map[];
    } else {
      var (n, last) := (|names| - 1, names[|names| - 1]);
      assert names == names[..n] + [last];
      EnteredMore(names[..n], last, params);
      OpeningSaid(names[..n], params);
      Next(Opening(names[..n], params), Param(last, params[last]));
    }
  }

  // A run goes wrong exactly if its story does, in whatever order the parameters are named.
  lemma {:induction false} RunsTold(names: seq<string>, params: map<string, bool>, body: seq<Stmt>, ch: seq<bool>)
    requires forall x :: x in names <==> x in params
    ensures LeaveBlock(ExecAll(body, Start(params), ch)).bad <==> GoesWrong(StoryOf(names, params, body, ch))
  {
    OpeningSaid(names, params);
    var ev := Opening(names, params);
    assert Entered(names, params) == Start(params).head;
    BlockSaid(body, ev, ev, ch, false);
    BadExactly(StoryOf(names, params, body, ch));
  }

  // Safety of all runs is that no story goes wrong.
  lemma SafeTold(names: seq<string>, params: map<string, bool>, body: seq<Stmt>)
    requires forall x :: x in names <==> x in params
    ensures Safe(params, body) <==> forall ch :: !GoesWrong(StoryOf(names, params, body, ch))
  {
    forall ch ensures LeaveBlock(ExecAll(body, Start(params), ch)).bad <==> GoesWrong(StoryOf(names, params, body, ch)) {
      RunsTold(names, params, body, ch);
    }
  }
}
