/**
The checker's "pending result" analysis and the runs it speaks about. A variable of type
result is pending from the moment it receives a value until it is matched, returned or unwrapped.
`After` and `Clean` are what the one pass of the checker computes and reports; `Exec` is a run of
the body, with the branch decisions and iteration counts given by a list of choices.
*/
module PendingFlow {
  import opened Wrappers

  // Only what an expression does to variables matters: names are read, (unwrap-or x ..) handles x.
  datatype Expr =
    | Ident(name: string)
    | Node(args: seq<Expr>)
    | UnwrapOr(value: Expr, default: Expr)

  datatype Loop = While(cond: Expr) | For(name: string, headers: seq<Expr>)

  // `isResult` is the type of the declared name or of the discarded value.
  datatype Stmt =
    | Let(name: string, isResult: bool, value: Expr)
    | Set(name: string, value: Expr)
    | Return(value: Expr)
    | Do(value: Expr, isResult: bool)
    | If(cond: Expr, thn: seq<Stmt>, els: seq<Stmt>)
    | Repeat(loop: Loop, body: seq<Stmt>)
    | Match(value: Expr, okName: string, okResult: bool, ok: seq<Stmt>, errName: string, errResult: bool, err: seq<Stmt>)
    | Transaction(conn: string, body: seq<Stmt>)

  datatype Binding = Binding(isResult: bool, pending: bool)

  // Innermost scope first.
  type Scopes = List<map<string, Binding>>

  function Push(s: Scopes): Scopes { Cons(map[], s) }

  function Pop(s: Scopes): Scopes { if s.Cons? then s.tail else Nil }

  function Lookup(s: Scopes, x: string): Option<Binding> {
    match s
    case Nil => None
    case Cons(scope, up) => if x in scope then Some(scope[x]) else Lookup(up, x)
  }

  // Sets the pending bit of the innermost x, if there is one.
  function Mark(s: Scopes, x: string, pending: bool): Scopes {
    match s
    case Nil => Nil
    case Cons(scope, up) =>
      if x in scope then Cons(scope[x := scope[x].(pending := pending)], up) else Cons(scope, Mark(up, x, pending))
  }

  function Define(s: Scopes, x: string, isResult: bool): Scopes {
    if x == "_" || s.Nil? then s else Cons(s.head[x := Binding(isResult, isResult)], s.tail)
  }

  // Names bound as values that are no result: never pending.
  function DefinePlain(s: Scopes, x: string): Scopes { Define(s, x, false) }

  predicate CanDefine(s: Scopes, x: string) { x == "_" || (s.Cons? && x !in s.head) }

  function Consume(s: Scopes, e: Expr): Scopes {
    if e.Ident? then Mark(s, e.name, false) else s
  }

  predicate NoneIn(scope: map<string, Binding>) { forall x :: x in scope ==> !scope[x].pending }

  predicate NonePending(s: Scopes) {
    match s
    case Nil => true
    case Cons(scope, up) => NoneIn(scope) && NonePending(up)
  }

  function Either(a: map<string, Binding>, b: map<string, Binding>): map<string, Binding> {
    map x | x in a :: a[x].(pending := a[x].pending || (x in b && b[x].pending))
  }

  // `merge`: pending on one path or the other.
  function Or(a: Scopes, b: Scopes): Scopes {
    match a
    case Nil => Nil
    case Cons(scope, up) => if b.Nil? then a else Cons(Either(scope, b.head), Or(up, b.tail))
  }

  // ----- Expressions -----

  function Flow(e: Expr, s: Scopes): Scopes
    decreases e
  {
    match e
    case Ident(_) => s
    case Node(args) => FlowAll(args, s)
    case UnwrapOr(v, d) => Flow(d, Consume(Flow(v, s), v))
  }

  function FlowAll(es: seq<Expr>, s: Scopes): Scopes
    decreases es
  {
    if es == [] then s else FlowAll(es[1..], Flow(es[0], s))
  }

  // Every name is known.
  predicate Known(e: Expr, s: Scopes)
    decreases e
  {
    match e
    case Ident(x) => Lookup(s, x).Some?
    case Node(args) => KnownAll(args, s)
    case UnwrapOr(v, d) => Known(v, s) && Known(d, s)
  }

  predicate KnownAll(es: seq<Expr>, s: Scopes)
    decreases es
  {
    es == [] || (Known(es[0], s) && KnownAll(es[1..], s))
  }

  // ----- The analysis -----

  // A body that returns on every path.
  predicate Returns(body: seq<Stmt>)
    decreases body
  {
    body != [] && (ReturnsStmt(body[0]) || Returns(body[1..]))
  }

  predicate ReturnsStmt(s: Stmt)
    decreases s, 0
  {
    match s
    case Return(_) => true
    case If(_, t, f) => Returns(t) && Returns(f)
    case Match(_, _, _, ok, _, _, err) => Returns(ok) && Returns(err)
    case Transaction(_, body) => Returns(body)
    case Let(_, _, _) => false
    case Set(_, _) => false
    case Do(_, _) => false
    case Repeat(_, _) => false
  }

  // The state after two branches: one that returns does not count.
  function Joined(thn: seq<Stmt>, afterThen: Scopes, els: seq<Stmt>, afterElse: Scopes): Scopes {
    if Returns(thn) then afterElse else if Returns(els) then afterThen else Or(afterThen, afterElse)
  }

  function Headers(loop: Loop, s: Scopes): Scopes { if loop.For? then FlowAll(loop.headers, s) else s }

  // The scope in which one iteration runs its body.
  function Entry(loop: Loop, s: Scopes): Scopes {
    if loop.For? then DefinePlain(Push(s), loop.name) else Flow(loop.cond, Push(s))
  }

  function After(s: Stmt, sc: Scopes): Scopes
    decreases s, 0
  {
    match s
    case Let(x, isResult, e) => Define(Flow(e, sc), x, isResult)
    case Set(x, e) =>
      var b := Lookup(sc, x);
      if b.Some? then Mark(Flow(e, sc), x, b.value.isResult) else Flow(e, sc)
    case Return(e) => Consume(Flow(e, sc), e)
    case Do(e, _) => Flow(e, sc)
    case If(c, t, f) =>
      var before := Flow(c, sc);
      Joined(t, Pop(AfterAll(t, Push(before))), f, Pop(AfterAll(f, Push(before))))
    case Match(e, okName, okResult, ok, errName, errResult, err) =>
      var before := Consume(Flow(e, sc), e);
      Joined(ok, Pop(AfterAll(ok, Define(Push(before), okName, okResult))),
             err, Pop(AfterAll(err, Define(Push(before), errName, errResult))))
    case Transaction(conn, body) => Pop(AfterAll(body, DefinePlain(Push(sc), conn)))
    case Repeat(loop, body) => Or(sc, Pop(AfterAll(body, Entry(loop, Headers(loop, sc)))))
  }

  function AfterAll(body: seq<Stmt>, sc: Scopes): Scopes
    decreases body
  {
    if body == [] then sc else AfterAll(body[1..], After(body[0], sc))
  }

  // No diagnostic. With `twice`, each loop body is analysed a second time, from the states in
  // which later iterations may start; the checker itself stops after the first (`twice` false).
  predicate Clean(s: Stmt, sc: Scopes, twice: bool)
    decreases s, 0
  {
    match s
    case Let(x, _, e) => Known(e, sc) && CanDefine(sc, x)
    case Set(x, e) => Lookup(sc, x).Some? && !Lookup(sc, x).value.pending && Known(e, sc)
    case Return(e) => Known(e, sc) && NonePending(After(s, sc))
    case Do(e, isResult) => Known(e, sc) && !isResult
    case If(c, t, f) =>
      var before := Flow(c, sc);
      Known(c, sc) && CleanBlock(t, Push(before), twice) && CleanBlock(f, Push(before), twice)
    case Match(e, okName, okResult, ok, errName, errResult, err) =>
      var before := Consume(Flow(e, sc), e);
      && Known(e, sc)
      && CleanBlock(ok, Define(Push(before), okName, okResult), twice)
      && CleanBlock(err, Define(Push(before), errName, errResult), twice)
    case Transaction(conn, body) =>
      Lookup(sc, conn).Some? && !Lookup(sc, conn).value.pending && CleanBlock(body, DefinePlain(Push(sc), conn), twice)
    case Repeat(loop, body) =>
      && KnownHeaders(loop, sc)
      && CleanBlock(body, Entry(loop, Headers(loop, sc)), twice)
      && (twice ==> CleanBlock(body, Entry(loop, Starts(loop, body, sc)), twice))
  }

  predicate KnownHeaders(loop: Loop, sc: Scopes) {
    if loop.For? then KnownAll(loop.headers, sc) else Known(loop.cond, sc)
  }

  // The states in which iterations start: after the headers, or after an earlier iteration.
  function Starts(loop: Loop, body: seq<Stmt>, sc: Scopes): Scopes
    decreases body, 1
  {
    Or(Headers(loop, sc), Pop(AfterAll(body, Entry(loop, Headers(loop, sc)))))
  }

  predicate CleanAll(body: seq<Stmt>, sc: Scopes, twice: bool)
    decreases body, 0
  {
    body == [] || (Clean(body[0], sc, twice) && CleanAll(body[1..], After(body[0], sc), twice))
  }

  // A block is checked when it is left, too: nothing pending in its own scope.
  predicate CleanBlock(body: seq<Stmt>, sc: Scopes, twice: bool)
    decreases body, 1
  {
    CleanAll(body, sc, twice) && NonePendingHere(AfterAll(body, sc))
  }

  predicate NonePendingHere(sc: Scopes) { sc.Cons? ==> NoneIn(sc.head) }

  // ----- Runs -----

  datatype Outcome = Normal | Returned | Cut

  // `bad`: a result was dropped, overwritten or left behind unhandled, or a name was unknown or
  // declared twice. `Cut` is a run whose choices are used up: any prefix of a longer run.
  datatype Run = Run(outcome: Outcome, scopes: Scopes, rest: seq<bool>, bad: bool)

  // Leaving a block that ended normally drops its scope.
  function LeaveBlock(r: Run): Run {
    if r.outcome == Normal then r.(scopes := Pop(r.scopes), bad := r.bad || !NonePendingHere(r.scopes)) else r
  }

  function Soiled(r: Run, bad: bool): Run { r.(bad := r.bad || bad) }

  function Exec(s: Stmt, sc: Scopes, ch: seq<bool>): (r: Run)
    ensures |r.rest| <= |ch|
    decreases |ch|, s, 1
  {
    match s
    case Let(x, isResult, e) =>
      Run(Normal, Define(Flow(e, sc), x, isResult), ch, !Known(e, sc) || !CanDefine(sc, x))
    case Set(x, e) =>
      // The value comes first: it may handle x itself.
      var b := Lookup(Flow(e, sc), x);
      Run(Normal, if b.Some? then Mark(Flow(e, sc), x, b.value.isResult) else Flow(e, sc), ch,
          !Known(e, sc) || b.None? || b.value.pending)
    case Return(e) =>
      var end := Consume(Flow(e, sc), e);
      Run(Returned, end, ch, !Known(e, sc) || !NonePending(end))
    case Do(e, isResult) => Run(Normal, Flow(e, sc), ch, !Known(e, sc) || isResult)
    case If(c, t, f) =>
      var before := Flow(c, sc);
      if ch == [] then Run(Cut, before, [], !Known(c, sc))
      else if ch[0] then Soiled(LeaveBlock(ExecAll(t, Push(before), ch[1..])), !Known(c, sc))
      else Soiled(LeaveBlock(ExecAll(f, Push(before), ch[1..])), !Known(c, sc))
    case Match(e, okName, okResult, ok, errName, errResult, err) =>
      var before := Consume(Flow(e, sc), e);
      if ch == [] then Run(Cut, before, [], !Known(e, sc))
      else if ch[0] then Soiled(LeaveBlock(ExecAll(ok, Define(Push(before), okName, okResult), ch[1..])), !Known(e, sc))
      else Soiled(LeaveBlock(ExecAll(err, Define(Push(before), errName, errResult), ch[1..])), !Known(e, sc))
    case Transaction(conn, body) =>
      var b := Lookup(sc, conn);
      Soiled(LeaveBlock(ExecAll(body, DefinePlain(Push(sc), conn), ch)), b.None? || b.value.pending)
    case Repeat(loop, body) =>
      Soiled(Iterate(s, Headers(loop, sc), ch), !KnownHeaders(loop, sc))
  }

  function ExecAll(body: seq<Stmt>, sc: Scopes, ch: seq<bool>): (r: Run)
    ensures |r.rest| <= |ch|
    decreases |ch|, body
  {
    if body == [] then Run(Normal, sc, ch, false) else
    var r := Exec(body[0], sc, ch);
    if r.outcome == Normal then Soiled(ExecAll(body[1..], r.scopes, r.rest), r.bad) else r
  }

  // The iterations of a loop: the next choice says whether there is another one. A while
  // condition is evaluated before each of them and once more at the end.
  function Iterate(s: Stmt, sc: Scopes, ch: seq<bool>): (r: Run)
    requires s.Repeat?
    ensures |r.rest| <= |ch|
    decreases |ch|, s, 0
  {
    var after := if s.loop.While? then Flow(s.loop.cond, sc) else sc;
    if ch == [] then Run(Cut, sc, [], false)
    else if !ch[0] then Run(Normal, after, ch[1..], false) else
    var r := LeaveBlock(ExecAll(s.body, Entry(s.loop, sc), ch[1..]));
    if r.outcome == Normal then Soiled(Iterate(s, r.scopes, r.rest), r.bad) else r
  }
}
