/**
The transaction blocks of a generated function. A block begins a transaction, shadows the name of its
connection, schedules the rollback for the return of the function, runs its body and commits; what is
scheduled runs, the last first, however the function is left.
*/
module DbTransaction {

  // ----- A transaction -----

  datatype End = Commit(ok: bool) | Rollback

  // What reached the driver, and how broken the connection went back each time it did.
  datatype Tx = Tx(done: bool, ends: seq<End>, releases: seq<bool>)

  const FRESH := Tx(false, [], [])

  function AfterCommit(t: Tx, ok: bool, lost: bool): Tx {
    if t.done then t else Tx(true, t.ends + [Commit(ok)], t.releases + [!ok && lost])
  }

  function AfterRollback(t: Tx, lost: bool): Tx {
    if t.done then t else Tx(true, t.ends + [Rollback], t.releases + [lost])
  }

  class Transaction {
    var done: bool
    var ends: seq<End>
    var releases: seq<bool>

    constructor ()
      ensures Seen() == FRESH
    {
      done, ends, releases := false, [], [];
    }

    function Seen(): Tx
      reads this
    {
      Tx(done, ends, releases)
    }

    method Commit(ok: bool, lost: bool) returns (r: bool)
      modifies this
      ensures done && r == (!old(done) && ok)
      ensures Seen() == AfterCommit(old(Seen()), ok, lost)
    {
      if done { return false; }
      done := true;
      ends := ends + [End.Commit(ok)];
      releases := releases + [!ok && lost];
      r := ok;
    }

    // Does nothing after a commit, so that it can be scheduled in any case.
    method Rollback(lost: bool)
      modifies this
      ensures done && Seen() == AfterRollback(old(Seen()), lost)
    {
      if done { return; }
      done := true;
      ends := ends + [End.Rollback];
      releases := releases + [lost];
    }
  }

  // ----- The source -----

  datatype Stmt =
    | Step                                    // goes on
    | Risky                                   // may fail in a try
    | Return
    | Break
    | Continue
    | If(thn: seq<Stmt>, els: seq<Stmt>)
    | Loop(body: seq<Stmt>)
    | Transaction(conn: string, body: seq<Stmt>)

  // A connection name stands for a pool, or for the transaction that shadows it.
  datatype Handle = Pool | Of(tx: nat)

  type Env = map<string, Handle>

  // `Fails` leaves the function through on-err or its own result; `Cut` is a run that has not ended.
  datatype Exit = Falls | Breaks | Continues | Returns | Fails | Cut

  datatype Fate = Open | Committed(ok: bool) | Undone

  datatype Outcome = Outcome(fates: seq<Fate>, left: seq<nat>, exit: Exit)

  // Choices decide every branch, turn, begin, commit and try. A transaction on a transaction fails.
  function RunStmt(s: Stmt, env: Env, fates: seq<Fate>, cs: seq<nat>): (o: Outcome)
    ensures |o.left| <= |cs|
    decreases |cs|, s, 1
  {
    match s
    case Step => Outcome(fates, cs, Falls)
    case Return => Outcome(fates, cs, Returns)
    case Break => Outcome(fates, cs, Breaks)
    case Continue => Outcome(fates, cs, Continues)
    case Risky => if cs == [] then Outcome(fates, cs, Cut) else Outcome(fates, cs[1..], if cs[0] == 0 then Falls else Fails)
    case If(t, f) =>
      if cs == [] then Outcome(fates, cs, Cut) else if cs[0] == 0 then Run(t, env, fates, cs[1..]) else Run(f, env, fates, cs[1..])
    case Loop(_) => RunLoop(s, env, fates, cs)
    case Transaction(conn, body) =>
      if conn !in env then Outcome(fates, cs, Cut)
      else if env[conn].Of? then Outcome(fates, cs, Fails)
      else if cs == [] then Outcome(fates, cs, Cut)
      else if cs[0] != 0 then Outcome(fates, cs[1..], Fails)
      else Closed(|fates|, Run(body, env[conn := Of(|fates|)], fates + [Open], cs[1..]))
  }

  // The end of a block: its body ran to the end and is committed, or it is undone.
  function Closed(n: nat, o: Outcome): (r: Outcome)
    ensures |r.left| <= |o.left|
  {
    if o.exit.Cut? || n >= |o.fates| then o.(exit := Cut)
    else if !o.exit.Falls? then o.(fates := o.fates[n := Undone])
    else if o.left == [] then o.(exit := Cut)
    else Outcome(o.fates[n := Committed(o.left[0] == 0)], o.left[1..], if o.left[0] == 0 then Falls else Fails)
  }

  function RunLoop(s: Stmt, env: Env, fates: seq<Fate>, cs: seq<nat>): (o: Outcome)
    requires s.Loop?
    ensures |o.left| <= |cs|
    decreases |cs|, s, 0
  {
    if cs == [] then Outcome(fates, cs, Cut)
    else if cs[0] == 0 then Outcome(fates, cs[1..], Falls)
    else
      var o := Run(s.body, env, fates, cs[1..]);
      if o.exit.Breaks? then o.(exit := Falls)
      else if o.exit.Falls? || o.exit.Continues? then RunLoop(s, env, o.fates, o.left)
      else o
  }

  function Run(body: seq<Stmt>, env: Env, fates: seq<Fate>, cs: seq<nat>): (o: Outcome)
    ensures |o.left| <= |cs|
    decreases |cs|, body
  {
    if body == [] then Outcome(fates, cs, Falls) else
    var o := RunStmt(body[0], env, fates, cs);
    if o.exit.Falls? then Run(body[1..], env, o.fates, o.left) else o
  }

  // ----- The generated code -----

  // The variables the generator makes up.
  datatype Name = TryName(n: nat) | TxName(n: nat) | CommitName(n: nat)

  datatype GStmt =
    | GStep
    | GCall(id: Name)                         // id := a call that may fail
    | GBegin(id: Name, conn: string)          // id := rt.DBBegin(conn)
    | GGuard(id: Name)                        // if !id.OK { .. return .. }
    | GShadow(conn: string, id: Name)         // conn := id.Value
    | GDefer(conn: string)                    // defer rt.DBRollback(conn)
    | GCommit(id: Name, conn: string)         // id := rt.DBCommit(conn)
    | GReturn
    | GBreak
    | GContinue
    | GIf(thn: seq<GStmt>, els: seq<GStmt>)
    | GFor(body: seq<GStmt>)
    | GBlock(body: seq<GStmt>)

  function Gen(s: Stmt, n: nat): (seq<GStmt>, nat)
    decreases s
  {
    match s
    case Step => ([GStep], n)
    case Return => ([GReturn], n)
    case Break => ([GBreak], n)
    case Continue => ([GContinue], n)
    case Risky => ([GCall(TryName(n + 1)), GGuard(TryName(n + 1))], n + 1)
    case If(t, f) =>
      var (gt, n1) := GenBody(t, n);
      var (gf, n2) := GenBody(f, n1);
      ([GIf(gt, gf)], n2)
    case Loop(body) =>
      var (g, n1) := GenBody(body, n + 1);
      ([GFor(g)], n1)
    case Transaction(conn, body) =>
      var (g, n1) := GenBody(body, n + 1);
      ([GBlock(Opening(conn, n + 1) + g + Closing(conn, n + 1))], n1)
  }

  function Opening(conn: string, n: nat): seq<GStmt> {
    [GBegin(TxName(n), conn), GGuard(TxName(n)), GShadow(conn, TxName(n)), GDefer(conn)]
  }

  function Closing(conn: string, n: nat): seq<GStmt> { [GCommit(CommitName(n), conn), GGuard(CommitName(n))] }

  function GenBody(body: seq<Stmt>, n: nat): (seq<GStmt>, nat)
    decreases body
  {
    if body == [] then ([], n) else
    var (g, n1) := Gen(body[0], n);
    var (rest, n2) := GenBody(body[1..], n1);
    (g + rest, n2)
  }

  // ----- The lines as they are written -----

  datatype Line = Simple(s: GStmt) | OpenIf | OpenElse | OpenFor | OpenBlock | CloseBrace

  function Print1(out: seq<Line>, s: GStmt): seq<Line>
    decreases s, 1
  {
    match s
    case GIf(t, f) => (if f == [] then Print(out + [OpenIf], t) else Print(Print(out + [OpenIf], t) + [OpenElse], f)) + [CloseBrace]
    case GFor(body) => Print(out + [OpenFor], body) + [CloseBrace]
    case GBlock(body) => Print(out + [OpenBlock], body) + [CloseBrace]
    case GStep => out + [Simple(s)]
    case GCall(_) => out + [Simple(s)]
    case GBegin(_, _) => out + [Simple(s)]
    case GGuard(_) => out + [Simple(s)]
    case GShadow(_, _) => out + [Simple(s)]
    case GDefer(_) => out + [Simple(s)]
    case GCommit(_, _) => out + [Simple(s)]
    case GReturn => out + [Simple(s)]
    case GBreak => out + [Simple(s)]
    case GContinue => out + [Simple(s)]
  }

  function Print(out: seq<Line>, code: seq<GStmt>): seq<Line>
    decreases code
  {
    if code == [] then out else Print(Print1(out, code[0]), code[1..])
  }

  lemma {:induction false} PrintAppend(out: seq<Line>, a: seq<GStmt>, b: seq<GStmt>)
    ensures Print(out, a + b) == Print(Print(out, a), b)
    decreases |a|
  {
    if a == [] {
      assert a + b == b;
    } else {
      assert (a + b)[1..] == a[1..] + b;
      PrintAppend(Print1(out, a[0]), a[1..], b);
    }
  }

  lemma {:induction false} PrintOne(out: seq<Line>, s: GStmt)
    ensures Print(out, [s]) == Print1(out, s)
  {
    assert [s][1..] == [];
  }

  lemma {:induction false} PrintTwo(out: seq<Line>, s: GStmt, t: GStmt)
    ensures Print(out, [s, t]) == Print1(Print1(out, s), t)
  {
    assert [s, t][1..] == [t];
    PrintOne(Print1(out, s), t);
  }

  lemma {:induction false} GenSnoc(body: seq<Stmt>, s: Stmt, n: nat)
    ensures var (g, n1) := GenBody(body, n);
            GenBody(body + [s], n) == (g + Gen(s, n1).0, Gen(s, n1).1)
    decreases |body|
  {
    if body == [] {
      assert body + [s] == [s] && [s][1..] == [];
      assert Gen(s, n).0 + [] == Gen(s, n).0 == [] + Gen(s, n).0;
    } else {
      assert (body + [s])[1..] == body[1..] + [s];
      var (g0, n0) := Gen(body[0], n);
      var (g1, n1) := GenBody(body[1..], n0);
      GenSnoc(body[1..], s, n0);
      assert (g0 + g1) + Gen(s, n1).0 == g0 + (g1 + Gen(s, n1).0);
    }
  }

  lemma {:induction false} GenEmpty(body: seq<Stmt>, n: nat)
    ensures (GenBody(body, n).0 == []) == (body == [])
  {
    if body != [] { assert Gen(body[0], n).0 != []; }
  }

  class Generator {
    var sb: seq<Line>
    var serial: nat

    constructor ()
      ensures sb == [] && serial == 0
    {
      sb, serial := [], 0;
    }

    method Write(line: Line)
      modifies `sb
      ensures sb == old(sb) + [line]
    {
      sb := sb + [line];
    }

    method GenStmt(s: Stmt)
      modifies this
      ensures sb == Print(old(sb), Gen(s, old(serial)).0) && serial == Gen(s, old(serial)).1
      decreases s, 2
    {
      ghost var before, n := sb, serial;
      match s {
        case Step => Write(Simple(GStep)); PrintOne(before, GStep);
        case Return => Write(Simple(GReturn)); PrintOne(before, GReturn);
        case Break => Write(Simple(GBreak)); PrintOne(before, GBreak);
        case Continue => Write(Simple(GContinue)); PrintOne(before, GContinue);
        case Risky =>
          serial := serial + 1;
          Write(Simple(GCall(TryName(serial))));
          Write(Simple(GGuard(TryName(serial))));
          PrintTwo(before, GCall(TryName(serial)), GGuard(TryName(serial)));
        case If(t, f) =>
          Write(OpenIf);
          GenStmts(t);
          ghost var (gt, n1) := GenBody(t, n);
          GenEmpty(f, n1);
          if |f| > 0 {
            Write(OpenElse);
            GenStmts(f);
          }
          Write(CloseBrace);
          PrintOne(before, GIf(gt, GenBody(f, n1).0));
        case Loop(body) =>
          serial := serial + 1;
          Write(OpenFor);
          GenStmts(body);
          Write(CloseBrace);
          PrintOne(before, GFor(GenBody(body, n + 1).0));
        case Transaction(conn, body) => GenDBTransaction(s);
      }
    }

    method GenDBTransaction(s: Stmt)
      requires s.Transaction?
      modifies this
      ensures sb == Print(old(sb), Gen(s, old(serial)).0) && serial == Gen(s, old(serial)).1
      decreases s, 1
    {
      ghost var before := sb;
      serial := serial + 1;
      var id := serial;
      Write(OpenBlock);
      WriteOpening(s.conn, id);
      GenStmts(s.body);
      Write(Simple(GCommit(CommitName(id), s.conn)));
      Write(Simple(GGuard(CommitName(id))));
      Write(CloseBrace);
      BlockLines(before, s.conn, GenBody(s.body, id).0, id);
    }

    // The begin with its guard, the shadowed name and the scheduled rollback.
    method WriteOpening(conn: string, id: nat)
      modifies `sb
      ensures sb == Print(old(sb), Opening(conn, id))
    {
      ghost var before := sb;
      Write(Simple(GBegin(TxName(id), conn)));
      Write(Simple(GGuard(TxName(id))));
      Write(Simple(GShadow(conn, TxName(id))));
      Write(Simple(GDefer(conn)));
      OpeningLines(before, conn, id);
    }

    method GenStmts(body: seq<Stmt>)
      modifies this
      ensures sb == Print(old(sb), GenBody(body, old(serial)).0) && serial == GenBody(body, old(serial)).1
      decreases body, 0
    {
      ghost var before, n := sb, serial;
      var i := 0;
      while i < |body|
        invariant 0 <= i <= |body|
        invariant sb == Print(before, GenBody(body[..i], n).0) && serial == GenBody(body[..i], n).1
      {
        GenSnoc(body[..i], body[i], n);
        assert body[..i + 1] == body[..i] + [body[i]];
        PrintAppend(before, GenBody(body[..i], n).0, Gen(body[i], serial).0);
        GenStmt(body[i]);
        i := i + 1;
      }
      assert body[..i] == body;
    }
  }

  lemma {:induction false} BlockLines(out: seq<Line>, conn: string, g: seq<GStmt>, n: nat)
    ensures Print(out, [GBlock(Opening(conn, n) + g + Closing(conn, n))]) ==
            Print(Print(out + [OpenBlock], Opening(conn, n)), g)
            + [Simple(GCommit(CommitName(n), conn))] + [Simple(GGuard(CommitName(n)))] + [CloseBrace]
  {
    var (a, z, o) := (Opening(conn, n), Closing(conn, n), out + [OpenBlock]);
    PrintOne(out, GBlock(a + g + z));
    PrintAppend(o, a + g, z);
    PrintAppend(o, a, g);
    PrintTwo(Print(o, a + g), GCommit(CommitName(n), conn), GGuard(CommitName(n)));
  }

  lemma {:induction false} OpeningLines(out: seq<Line>, conn: string, n: nat)
    ensures Print(out, Opening(conn, n)) ==
            out + [Simple(GBegin(TxName(n), conn))] + [Simple(GGuard(TxName(n)))] + [Simple(GShadow(conn, TxName(n)))] + [Simple(GDefer(conn))]
  {
    var (a, b, c, d) := (GBegin(TxName(n), conn), GGuard(TxName(n)), GShadow(conn, TxName(n)), GDefer(conn));
    assert Opening(conn, n) == [a, b] + [c, d];
    PrintAppend(out, [a, b], [c, d]);
    PrintTwo(out, a, b);
    PrintTwo(Print(out, [a, b]), c, d);
  }

  // ----- Its meaning -----

  datatype Result = Result(ok: bool, handle: Handle)

  datatype State = State(env: Env, temps: map<Name, Result>, txs: seq<Tx>, defers: seq<Handle>, left: seq<nat>)

  const FAILED := Result(false, Pool)

  // Whether the connection of a transaction is lost in the last call on it.
  type Losses = nat -> bool

  function StepG(s: GStmt, st: State, lost: Losses): (r: (State, Exit))
    ensures |r.0.left| <= |st.left|
    decreases |st.left|, s, 1
  {
    match s
    case GStep => (st, Falls)
    case GReturn => (st, Returns)
    case GBreak => (st, Breaks)
    case GContinue => (st, Continues)
    case GCall(id) =>
      if st.left == [] then (st, Cut)
      else (st.(temps := st.temps[id := Result(st.left[0] == 0, Pool)], left := st.left[1..]), Falls)
    case GGuard(id) => (st, if id !in st.temps then Cut else if st.temps[id].ok then Falls else Fails)
    case GBegin(id, conn) =>
      if conn !in st.env then (st, Cut)
      else if st.env[conn].Of? then (st.(temps := st.temps[id := FAILED]), Falls)
      else if st.left == [] then (st, Cut)
      else if st.left[0] != 0 then (st.(temps := st.temps[id := FAILED], left := st.left[1..]), Falls)
      else (st.(temps := st.temps[id := Result(true, Of(|st.txs|))], txs := st.txs + [FRESH], left := st.left[1..]), Falls)
    case GShadow(conn, id) => if id !in st.temps then (st, Cut) else (st.(env := st.env[conn := st.temps[id].handle]), Falls)
    case GDefer(conn) => if conn !in st.env then (st, Cut) else (st.(defers := st.defers + [st.env[conn]]), Falls)
    case GCommit(id, conn) =>
      if conn !in st.env then (st, Cut)
      else if st.env[conn].Pool? || st.env[conn].tx >= |st.txs| || st.txs[st.env[conn].tx].done then
        (st.(temps := st.temps[id := FAILED]), Falls)
      else if st.left == [] then (st, Cut)
      else
        var (t, ok) := (st.env[conn].tx, st.left[0] == 0);
        (st.(temps := st.temps[id := Result(ok, Pool)], txs := st.txs[t := AfterCommit(st.txs[t], ok, lost(t))], left := st.left[1..]), Falls)
    case GIf(t, f) =>
      if st.left == [] then (st, Cut)
      else if st.left[0] == 0 then Outside(st.env, RunG(t, st.(left := st.left[1..]), lost))
      else Outside(st.env, RunG(f, st.(left := st.left[1..]), lost))
    case GFor(_) => ForG(s, st, lost)
    case GBlock(body) => Outside(st.env, RunG(body, st, lost))
  }

  // What a Go block declares ends with it.
  function Outside(env: Env, r: (State, Exit)): (State, Exit) { (r.0.(env := env), r.1) }

  function ForG(s: GStmt, st: State, lost: Losses): (r: (State, Exit))
    requires s.GFor?
    ensures |r.0.left| <= |st.left|
    decreases |st.left|, s, 0
  {
    if st.left == [] then (st, Cut)
    else if st.left[0] == 0 then (st.(left := st.left[1..]), Falls)
    else
      var (st1, x) := Outside(st.env, RunG(s.body, st.(left := st.left[1..]), lost));
      if x.Breaks? then (st1, Falls) else if x.Falls? || x.Continues? then ForG(s, st1, lost) else (st1, x)
  }

  function RunG(body: seq<GStmt>, st: State, lost: Losses): (r: (State, Exit))
    ensures |r.0.left| <= |st.left|
    decreases |st.left|, body
  {
    if body == [] then (st, Falls) else
    var (st1, x) := StepG(body[0], st, lost);
    if x.Falls? then RunG(body[1..], st1, lost) else (st1, x)
  }

  // The return of the function runs what was scheduled, the last first.
  function Unwind(defers: seq<Handle>, txs: seq<Tx>, lost: Losses): seq<Tx> {
    if defers == [] then txs else
    var h := defers[|defers| - 1];
    Unwind(defers[..|defers| - 1],
           if h.Of? && h.tx < |txs| then txs[h.tx := AfterRollback(txs[h.tx], lost(h.tx))] else txs, lost)
  }

  // A call of the function with this code.
  function CallCode(code: seq<GStmt>, env: Env, cs: seq<nat>, lost: Losses): (seq<Tx>, seq<nat>, Exit) {
    var (st, x) := RunG(code, State(env, map[], [], [], cs), lost);
    if x.Cut? then (st.txs, st.left, x) else (Unwind(st.defers, st.txs, lost), st.left, x)
  }

  function Call(body: seq<Stmt>, env: Env, cs: seq<nat>, lost: Losses): (seq<Tx>, seq<nat>, Exit) {
    CallCode(GenBody(body, 0).0, env, cs, lost)
  }

  // ----- A run of the source keeps the fates it found and leaves none open -----

  predicate Settles(fates: seq<Fate>, o: Outcome) {
    && fates <= o.fates
    && (!o.exit.Cut? ==> forall i :: |fates| <= i < |o.fates| ==> o.fates[i] != Open)
  }

  lemma {:induction false} StmtSettles(s: Stmt, env: Env, fates: seq<Fate>, cs: seq<nat>)
    ensures Settles(fates, RunStmt(s, env, fates, cs))
    decreases |cs|, s, 1
  {
    match s
    case If(t, f) =>
      if cs != [] {
        BodySettles(t, env, fates, cs[1..]);
        BodySettles(f, env, fates, cs[1..]);
      }
    case Loop(_) => LoopSettles(s, env, fates, cs);
    case Transaction(conn, body) =>
      if conn in env && cs != [] { BodySettles(body, env[conn := Of(|fates|)], fates + [Open], cs[1..]); }
    case Step =>
    case Risky =>
    case Return =>
    case Break =>
    case Continue =>
  }

  lemma {:induction false} LoopSettles(s: Stmt, env: Env, fates: seq<Fate>, cs: seq<nat>)
    requires s.Loop?
    ensures Settles(fates, RunLoop(s, env, fates, cs))
    decreases |cs|, s, 0
  {
    if cs != [] && cs[0] != 0 {
      BodySettles(s.body, env, fates, cs[1..]);
      var o := Run(s.body, env, fates, cs[1..]);
      if o.exit.Falls? || o.exit.Continues? { LoopSettles(s, env, o.fates, o.left); }
    }
  }

  lemma {:induction false} BodySettles(body: seq<Stmt>, env: Env, fates: seq<Fate>, cs: seq<nat>)
    ensures Settles(fates, Run(body, env, fates, cs))
    decreases |cs|, body
  {
    if body != [] {
      StmtSettles(body[0], env, fates, cs);
      var o := RunStmt(body[0], env, fates, cs);
      if o.exit.Falls? { BodySettles(body[1..], env, o.fates, o.left); }
    }
  }

  // ----- The generated code follows the source -----

  // What has become of a transaction by now: one that is not committed waits for its scheduled rollback.
  predicate Stands(fate: Fate, t: Tx, lost: bool) {
    match fate
    case Committed(ok) => t == Tx(true, [Commit(ok)], [!ok && lost])
    case Open => t == FRESH
    case Undone => t == FRESH
  }

  ghost predicate At(st: State, env: Env, fates: seq<Fate>, cs: seq<nat>, lost: Losses) {
    && st.env == env && st.left == cs && |st.txs| == |fates|
    && (forall i :: 0 <= i < |fates| ==> Stands(fates[i], st.txs[i], lost(i)) && Of(i) in st.defers)
  }

  ghost predicate Follows(o: Outcome, r: (State, Exit), env: Env, lost: Losses) {
    r.1 == o.exit && (!o.exit.Cut? ==> At(r.0, env, o.fates, o.left, lost))
  }

  lemma {:induction false} RunGAppend(a: seq<GStmt>, b: seq<GStmt>, st: State, lost: Losses)
    ensures var r := RunG(a, st, lost);
            RunG(a + b, st, lost) == if r.1.Falls? then RunG(b, r.0, lost) else r
    decreases |a|
  {
    if a == [] {
      assert a + b == b;
    } else {
      assert (a + b)[1..] == a[1..] + b;
      RunGAppend(a[1..], b, StepG(a[0], st, lost).0, lost);
    }
  }

  lemma {:induction false} RunGOne(s: GStmt, st: State, lost: Losses)
    ensures RunG([s], st, lost) == StepG(s, st, lost)
  {
    assert [s][1..] == [];
  }

  lemma {:induction false} RunGTwo(s: GStmt, t: GStmt, st: State, lost: Losses)
    ensures var r := StepG(s, st, lost); RunG([s, t], st, lost) == if r.1.Falls? then StepG(t, r.0, lost) else r
  {
    assert [s, t][1..] == [t];
    RunGOne(t, StepG(s, st, lost).0, lost);
  }

  lemma {:induction false} StmtFollows(s: Stmt, n: nat, env: Env, fates: seq<Fate>, cs: seq<nat>, st: State, lost: Losses)
    requires At(st, env, fates, cs, lost)
    ensures Follows(RunStmt(s, env, fates, cs), RunG(Gen(s, n).0, st, lost), env, lost)
    decreases |cs|, s, 2
  {
    match s
    case Step => RunGOne(GStep, st, lost);
    case Return => RunGOne(GReturn, st, lost);
    case Break => RunGOne(GBreak, st, lost);
    case Continue => RunGOne(GContinue, st, lost);
    case Risky => RunGTwo(GCall(TryName(n + 1)), GGuard(TryName(n + 1)), st, lost);
    case If(_, _) => IfFollows(s, n, env, fates, cs, st, lost);
    case Loop(body) =>
      RunGOne(GFor(GenBody(body, n + 1).0), st, lost);
      LoopFollows(s, n, env, fates, cs, st, lost);
    case Transaction(_, _) => BlockFollows(s, n, env, fates, cs, st, lost);
  }

  lemma {:induction false} IfFollows(s: Stmt, n: nat, env: Env, fates: seq<Fate>, cs: seq<nat>, st: State, lost: Losses)
    requires s.If? && At(st, env, fates, cs, lost)
    ensures Follows(RunStmt(s, env, fates, cs), RunG(Gen(s, n).0, st, lost), env, lost)
    decreases |cs|, s, 1
  {
    var If(t, f) := s;
    var n1 := GenBody(t, n).1;
    RunGOne(GIf(GenBody(t, n).0, GenBody(f, n1).0), st, lost);
    if cs != [] {
      var st1 := st.(left := cs[1..]);
      BodyFollows(t, n, env, fates, cs[1..], st1, lost);
      BodyFollows(f, n1, env, fates, cs[1..], st1, lost);
    }
  }

  lemma {:induction false} LoopFollows(s: Stmt, n: nat, env: Env, fates: seq<Fate>, cs: seq<nat>, st: State, lost: Losses)
    requires s.Loop? && At(st, env, fates, cs, lost)
    ensures Follows(RunLoop(s, env, fates, cs), ForG(GFor(GenBody(s.body, n + 1).0), st, lost), env, lost)
    decreases |cs|, s, 0
  {
    if cs != [] && cs[0] != 0 {
      var st1 := st.(left := cs[1..]);
      BodyFollows(s.body, n + 1, env, fates, cs[1..], st1, lost);
      var o := Run(s.body, env, fates, cs[1..]);
      if o.exit.Falls? || o.exit.Continues? {
        var (st2, _) := Outside(env, RunG(GenBody(s.body, n + 1).0, st1, lost));
        LoopFollows(s, n, env, o.fates, o.left, st2, lost);
      }
    }
  }

  lemma {:induction false} BodyFollows(body: seq<Stmt>, n: nat, env: Env, fates: seq<Fate>, cs: seq<nat>, st: State, lost: Losses)
    requires At(st, env, fates, cs, lost)
    ensures Follows(Run(body, env, fates, cs), RunG(GenBody(body, n).0, st, lost), env, lost)
    decreases |cs|, body
  {
    if body != [] {
      var (g, n1) := Gen(body[0], n);
      StmtFollows(body[0], n, env, fates, cs, st, lost);
      RunGAppend(g, GenBody(body[1..], n1).0, st, lost);
      var o := RunStmt(body[0], env, fates, cs);
      if o.exit.Falls? { BodyFollows(body[1..], n1, env, o.fates, o.left, RunG(g, st, lost).0, lost); }
    }
  }

  lemma {:induction false} BlockFollows(s: Stmt, n: nat, env: Env, fates: seq<Fate>, cs: seq<nat>, st: State, lost: Losses)
    requires s.Transaction? && At(st, env, fates, cs, lost)
    ensures Follows(RunStmt(s, env, fates, cs), RunG(Gen(s, n).0, st, lost), env, lost)
    decreases |cs|, s, 1
  {
    var g := GenBody(s.body, n + 1).0;
    var a, z := Opening(s.conn, n + 1), Closing(s.conn, n + 1);
    BlockStages(s, n, st, lost);
    Opens(s.conn, n + 1, st, lost);
    if s.conn in env && env[s.conn].Pool? && cs != [] && cs[0] == 0 {
      var (env1, fates1) := (env[s.conn := Of(|fates|)], fates + [Open]);
      var st1 := RunG(a, st, lost).0;
      BodyFollows(s.body, n + 1, env1, fates1, cs[1..], st1, lost);
      BodySettles(s.body, env1, fates1, cs[1..]);
      var o := Run(s.body, env1, fates1, cs[1..]);
      assert o.fates[|fates|] == fates1[|fates|];
      if o.exit.Falls? { Closes(s.conn, n + 1, |fates|, RunG(g, st1, lost).0, lost); }
    }
  }

  // The block runs its begin, its body and its commit, one behind the other.
  lemma {:induction false} BlockStages(s: Stmt, n: nat, st: State, lost: Losses)
    requires s.Transaction?
    ensures RunG(Gen(s, n).0, st, lost) == Outside(st.env,
              var (st1, x1) := RunG(Opening(s.conn, n + 1), st, lost);
              if !x1.Falls? then (st1, x1) else
              var (st2, x2) := RunG(GenBody(s.body, n + 1).0, st1, lost);
              if !x2.Falls? then (st2, x2) else RunG(Closing(s.conn, n + 1), st2, lost))
  {
    var g := GenBody(s.body, n + 1).0;
    var a, z := Opening(s.conn, n + 1), Closing(s.conn, n + 1);
    RunGOne(GBlock(a + g + z), st, lost);
    RunGAppend(a + g, z, st, lost);
    RunGAppend(a, g, st, lost);
  }

  lemma {:induction false} Opens(conn: string, n: nat, st: State, lost: Losses)
    ensures var (st1, x) := RunG(Opening(conn, n), st, lost);
            if conn !in st.env || (st.env[conn].Pool? && st.left == []) then x == Cut
            else if st.env[conn].Of? then x == Fails && st1 == st.(temps := st1.temps)
            else if st.left[0] != 0 then x == Fails && st1 == st.(temps := st1.temps, left := st.left[1..])
            else x == Falls && st1 == State(st.env[conn := Of(|st.txs|)], st1.temps, st.txs + [FRESH], st.defers + [Of(|st.txs|)], st.left[1..])
  {
    var (a, b, c, d) := (GBegin(TxName(n), conn), GGuard(TxName(n)), GShadow(conn, TxName(n)), GDefer(conn));
    assert Opening(conn, n) == [a, b] + [c, d];
    RunGAppend([a, b], [c, d], st, lost);
    Begins(conn, n, st, lost);
    RunGTwo(c, d, RunG([a, b], st, lost).0, lost);
  }

  // The begin and its guard: behind them the transaction is there.
  lemma {:induction false} Begins(conn: string, n: nat, st: State, lost: Losses)
    ensures var (st1, x) := RunG([GBegin(TxName(n), conn), GGuard(TxName(n))], st, lost);
            if conn !in st.env || (st.env[conn].Pool? && st.left == []) then x == Cut
            else if st.env[conn].Of? then x == Fails && st1 == st.(temps := st1.temps)
            else if st.left[0] != 0 then x == Fails && st1 == st.(temps := st1.temps, left := st.left[1..])
            else x == Falls && st1 == st.(temps := st1.temps, txs := st.txs + [FRESH], left := st.left[1..])
                 && TxName(n) in st1.temps && st1.temps[TxName(n)] == Result(true, Of(|st.txs|))
  {
    RunGTwo(GBegin(TxName(n), conn), GGuard(TxName(n)), st, lost);
  }

  lemma {:induction false} Closes(conn: string, n: nat, t: nat, st: State, lost: Losses)
    requires conn in st.env && st.env[conn] == Of(t) && t < |st.txs| && st.txs[t] == FRESH
    ensures var (st1, x) := RunG(Closing(conn, n), st, lost);
            if st.left == [] then x == Cut
            else var ok := st.left[0] == 0;
              && x == (if ok then Falls else Fails)
              && st1 == st.(temps := st1.temps, txs := st.txs[t := Tx(true, [Commit(ok)], [!ok && lost(t)])], left := st.left[1..])
  {
    RunGTwo(GCommit(CommitName(n), conn), GGuard(CommitName(n)), st, lost);
    assert forall ok :: AfterCommit(FRESH, ok, lost(t)) == Tx(true, [Commit(ok)], [!ok && lost(t)]);
  }

  // ----- The return -----

  // A transaction ended once and gave its connection back once: by its commit exactly if its body ran to
  // the end; a connection lost in the last call goes back as broken.
  predicate EndedOnce(fate: Fate, t: Tx, lost: bool) {
    match fate
    case Committed(ok) => t == Tx(true, [Commit(ok)], [!ok && lost])
    case Undone => t == Tx(true, [Rollback], [lost])
    case Open => false
  }

  lemma {:induction false} UnwindKeeps(defers: seq<Handle>, txs: seq<Tx>, lost: Losses)
    ensures |Unwind(defers, txs, lost)| == |txs|
    decreases |defers|
  {
    if defers != [] {
      var h := defers[|defers| - 1];
      UnwindKeeps(defers[..|defers| - 1], if h.Of? && h.tx < |txs| then txs[h.tx := AfterRollback(txs[h.tx], lost(h.tx))] else txs, lost);
    }
  }

  lemma {:induction false} UnwindsEach(defers: seq<Handle>, txs: seq<Tx>, lost: Losses, i: nat)
    requires i < |txs|
    ensures |Unwind(defers, txs, lost)| == |txs|
    ensures Unwind(defers, txs, lost)[i] == if Of(i) in defers then AfterRollback(txs[i], lost(i)) else txs[i]
    decreases |defers|
  {
    if defers != [] {
      var h := defers[|defers| - 1];
      var txs1 := if h.Of? && h.tx < |txs| then txs[h.tx := AfterRollback(txs[h.tx], lost(h.tx))] else txs;
      UnwindsEach(defers[..|defers| - 1], txs1, lost, i);
      assert defers == defers[..|defers| - 1] + [h];
    }
  }

  // A call that returns, however it is left: it ends as the source does, and every transaction it began
  // has ended once, as the source says.
  lemma {:induction false} CallEndsAll(body: seq<Stmt>, env: Env, cs: seq<nat>, lost: Losses)
    ensures var o := Run(body, env, [], cs);
            var (txs, left, x) := Call(body, env, cs, lost);
            && x == o.exit
            && (!x.Cut? ==> left == o.left && |txs| == |o.fates| && forall i :: 0 <= i < |txs| ==> EndedOnce(o.fates[i], txs[i], lost(i)))
  {
    var st := State(env, map[], [], [], cs);
    BodyFollows(body, 0, env, [], cs, st, lost);
    BodySettles(body, env, [], cs);
    var o := Run(body, env, [], cs);
    var (st1, x) := RunG(GenBody(body, 0).0, st, lost);
    if !x.Cut? {
      UnwindKeeps(st1.defers, st1.txs, lost);
      forall i | 0 <= i < |st1.txs| ensures EndedOnce(o.fates[i], Unwind(st1.defers, st1.txs, lost)[i], lost(i)) {
        UnwindsEach(st1.defers, st1.txs, lost, i);
      }
    }
  }
}
