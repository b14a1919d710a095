/**
Lost connections never circulate: one whose use or transaction ended with the connection lost is closed, and
no query gets it again. A healthy one goes back into an open pool with room, and goes out first.
*/
module DbPoolLost {
  import opened Wrappers
  import opened DbPool
  import opened DbPoolSafe
  import opened DbPoolRuns

  // The step ends the use of connection c, or the transaction on it.
  predicate Ending(s: State, l: Label, c: Conn) {
    && l.t in s.threads
    && ((l.EndUse? && s.threads[l.t].Using? && s.threads[l.t].conn == c)
        || (l.FinishTx? && s.threads[l.t].Pinned? && s.threads[l.t].conn == c))
  }

  // Some step of the run ended a use of c, or a transaction on it, with the connection lost.
  predicate Lost(run: seq<Label>, c: Conn)
    requires After(run).Some?
    decreases |run|
  {
    run != [] &&
    var (before, l) := (run[..|run| - 1], run[|run| - 1]);
    Lost(before, c) || ((l.EndUse? || l.FinishTx?) && l.broken && Ending(After(before).value, l, c))
  }

  // A connection on its way out, or closed.
  ghost predicate Doomed(s: State, c: Conn) {
    c in s.place &&
    match s.place[c]
    case Gone => true
    case Idle(_) => false
    case At(t) => t in s.threads && Leaving(s.threads[t], c)
  }

  predicate Leaving(pc: Pc, c: Conn) { (pc.RelPut? && pc.conn == c && pc.broken) || (pc.RelClose? && pc.conn == c) }

  // A connection that is closed, or held by another thread than t.
  predicate Elsewhere(s: State, c: Conn, t: Id) { c in s.place && !s.place[c].Idle? && s.place[c] != At(t) }

  ghost predicate Kept(s: State, s': State, c: Conn) { c in s.place && c in s'.place && s'.place[c] == s.place[c] }

  // The steps of db-connect, db-close, acquire and use that move no connection.
  predicate Plain(l: Label) {
    || l.NewConnect? || l.LockDial? || l.DialFail? || l.CloseHandle?
    || l.StartAcquire? || l.TakeToken? || l.OpenFail? || l.EndUse? || l.BeginTx? || l.ReturnToken?
  }

  lemma PlainKeeps(s: State, l: Label, c: Conn)
    requires Next(s, l).Some? && Plain(l) && c in s.place
    ensures Kept(s, Next(s, l).value, c)
  {}

  lemma ShareKeeps(s: State, t: Id, h: Id, c: Conn)
    requires CanShare(s, t, h) && c in s.place
    ensures Kept(s, ShareStep(s, t, h), c)
  {}

  lemma DropKeeps(s: State, t: Id, c: Conn)
    requires CanDrop(s, t) && c in s.place
    ensures Kept(s, DropStep(s, t), c)
  {}

  lemma FinishKeeps(s: State, t: Id, broken: bool, c: Conn)
    requires CanFinish(s, t) && c in s.place
    ensures Kept(s, FinishTxStep(s, t, broken), c)
  {}

  lemma OpenKeeps(s: State, l: Label, c: Conn)
    requires Next(s, l).Some? && (l.DialOk? || l.OpenOk?) && c in s.place
    ensures Kept(s, Next(s, l).value, c)
  {}

  // What t holds is held by t.
  lemma HeldElsewhere(s: State, t: Id, c: Conn)
    requires Inv(s) && t in s.threads && Elsewhere(s, c, t)
    ensures c !in HeldBy(s.threads[t])
  {
    Aspects(s);
    assert HeldOk(s, t) && (c in HeldBy(s.threads[t]) ==> WithThread(s, c, t));
  }

  lemma NotIdle(s: State, p: Id, c: Conn)
    requires Inv(s) && p in s.pools && c in s.place && !s.place[c].Idle?
    ensures c !in s.pools[p].idle
  {
    Aspects(s);
    assert IdleOk(s, p) && (c in s.pools[p].idle ==> InPool(s, c, p));
  }

  lemma HolderKeeps(s: State, l: Label, c: Conn)
    requires Next(s, l).Some? && (l.PublishPool? || l.CloseConn?)
    requires l.t in s.threads && c in s.place && c !in HeldBy(s.threads[l.t])
    ensures Kept(s, Next(s, l).value, c)
  {}

  lemma CloseOneKeeps(s: State, t: Id, c: Conn)
    requires CanCloseOne(s, t) && c in s.place && c !in HeldBy(s.threads[t])
    ensures Kept(s, CloseOneStep(s, t), c)
  {}

  lemma SealKeeps(s: State, t: Id, c: Conn)
    requires CanSeal(s, t) && c in s.place && c !in s.pools[s.threads[t].pool].idle
    ensures Kept(s, SealStep(s, t), c)
  {}

  lemma LookKeeps(s: State, t: Id, c: Conn)
    requires CanLook(s, t) && c in s.place && c !in s.pools[s.threads[t].pool].idle
    ensures Kept(s, LookStep(s, t), c)
  {}

  lemma PutKeeps(s: State, t: Id, c: Conn)
    requires CanPut(s, t) && c in s.place && c !in HeldBy(s.threads[t])
    ensures Kept(s, PutStep(s, t), c)
  {}

  lemma PlaceStays(s: State, l: Label, c: Conn)
    requires Inv(s) && Next(s, l).Some? && Elsewhere(s, c, l.t)
    ensures Kept(s, Next(s, l).value, c)
  {
    if l.t in s.threads { HeldElsewhere(s, l.t, c); }
    if Plain(l) { PlainKeeps(s, l, c); }
    else if l.DialOk? || l.OpenOk? { OpenKeeps(s, l, c); }
    else if l.PublishPool? || l.CloseConn? { HolderKeeps(s, l, c); }
    else if l.CloseOne? { CloseOneKeeps(s, l.t, c); }
    else { BranchingStays(s, l, c); }
  }

  lemma BranchingStays(s: State, l: Label, c: Conn)
    requires Inv(s) && Next(s, l).Some? && Elsewhere(s, c, l.t)
    requires l.Share? || l.Drop? || l.FinishTx? || l.Seal? || l.Look? || l.Put?
    requires l.t in s.threads ==> c !in HeldBy(s.threads[l.t])
    ensures Kept(s, Next(s, l).value, c)
  {
    match l
    case Share(t, h) => ShareKeeps(s, t, h, c);
    case Drop(t) => DropKeeps(s, t, c);
    case FinishTx(t, broken) => FinishKeeps(s, t, broken, c);
    case Seal(t) => NotIdle(s, s.threads[t].pool, c); SealKeeps(s, t, c);
    case Look(t) => NotIdle(s, s.threads[t].pool, c); LookKeeps(s, t, c);
    case Put(t) => PutKeeps(s, t, c);
  }

  // A thread that holds a lost connection can only close it.
  lemma LeavingSteps(s: State, l: Label, c: Conn)
    requires Inv(s) && Next(s, l).Some? && Doomed(s, c) && s.place[c] == At(l.t)
    ensures Doomed(Next(s, l).value, c)
  {
    LeavingOnly(s, l, c);
    if l.Put? { PutLeaves(s, l.t, c); }
  }

  lemma LeavingOnly(s: State, l: Label, c: Conn)
    requires Next(s, l).Some? && l.t in s.threads && Leaving(s.threads[l.t], c)
    ensures l.Put? || l.CloseConn? || (l.FinishTx? && l.t in s.txDone && s.txDone[l.t])
  {}

  lemma PutLeaves(s: State, t: Id, c: Conn)
    requires CanPut(s, t) && Doomed(s, c) && s.place[c] == At(t)
    ensures PutStep(s, t) == Goto(s, t, RelClose(s.threads[t].pool, c)) && Doomed(PutStep(s, t), c)
  {}

  lemma DoomedStays(s: State, l: Label, c: Conn)
    requires Inv(s) && Next(s, l).Some? && Doomed(s, c)
    ensures Doomed(Next(s, l).value, c)
  {
    if s.place[c] == At(l.t) {
      LeavingSteps(s, l, c);
    } else {
      PlaceStays(s, l, c);
      StepInv(s, l);
    }
  }

  lemma LostDooms(s: State, l: Label, c: Conn)
    requires Inv(s) && Next(s, l).Some? && (l.EndUse? || l.FinishTx?) && l.broken && Ending(s, l, c)
    ensures Doomed(Next(s, l).value, c)
  {
    Aspects(s);
    assert HeldOk(s, l.t) && c in HeldBy(s.threads[l.t]) && WithThread(s, c, l.t);
    EndingGoes(s, l, c);
  }

  // The thread goes on to put the connection back, with what it knows of it.
  lemma EndingGoes(s: State, l: Label, c: Conn)
    requires Inv(s) && Next(s, l).Some? && (l.EndUse? || l.FinishTx?) && Ending(s, l, c)
    ensures var s' := Next(s, l).value;
            l.t in s'.threads && s'.threads[l.t] == RelPut(s.threads[l.t].pool, c, l.broken) && s'.place == s.place
  {
    Aspects(s);
  }

  lemma {:induction false} LostDoomed(run: seq<Label>, c: Conn)
    requires After(run).Some? && Lost(run, c)
    ensures Doomed(After(run).value, c)
    decreases |run|
  {
    var (before, l) := (run[..|run| - 1], run[|run| - 1]);
    RunInv(before);
    if Lost(before, c) {
      LostDoomed(before, c);
      DoomedStays(After(before).value, l, c);
    } else {
      LostDooms(After(before).value, l, c);
    }
  }

  // Over every run: a lost connection is never idle again, and no query or transaction holds it again.
  lemma {:induction false} LostStaysOut(run: seq<Label>, c: Conn)
    requires After(run).Some? && Lost(run, c)
    ensures var s := After(run).value;
            && (forall p :: p in s.pools ==> c !in s.pools[p].idle)
            && (forall t :: t in s.threads && (s.threads[t].Using? || s.threads[t].Pinned?) ==> s.threads[t].conn != c)
  {
    var s := After(run).value;
    LostDoomed(run, c);
    RunInv(run);
    forall p | p in s.pools ensures c !in s.pools[p].idle { NotIdle(s, p, c); }
    forall t | t in s.threads && (s.threads[t].Using? || s.threads[t].Pinned?) ensures s.threads[t].conn != c {
      if Elsewhere(s, c, t) { HeldElsewhere(s, t, c); }
    }
  }

  // Once the thread that lost it is done with it, it was closed, and once.
  lemma {:induction false} LostIsClosed(run: seq<Label>, c: Conn)
    requires After(run).Some? && Lost(run, c)
    requires forall t :: t in After(run).value.threads ==> c !in HeldBy(After(run).value.threads[t])
    ensures c in After(run).value.closes && After(run).value.closes[c] == 1
  {
    var s := After(run).value;
    LostDoomed(run, c);
    RunInv(run);
    Aspects(s);
    assert Found(s, c) && ClosedOnce(s, c);
  }

  // ----- A healthy connection goes back -----

  predicate Others(labels: seq<Label>, t: Id) { forall i :: 0 <= i < |labels| ==> labels[i].t != t }

  lemma {:induction false} BeforeLast(run: seq<Label>, l: Label)
    ensures After(run + [l]) == if After(run).Some? then Next(After(run).value, l) else None
  {
    assert (run + [l])[..|run|] == run;
  }

  // While others step, a thread stays where it is.
  lemma {:induction false} ThreadWaits(run: seq<Label>, middle: seq<Label>, t: Id)
    requires After(run + middle).Some? && Others(middle, t)
    ensures After(run).Some?
    ensures var (s, s') := (After(run).value, After(run + middle).value);
            (t in s.threads <==> t in s'.threads) && (t in s.threads ==> s'.threads[t] == s.threads[t])
    decreases |middle|
  {
    if middle == [] {
      assert run + middle == run;
    } else {
      var (rest, l) := (middle[..|middle| - 1], middle[|middle| - 1]);
      assert run + middle == (run + rest) + [l];
      BeforeLast(run + rest, l);
      ThreadWaits(run, rest, t);
      RunInv(run + rest);
      StepInv(After(run + rest).value, l);
    }
  }

  // After its use or its transaction a connection is put back exactly if it was not lost and the pool is
  // open and has room, whatever other threads did in between.
  lemma {:induction false} ReturnedExactly(run: seq<Label>, l: Label, middle: seq<Label>, c: Conn, s: State, s1: State, s2: State)
    requires After(run) == Some(s) && (l.EndUse? || l.FinishTx?) && Ending(s, l, c)
    requires After(run + [l] + middle) == Some(s1) && Others(middle, l.t)
    requires After(run + [l] + middle + [Put(l.t)]) == Some(s2)
    ensures var p := s.threads[l.t].pool;
            && p in s1.pools && p in s2.pools
            && s2.pools[p].idle ==
               s1.pools[p].idle + (if !l.broken && !s1.pools[p].closed && |s1.pools[p].idle| < MAX_IDLE then [c] else [])
  {
    BeforeLast(run + [l] + middle, Put(l.t));
    EndingWaits(run, l, middle, c, s, s1);
    PutReturns(s1, l.t, s.threads[l.t].pool, c, l.broken, s2);
  }

  lemma PutReturns(s: State, t: Id, p: Id, c: Conn, broken: bool, s': State)
    requires Next(s, Put(t)) == Some(s') && t in s.threads && s.threads[t] == RelPut(p, c, broken)
    ensures p in s.pools && p in s'.pools
    ensures s'.pools[p].idle == s.pools[p].idle + (if !broken && !s.pools[p].closed && |s.pools[p].idle| < MAX_IDLE then [c] else [])
  {
    PutDoes(s, t, p, c, broken);
  }

  lemma {:induction false} EndingWaits(run: seq<Label>, l: Label, middle: seq<Label>, c: Conn, s: State, s1: State)
    requires After(run) == Some(s) && (l.EndUse? || l.FinishTx?) && Ending(s, l, c)
    requires After(run + [l] + middle) == Some(s1) && Others(middle, l.t)
    ensures l.t in s1.threads && s1.threads[l.t] == RelPut(s.threads[l.t].pool, c, l.broken)
  {
    BeforeLast(run, l);
    ThreadWaits(run + [l], middle, l.t);
    RunInv(run);
    EndingGoes(s, l, c);
  }

  lemma PutDoes(s: State, t: Id, p: Id, c: Conn, broken: bool)
    requires CanPut(s, t) && s.threads[t] == RelPut(p, c, broken)
    ensures var s' := PutStep(s, t);
            && p in s.pools && p in s'.pools
            && s'.pools[p].idle == s.pools[p].idle + (if !broken && !s.pools[p].closed && |s.pools[p].idle| < MAX_IDLE then [c] else [])
  {}

  // The connection put back last goes out first: the next thread that looks gets it.
  lemma {:induction false} LastBackFirstOut(run: seq<Label>, t: Id, u: Id, p: Id, c: Conn, s: State, s1: State, s2: State)
    requires After(run) == Some(s) && After(run + [Put(t)]) == Some(s1) && After(run + [Put(t)] + [Look(u)]) == Some(s2)
    requires u in s.threads && s.threads[u] == AcqLook(p) && p in s.pools && p in s1.pools && s1.pools[p].idle == s.pools[p].idle + [c]
    ensures u in s2.threads && s2.threads[u] == Using(p, c)
  {
    BeforeLast(run, Put(t));
    BeforeLast(run + [Put(t)], Look(u));
    RunInv(run);
    PutThenLook(s, t, u, p, c, s1, s2);
  }

  lemma PutThenLook(s: State, t: Id, u: Id, p: Id, c: Conn, s1: State, s2: State)
    requires Inv(s) && Next(s, Put(t)) == Some(s1) && Next(s1, Look(u)) == Some(s2)
    requires u in s.threads && s.threads[u] == AcqLook(p) && p in s.pools && p in s1.pools && s1.pools[p].idle == s.pools[p].idle + [c]
    ensures u in s2.threads && s2.threads[u] == Using(p, c)
  {
    StepInv(s, Put(t));
    assert CanPut(s, t) && u != t;
    OpenWithIdle(s1, p);
    LookHands(s1, u, p);
  }

  lemma OpenWithIdle(s: State, p: Id)
    requires Inv(s) && p in s.pools && s.pools[p].idle != []
    ensures !s.pools[p].closed
  {
    Aspects(s);
    assert Standing(s, p);
  }

  lemma LookHands(s: State, u: Id, p: Id)
    requires CanLook(s, u) && s.threads[u] == AcqLook(p) && !s.pools[p].closed && s.pools[p].idle != []
    ensures var s' := LookStep(s, u);
            u in s'.threads && s'.threads[u] == Using(p, s.pools[p].idle[|s.pools[p].idle| - 1])
  {}

  lemma LookRefused(s: State, u: Id, p: Id)
    requires CanLook(s, u) && s.threads[u] == AcqLook(p) && s.pools[p].closed
    ensures u in LookStep(s, u).threads && LookStep(s, u).threads[u] == AcqRefund(p)
  {}

  // A thread that looks at a closed pool gets no connection: whatever others do, its next step gives the
  // token back. (A rollback of a transaction that is done is a step that changes nothing.)
  lemma {:induction false} ClosedRefuses(run: seq<Label>, middle: seq<Label>, u: Id, l: Label, p: Id, s: State, s1: State, s2: State)
    requires After(run) == Some(s) && u in s.threads && s.threads[u] == AcqLook(p) && p in s.pools && s.pools[p].closed
    requires After(run + [Look(u)] + middle) == Some(s1) && Others(middle, u)
    requires l.t == u && After(run + [Look(u)] + middle + [l]) == Some(s2)
    ensures l == ReturnToken(u) || s2 == s1
  {
    BeforeLast(run, Look(u));
    BeforeLast(run + [Look(u)] + middle, l);
    ThreadWaits(run + [Look(u)], middle, u);
    RefusedNow(s, u, p, After(run + [Look(u)]).value);
    RefundOnly(s1, l, s2);
  }

  lemma RefusedNow(s: State, u: Id, p: Id, s': State)
    requires Next(s, Look(u)) == Some(s') && u in s.threads && s.threads[u] == AcqLook(p) && p in s.pools && s.pools[p].closed
    ensures u in s'.threads && s'.threads[u] == AcqRefund(p)
  {
    LookRefused(s, u, p);
  }

  lemma RefundOnly(s: State, l: Label, s': State)
    requires Next(s, l) == Some(s') && l.t in s.threads && s.threads[l.t].AcqRefund?
    ensures l == ReturnToken(l.t) || s' == s
  {
    Refunding(s, l);
    if l.FinishTx? { DoneAgain(s, l); }
  }

  lemma DoneAgain(s: State, l: Label)
    requires Next(s, l).Some? && l.FinishTx? && l.t in s.txDone && s.txDone[l.t]
    ensures Next(s, l) == Some(s)
  {}

  lemma Refunding(s: State, l: Label)
    requires Next(s, l).Some? && l.t in s.threads && s.threads[l.t].AcqRefund?
    ensures l.ReturnToken? || (l.FinishTx? && l.t in s.txDone && s.txDone[l.t])
  {}
}
