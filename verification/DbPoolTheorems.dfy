/**
What every run of the pools guarantees: the capacity, one holder to a connection, one open pool to a
key, exactly one end to a transaction, every connection closed exactly once, and no deadlock.
*/
module DbPoolTheorems {
  import opened Wrappers
  import opened DbPool
  import opened DbPoolSafe
  import opened DbPoolRuns

  ghost predicate Reachable(s: State) { exists run :: After(run) == Some(s) }

  lemma ReachableInv(s: State)
    requires Reachable(s)
    ensures Inv(s)
  {
    var run :| After(run) == Some(s);
    RunInv(run);
  }

  // ----- Safety -----

  // Idle connections and those handed out or being opened fit the capacity together.
  lemma CapacityHolds(s: State, p: Id)
    requires Reachable(s) && p in s.pools
    ensures |s.pools[p].idle| + |Active(s.threads, p)| <= s.pools[p].cap && |s.pools[p].idle| <= MAX_IDLE
    ensures s.pools[p].taken == |Tokens(s.threads, p)| <= s.pools[p].cap
  {
    ReachableInv(s);
    assert Holds(s, Semaphores) && Books(s, p);
  }

  // A connection is idle in one pool at most, at one position, or held by one thread at most.
  lemma OneHolder(s: State, c: Conn)
    requires Reachable(s)
    ensures forall p, q :: p in s.pools && q in s.pools && c in s.pools[p].idle && c in s.pools[q].idle ==> p == q
    ensures forall t, u :: t in s.threads && u in s.threads && c in HeldBy(s.threads[t]) && c in HeldBy(s.threads[u]) ==> t == u
    ensures forall p, t :: p in s.pools && t in s.threads && c in s.pools[p].idle ==> c !in HeldBy(s.threads[t])
    ensures forall p :: p in s.pools ==> NoDup(s.pools[p].idle)
  {
    ReachableInv(s);
    assert Holds(s, Whereabouts);
    forall p | p in s.pools ensures IdleOk(s, p) && (c in s.pools[p].idle ==> InPool(s, c, p)) {
      assert IdleOk(s, p);
    }
    forall t | t in s.threads ensures c in HeldBy(s.threads[t]) ==> WithThread(s, c, t) { assert HeldOk(s, t); }
  }

  predicate Rivals(a: Pool, b: Pool) { !a.closed && !b.closed && a.key == b.key }

  // A closed pool keeps nothing, and a key has one open pool.
  lemma OneOpenPool(s: State)
    requires Reachable(s)
    ensures forall p :: p in s.pools && s.pools[p].closed ==> s.pools[p].idle == []
    ensures forall p, q :: p in s.pools && q in s.pools && Rivals(s.pools[p], s.pools[q]) ==> p == q
    ensures forall k :: k in s.table ==> s.table[k] in s.pools && !s.pools[s.table[k]].closed && s.pools[s.table[k]].key == k
  {
    ReachableInv(s);
    assert Holds(s, Locks);
    forall p | p in s.pools && s.pools[p].closed ensures s.pools[p].idle == [] { assert Standing(s, p); }
    forall p, q | p in s.pools && q in s.pools && Rivals(s.pools[p], s.pools[q]) ensures p == q { assert Apart(s, p, q); }
    forall k | k in s.table ensures s.table[k] in s.pools && !s.pools[s.table[k]].closed && s.pools[s.table[k]].key == k {
      assert Listed(s, k);
    }
  }

  // ----- Transactions -----

  // The step is a commit or rollback of transaction t that reaches the driver.
  predicate EndsNow(s: State, l: Label, t: Id) { l.FinishTx? && l.t == t && t in s.txDone && !s.txDone[t] }

  // The pinned connection of t leaves for the pool.
  predicate ReleasesNow(s: State, s': State, t: Id) {
    t in s.threads && s.threads[t].Pinned? && !(t in s'.threads && s'.threads[t] == s.threads[t])
  }

  predicate IsDone(s: State, t: Id) { t in s.txDone && s.txDone[t] }

  function Bit(b: bool): nat { if b then 1 else 0 }

  function Ends(run: seq<Label>, t: Id): nat
    requires After(run).Some?
    decreases |run|
  {
    if run == [] then 0 else
    Ends(run[..|run| - 1], t) + Bit(EndsNow(After(run[..|run| - 1]).value, run[|run| - 1], t))
  }

  function Releases(run: seq<Label>, t: Id): nat
    requires After(run).Some?
    decreases |run|
  {
    if run == [] then 0 else
    Releases(run[..|run| - 1], t) + Bit(ReleasesNow(After(run[..|run| - 1]).value, After(run).value, t))
  }

  // The steps of db-connect, db-close, acquire and the return of a connection.
  predicate Connecting(l: Label) { l.NewConnect? || l.Share? || l.LockDial? || l.DialOk? || l.DialFail? || l.PublishPool? }

  predicate Closing(l: Label) { l.CloseHandle? || l.Drop? || l.Seal? || l.CloseOne? }

  predicate Acquiring(l: Label) { l.StartAcquire? || l.TakeToken? || l.Look? || l.OpenOk? || l.OpenFail? }

  predicate Returning(l: Label) { l.EndUse? || l.Put? || l.CloseConn? || l.ReturnToken? }

  lemma ShareSays(s: State, t: Id, h: Id)
    requires CanShare(s, t, h)
    ensures ShareStep(s, t, h).txDone == s.txDone
  {
    if OpenIn(s, s.threads[t].key) { HitSays(s, t, h); }
  }

  lemma HitSays(s: State, t: Id, h: Id)
    requires CanShare(s, t, h) && OpenIn(s, s.threads[t].key)
    ensures ShareHit(s, t, h).txDone == s.txDone
  {}

  lemma DropSays(s: State, t: Id)
    requires CanDrop(s, t)
    ensures DropStep(s, t).txDone == s.txDone
  {
    assert Dropped(s, t).txDone == s.txDone;
  }

  lemma LookSays(s: State, t: Id)
    requires CanLook(s, t)
    ensures LookStep(s, t).txDone == s.txDone
  {
    if s.pools[s.threads[t].pool].idle != [] { PopSays(s, t); }
  }

  lemma PopSays(s: State, t: Id)
    requires CanLook(s, t) && s.pools[s.threads[t].pool].idle != []
    ensures PopIdle(s, t).txDone == s.txDone
  {}

  lemma PutSays(s: State, t: Id)
    requires CanPut(s, t)
    ensures PutStep(s, t).txDone == s.txDone
  {
    assert PutIdle(s, t).txDone == s.txDone;
  }

  // None of these steps says anything about a transaction.
  lemma ConnectingSays(s: State, l: Label)
    requires Next(s, l).Some? && Connecting(l)
    ensures Next(s, l).value.txDone == s.txDone
  {
    if l.Share? { ShareSays(s, l.t, l.h); }
  }

  lemma ClosingSays(s: State, l: Label)
    requires Next(s, l).Some? && Closing(l)
    ensures Next(s, l).value.txDone == s.txDone
  {
    if l.Drop? { DropSays(s, l.t); }
  }

  lemma AcquiringSays(s: State, l: Label)
    requires Next(s, l).Some? && Acquiring(l)
    ensures Next(s, l).value.txDone == s.txDone
  {
    if l.Look? { LookSays(s, l.t); }
  }

  lemma ReturningSays(s: State, l: Label)
    requires Next(s, l).Some? && Returning(l)
    ensures Next(s, l).value.txDone == s.txDone
  {
    if l.Put? { PutSays(s, l.t); }
  }

  lemma BeginningSays(s: State, l: Label, t: Id)
    requires Next(s, l).Some? && l.BeginTx?
    ensures IsDone(Next(s, l).value, t) == IsDone(s, t)
  {}

  lemma FinishingSays(s: State, l: Label, t: Id)
    requires Next(s, l).Some? && l.FinishTx?
    ensures Bit(IsDone(Next(s, l).value, t)) == Bit(IsDone(s, t)) + Bit(EndsNow(s, l, t))
  {}

  lemma StepDone(s: State, l: Label, t: Id)
    requires Next(s, l).Some?
    ensures Bit(IsDone(Next(s, l).value, t)) == Bit(IsDone(s, t)) + Bit(EndsNow(s, l, t))
  {
    if Connecting(l) { ConnectingSays(s, l); }
    else if Closing(l) { ClosingSays(s, l); }
    else if Acquiring(l) { AcquiringSays(s, l); }
    else if Returning(l) { ReturningSays(s, l); }
    else if l.BeginTx? { BeginningSays(s, l, t); }
    else { FinishingSays(s, l, t); }
  }

  // A pinned thread takes no step but the end of its transaction.
  lemma PinnedWaits(s: State, l: Label)
    requires Next(s, l).Some? && l.t in s.threads && s.threads[l.t].Pinned?
    ensures l.FinishTx?
  {}

  lemma StepReleases(s: State, l: Label, t: Id)
    requires Next(s, l).Some? && OneThread(s.threads, Next(s, l).value.threads, l.t)
    requires t in s.threads && s.threads[t].Pinned? <==> t in s.txDone && !s.txDone[t]
    ensures ReleasesNow(s, Next(s, l).value, t) == EndsNow(s, l, t)
  {
    if t in s.threads && s.threads[t].Pinned? && l.t == t { PinnedWaits(s, l); }
  }

  // Whatever commits and rollbacks are called, and however often, the driver sees one end of a
  // transaction that is done and none of one that is not, and its connection goes back that often.
  lemma {:induction false} OneEnd(run: seq<Label>, t: Id)
    requires After(run).Some?
    ensures Ends(run, t) == Releases(run, t) == Bit(IsDone(After(run).value, t))
    decreases |run|
  {
    if run != [] {
      var before := run[..|run| - 1];
      OneEnd(before, t);
      RunInv(before);
      Aspects(After(before).value);
      StepInv(After(before).value, run[|run| - 1]);
      StepDone(After(before).value, run[|run| - 1], t);
      StepReleases(After(before).value, run[|run| - 1], t);
    }
  }

  // ----- Closing -----

  // A pool is closed once its handles are and no db-close of one is still at work.
  lemma ClosedWhenUnused(s: State, p: Id)
    requires Reachable(s) && p in s.pools && OpenHandles(s.handles, p) == {}
    requires forall t :: t in s.threads ==> s.threads[t] != CloseDrop(p) && s.threads[t] != CloseSeal(p)
    ensures s.pools[p].closed
  {
    ReachableInv(s);
    assert Holds(s, Locks) && Holds(s, References);
    assert Droppers(s.threads, p) == {};
    assert Counted(s, p) && Standing(s, p);
    assert s.pools[p].key in s.table ==> Listed(s, s.pools[p].key);
  }

  lemma IdleInOpen(s: State, c: Conn)
    requires Inv(s) && c in s.place && s.place[c].Idle?
    ensures var p := s.place[c].pool; p in s.pools && !s.pools[p].closed && c in s.owner && s.owner[c] == p
  {
    var p := s.place[c].pool;
    assert Holds(s, Locks) && Holds(s, Whereabouts);
    assert Found(s, c);
    assert IdleOk(s, p) && InPool(s, c, p);
    assert Standing(s, p);
  }

  // A connection that no thread holds and that is idle nowhere was closed exactly once.
  lemma GoneOnce(s: State, c: Conn)
    requires Inv(s) && c in s.closes
    requires forall t :: t in s.threads ==> c !in HeldBy(s.threads[t])
    ensures c in s.place && (!s.place[c].Idle? ==> s.closes[c] == 1)
  {
    assert Holds(s, Whereabouts);
    assert Found(s, c) && ClosedOnce(s, c);
  }

  // Every connection opened for a closed pool that no thread still holds was closed exactly once.
  lemma ClosedExactlyOnce(s: State, p: Id, c: Conn)
    requires Reachable(s) && p in s.pools && s.pools[p].closed && c in s.owner && s.owner[c] == p
    requires forall t :: t in s.threads ==> c !in HeldBy(s.threads[t])
    ensures c in s.closes && s.closes[c] == 1
  {
    ReachableInv(s);
    assert c in s.closes by { assert Holds(s, Whereabouts); }
    GoneOnce(s, c);
    if s.place[c].Idle? {
      IdleInOpen(s, c);
      assert false;
    }
  }

  // When nothing runs and every handle is closed, every connection ever opened was closed exactly once.
  lemma NothingLeaks(s: State, c: Conn)
    requires Reachable(s) && s.threads == map[] && c in s.closes
    requires forall h :: h in s.handles ==> s.handles[h].closed
    ensures s.closes[c] == 1
  {
    ReachableInv(s);
    GoneOnce(s, c);
    if s.place[c].Idle? {
      IdleInOpen(s, c);
      ClosedWhenUnused(s, s.place[c].pool);
      assert false;
    }
  }

  // No connection is closed twice, at any time, nor held or idle after it was closed.
  lemma NeverClosedTwice(s: State, c: Conn)
    requires Reachable(s) && c in s.closes
    ensures s.closes[c] <= 1
    ensures s.closes[c] == 1 ==> forall t :: t in s.threads ==> c !in HeldBy(s.threads[t])
    ensures s.closes[c] == 1 ==> forall p :: p in s.pools ==> c !in s.pools[p].idle
  {
    ReachableInv(s);
    assert Holds(s, Whereabouts);
    assert ClosedOnce(s, c);
    forall t | t in s.threads && c in HeldBy(s.threads[t]) ensures WithThread(s, c, t) { assert HeldOk(s, t); }
    forall p | p in s.pools && c in s.pools[p].idle ensures InPool(s, c, p) { assert IdleOk(s, p); }
  }

  // ----- Progress -----

  // What a thread may have to wait for: the table lock, the dial lock of its key, a place in the pool.
  predicate Waits(s: State, t: Id)
    requires t in s.threads
  {
    var pc := s.threads[t];
    || ((pc.Connect1? || pc.Connect2? || pc.Publish? || pc.CloseDrop?) && s.poolsMu.Some?)
    || (pc.ConnectWait? && pc.key in s.dialMu)
    || (pc.AcqWait? && pc.pool in s.pools && s.pools[pc.pool].taken >= s.pools[pc.pool].cap)
  }

  // A step that the thread can take, with names for what it makes that are not in use.
  function MoveOf(s: State, t: Id, unused: Id): (l: Label)
    requires t in s.threads
    ensures l.t == t
  {
    match s.threads[t]
    case Connect1(_) => Share(t, unused)
    case ConnectWait(_) => LockDial(t)
    case Connect2(_) => Share(t, unused)
    case ConnectDial(_) => DialFail(t)
    case Publish(_, _) => PublishPool(t, unused, unused, 1)
    case CloseDrop(_) => Drop(t)
    case CloseSeal(_) => Seal(t)
    case CloseIdle(_, _) => CloseOne(t)
    case AcqWait(_) => TakeToken(t)
    case AcqLook(_) => Look(t)
    case AcqRefund(_) => ReturnToken(t)
    case AcqDial(_) => OpenFail(t)
    case Using(_, _) => EndUse(t, false)
    case Pinned(_, _) => FinishTx(t, false)
    case RelPut(_, _, _) => Put(t)
    case RelClose(_, _) => CloseConn(t)
    case RelToken(_) => ReturnToken(t)
  }

  // What a step takes for granted of the thread that takes it.
  predicate Ready(s: State, t: Id)
    requires t in s.threads
  {
    var pc := s.threads[t];
    && (HasPool(pc) ==> pc.pool in s.pools)
    && (pc.CloseIdle? && pc.conns != [] ==> pc.conns[0] in s.closes)
    && (pc.RelClose? ==> pc.conn in s.closes)
    && (pc.Pinned? ==> t in s.txDone && !s.txDone[t])
  }

  lemma AlwaysReady(s: State, t: Id)
    requires Inv(s) && t in s.threads
    ensures Ready(s, t)
  {
    Aspects(s);
    assert HeldOk(s, t);
    forall c | c in HeldBy(s.threads[t]) ensures c in s.closes { assert WithThread(s, c, t); }
  }

  lemma MoveEnabled(s: State, t: Id, unused: Id)
    requires t in s.threads && Ready(s, t) && !Waits(s, t) && unused !in s.pools && unused !in s.handles
    ensures Next(s, MoveOf(s, t, unused)).Some?
  {
    match s.threads[t]
    case Connect1(_) =>
    case ConnectWait(_) =>
    case Connect2(_) =>
    case ConnectDial(_) =>
    case Publish(_, _) =>
    case CloseDrop(_) =>
    case CloseSeal(_) =>
    case CloseIdle(_, _) =>
    case AcqWait(_) =>
    case AcqLook(_) =>
    case AcqRefund(_) =>
    case AcqDial(_) =>
    case Using(_, _) =>
    case Pinned(_, _) =>
    case RelPut(_, _, _) =>
    case RelClose(_, _) =>
    case RelToken(_) =>
  }

  // The thread that holds what a waiting thread waits for; it waits for nothing itself, or for the
  // table lock, whose holder never waits.
  lemma SomeoneMoves(s: State, t: Id) returns (u: Id)
    requires Inv(s) && t in s.threads
    ensures u in s.threads && !Waits(s, u)
  {
    if s.poolsMu.Some? {
      u := TableHolder(s);
    } else if !Waits(s, t) {
      u := t;
    } else if s.threads[t].ConnectWait? {
      u := DialHolder(s, s.threads[t].key);
    } else {
      u := TokenHolder(s, s.threads[t].pool);
    }
  }

  lemma TableHolder(s: State) returns (u: Id)
    requires Inv(s) && s.poolsMu.Some?
    ensures u in s.threads && s.threads[u].CloseSeal?
  {
    assert Holds(s, Locks);
    u := s.poolsMu.value;
  }

  lemma DialHolder(s: State, key: Key) returns (u: Id)
    requires Inv(s) && key in s.dialMu
    ensures u in s.threads && DialOf(s.threads[u]).Some?
  {
    assert Holds(s, Locks) && DialLive(s, key);
    u := s.dialMu[key];
  }

  lemma TokenHolder(s: State, p: Id) returns (u: Id)
    requires Inv(s) && p in s.pools && s.pools[p].taken >= s.pools[p].cap
    ensures u in s.threads && TokenOf(s.threads[u]).Some?
  {
    assert Holds(s, Semaphores) && Books(s, p);
    u :| u in Tokens(s.threads, p);
  }

  // No run gets stuck: while some thread is under way, some thread can go on.
  lemma NoDeadlock(s: State, t: Id, unused: Id) returns (l: Label)
    requires Reachable(s) && t in s.threads && unused !in s.pools && unused !in s.handles
    ensures l.t in s.threads && Next(s, l).Some?
  {
    ReachableInv(s);
    var u := SomeoneMoves(s, t);
    AlwaysReady(s, u);
    MoveEnabled(s, u, unused);
    l := MoveOf(s, u, unused);
  }
}
