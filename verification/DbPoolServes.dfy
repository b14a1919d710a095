/**
The pools serve: a place in the semaphore is free exactly while fewer threads than the capacity hold one, a thread
that looks at an open pool gets a connection, and a db-connect that is not refused by the driver ends with an open
handle on an open pool of its key.
*/
module DbPoolServes {
  import opened Wrappers
  import opened DbPool
  import opened DbPoolSafe
  import opened DbPoolRuns
  import opened DbPoolLost
  import opened DbPoolTheorems

  // A waiting thread gets its place exactly if fewer threads hold one than the pool has.
  lemma TokenExactly(s: State, t: Id, p: Id)
    requires Reachable(s) && t in s.threads && s.threads[t] == AcqWait(p) && p in s.pools
    ensures Next(s, TakeToken(t)).Some? <==> |Tokens(s.threads, p)| < s.pools[p].cap
  {
    CapacityHolds(s, p);
  }

  // Of an open pool that has idle connections a thread gets one of them.
  lemma {:induction false} IdleServes(run: seq<Label>, middle: seq<Label>, u: Id, p: Id, s: State, s1: State)
    requires After(run) == Some(s) && u in s.threads && s.threads[u] == AcqLook(p) && p in s.pools && !s.pools[p].closed
    requires After(run + [Look(u)] + middle) == Some(s1) && Others(middle, u) && s.pools[p].idle != []
    ensures u in s1.threads && s1.threads[u].Using? && s1.threads[u].pool == p && s1.threads[u].conn in s.pools[p].idle
  {
    BeforeLast(run, Look(u));
    ThreadWaits(run + [Look(u)], middle, u);
    LookGives(s, u, p);
  }

  // Of one that has none, whatever others do, it may open one, and then it uses that.
  lemma {:induction false} OpenServes(run: seq<Label>, middle: seq<Label>, u: Id, p: Id, c: Conn, s: State, s1: State)
    requires After(run) == Some(s) && u in s.threads && s.threads[u] == AcqLook(p) && p in s.pools && !s.pools[p].closed
    requires After(run + [Look(u)] + middle) == Some(s1) && Others(middle, u) && s.pools[p].idle == [] && NewConn(s1, c)
    ensures Next(s1, OpenOk(u, c)).Some?
    ensures u in Next(s1, OpenOk(u, c)).value.threads && Next(s1, OpenOk(u, c)).value.threads[u] == Using(p, c)
  {
    DialWaits(run, middle, u, p, s, s1);
    OpenGives(s1, u, p, c);
  }

  lemma {:induction false} DialWaits(run: seq<Label>, middle: seq<Label>, u: Id, p: Id, s: State, s1: State)
    requires After(run) == Some(s) && u in s.threads && s.threads[u] == AcqLook(p) && p in s.pools && !s.pools[p].closed
    requires After(run + [Look(u)] + middle) == Some(s1) && Others(middle, u) && s.pools[p].idle == []
    ensures u in s1.threads && s1.threads[u] == AcqDial(p)
  {
    BeforeLast(run, Look(u));
    ThreadWaits(run + [Look(u)], middle, u);
    LookGives(s, u, p);
  }

  lemma LookGives(s: State, u: Id, p: Id)
    requires CanLook(s, u) && s.threads[u] == AcqLook(p) && !s.pools[p].closed
    ensures var s' := LookStep(s, u);
            && u in s'.threads
            && (if s.pools[p].idle == [] then s'.threads[u] == AcqDial(p)
                else s'.threads[u].Using? && s'.threads[u].pool == p && s'.threads[u].conn in s.pools[p].idle)
  {}

  lemma OpenGives(s: State, u: Id, p: Id, c: Conn)
    requires u in s.threads && s.threads[u] == AcqDial(p) && NewConn(s, c)
    ensures Next(s, OpenOk(u, c)).Some? && u in Next(s, OpenOk(u, c)).value.threads
    ensures Next(s, OpenOk(u, c)).value.threads[u] == Using(p, c)
  {}

  // The handle is new, open, and on an open pool of the key, which is the one in the table.
  ghost predicate Connected(s: State, s': State, h: Id, key: Key) {
    && h !in s.handles && h in s'.handles && !s'.handles[h].closed && s'.handles[h].pool in s'.pools
    && s'.pools[s'.handles[h].pool].key == key && !s'.pools[s'.handles[h].pool].closed
    && key in s'.table && s'.table[key] == s'.handles[h].pool
  }

  function ConnectKey(pc: Pc): Option<Key> { if HasPool(pc) then None else Some(pc.key) }

  // A thread leaves db-connect with an open handle for its key, unless the driver fails.
  lemma ConnectEnds(s: State, l: Label, key: Key) returns (h: Id)
    requires Reachable(s) && Next(s, l).Some? && l.t in s.threads && ConnectKey(s.threads[l.t]) == Some(key)
    requires l.t !in Next(s, l).value.threads && !l.DialFail?
    ensures Connected(s, Next(s, l).value, h, key)
  {
    ReachableInv(s);
    ConnectLeaves(s, l);
    h := l.h;
    if l.Share? { ShareConnects(s, l.t, l.h, key); } else { PublishConnects(s, l.t, l.p, l.h, l.cap, key); }
  }

  lemma ConnectLeaves(s: State, l: Label)
    requires Next(s, l).Some? && l.t in s.threads && !HasPool(s.threads[l.t])
    requires l.t !in Next(s, l).value.threads && !l.DialFail?
    ensures l.Share? || l.PublishPool?
  {}

  lemma ShareConnects(s: State, t: Id, h: Id, key: Key)
    requires Inv(s) && CanShare(s, t, h) && s.threads[t].key == key && t !in ShareStep(s, t, h).threads
    ensures Connected(s, ShareStep(s, t, h), h, key)
  {
    ShareLeaves(s, t, h, key);
    TableIs(s, key);
    ShareHits(s, t, h, key);
  }

  lemma ShareLeaves(s: State, t: Id, h: Id, key: Key)
    requires CanShare(s, t, h) && s.threads[t].key == key && t !in ShareStep(s, t, h).threads
    ensures OpenIn(s, key)
  {}

  lemma TableIs(s: State, key: Key)
    requires Inv(s) && OpenIn(s, key)
    ensures s.pools[s.table[key]].key == key
  {
    Aspects(s);
    assert Listed(s, key);
  }

  lemma ShareHits(s: State, t: Id, h: Id, key: Key)
    requires CanShare(s, t, h) && s.threads[t].key == key && OpenIn(s, key) && s.pools[s.table[key]].key == key
    ensures Connected(s, ShareStep(s, t, h), h, key)
  {}

  lemma PublishConnects(s: State, t: Id, p: Id, h: Id, cap: nat, key: Key)
    requires CanPublish(s, t, p, h, cap) && s.threads[t].key == key
    ensures Connected(s, PublishStep(s, t, p, h, cap), h, key)
  {}
}
