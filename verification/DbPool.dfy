/**
The database pools as a concurrent protocol. A thread is one call in flight (db-connect, db-close,
a query, a transaction); every step is one lock region, one semaphore operation or one call into
the driver, and any number of threads interleave in any way.
*/
module DbPool {
  import opened Wrappers

  type Key = string
  type Id = nat
  type Conn = nat

  datatype Pool = Pool(key: Key, cap: nat, taken: int, idle: seq<Conn>, refs: int, closed: bool)

  datatype Handle = Handle(pool: Id, closed: bool)

  datatype Pc =
    | Connect1(key: Key)                          // first look at the table
    | ConnectWait(key: Key)                       // waiting for the dial lock of the key
    | Connect2(key: Key)                          // second look, dial lock held
    | ConnectDial(key: Key)                       // about to open the first connection
    | Publish(key: Key, conn: Conn)               // about to enter the new pool in the table
    | CloseDrop(pool: Id)                         // handle marked closed, reference still counted
    | CloseSeal(pool: Id)                         // last reference gone, table lock held
    | CloseIdle(pool: Id, conns: seq<Conn>)       // closing the connections that were idle
    | AcqWait(pool: Id)                           // waiting for the semaphore
    | AcqLook(pool: Id)                           // token taken, about to look at the pool
    | AcqRefund(pool: Id)                         // nothing acquired, token to give back
    | AcqDial(pool: Id)                           // opening a connection
    | Using(pool: Id, conn: Conn)
    | Pinned(pool: Id, conn: Conn)                // an open transaction
    | RelPut(pool: Id, conn: Conn, broken: bool)  // about to put the connection back
    | RelClose(pool: Id, conn: Conn)              // about to close it instead
    | RelToken(pool: Id)                          // about to give the token back

  // History: where each connection is, which no step of the protocol reads.
  datatype Place = Idle(pool: Id) | At(thread: Id) | Gone

  datatype State = State(
    pools: map<Id, Pool>,            // every pool ever made
    table: map<Key, Id>,             // the global map
    poolsMu: Option<Id>,             // the thread inside db-close between the two locks
    dialMu: map<Key, Id>,
    handles: map<Id, Handle>,
    threads: map<Id, Pc>,
    txDone: map<Id, bool>,           // a transaction is named after the thread that began it
    owner: map<Conn, Id>,            // history: the pool a connection was opened for
    closes: map<Conn, nat>,          // history: how often it was closed
    place: map<Conn, Place>)

  const INIT := State(map[], map[], None, map[], map[], map[], map[], map[], map[], map[])

  const MAX_IDLE := 8

  // ----- Steps -----

  predicate OpenIn(s: State, key: Key) {
    key in s.table && s.table[key] in s.pools && !s.pools[s.table[key]].closed
  }

  function Goto(s: State, t: Id, pc: Pc): State { s.(threads := s.threads[t := pc]) }

  function Done(s: State, t: Id): State { s.(threads := s.threads - {t}) }

  function WithPool(s: State, p: Id, pool: Pool): State { s.(pools := s.pools[p := pool]) }

  function Unlock(s: State, key: Key): State { s.(dialMu := s.dialMu - {key}) }

  function Move(s: State, c: Conn, place: Place): State { s.(place := s.place[c := place]) }

  function MoveAll(place: map<Conn, Place>, cs: seq<Conn>, to: Place): map<Conn, Place> {
    map c | c in place :: if c in cs then to else place[c]
  }

  predicate New(s: State, t: Id) { t !in s.threads && t !in s.txDone }

  predicate NewConn(s: State, c: Conn) { c !in s.place && c !in s.owner && c !in s.closes }

  // The thread has a pool, which is one of the pools.
  predicate Knows(s: State, t: Id) { t in s.threads && HasPool(s.threads[t]) && s.threads[t].pool in s.pools }

  predicate HasPool(pc: Pc) {
    !(pc.Connect1? || pc.ConnectWait? || pc.Connect2? || pc.ConnectDial? || pc.Publish?)
  }

  // db-connect: look for an open pool of the key, take the dial lock of the key, look again, open the
  // first connection and enter a new pool in the table.

  predicate CanShare(s: State, t: Id, h: Id) {
    t in s.threads && (s.threads[t].Connect1? || s.threads[t].Connect2?) && s.poolsMu.None? && h !in s.handles
  }

  // A new handle on the open pool of the key.
  function ShareHit(s: State, t: Id, h: Id): State
    requires CanShare(s, t, h) && OpenIn(s, s.threads[t].key)
  {
    var p := s.table[s.threads[t].key];
    Done(WithPool(s, p, s.pools[p].(refs := s.pools[p].refs + 1)), t).(handles := s.handles[h := Handle(p, false)])
  }

  function ShareStep(s: State, t: Id, h: Id): State
    requires CanShare(s, t, h)
  {
    var key := s.threads[t].key;
    if OpenIn(s, key) then
      if s.threads[t].Connect1? then ShareHit(s, t, h) else Unlock(ShareHit(s, t, h), key)
    else Goto(s, t, if s.threads[t].Connect1? then ConnectWait(key) else ConnectDial(key))
  }

  predicate CanLockDial(s: State, t: Id) { t in s.threads && s.threads[t].ConnectWait? && s.threads[t].key !in s.dialMu }

  function LockDialStep(s: State, t: Id): State
    requires CanLockDial(s, t)
  {
    var key := s.threads[t].key;
    Goto(s, t, Connect2(key)).(dialMu := s.dialMu[key := t])
  }

  predicate CanDial(s: State, t: Id) { t in s.threads && s.threads[t].ConnectDial? }

  function DialOkStep(s: State, t: Id, c: Conn): State
    requires CanDial(s, t)
  {
    Goto(s, t, Publish(s.threads[t].key, c)).(place := s.place[c := At(t)], closes := s.closes[c := 0])
  }

  function DialFailStep(s: State, t: Id): State
    requires CanDial(s, t)
  {
    Unlock(Done(s, t), s.threads[t].key)
  }

  predicate CanPublish(s: State, t: Id, p: Id, h: Id, cap: nat) {
    t in s.threads && s.threads[t].Publish? && s.poolsMu.None? && p !in s.pools && h !in s.handles && cap >= 1
  }

  function PublishStep(s: State, t: Id, p: Id, h: Id, cap: nat): State
    requires CanPublish(s, t, p, h, cap)
  {
    var key, c := s.threads[t].key, s.threads[t].conn;
    Unlock(Done(s, t), key).(
      pools := s.pools[p := Pool(key, cap, 0, [c], 1, false)],
      table := s.table[key := p],
      handles := s.handles[h := Handle(p, false)],
      owner := s.owner[c := p],
      place := s.place[c := Idle(p)])
  }

  // db-close: mark the handle, drop its reference and, if it was the last, take the pool out of the
  // table, seal it and close what was idle in it. The table lock is held from the drop to the seal.

  predicate CanCloseHandle(s: State, t: Id, h: Id) { New(s, t) && h in s.handles && !s.handles[h].closed }

  function CloseHandleStep(s: State, t: Id, h: Id): State
    requires CanCloseHandle(s, t, h)
  {
    Goto(s, t, CloseDrop(s.handles[h].pool)).(handles := s.handles[h := s.handles[h].(closed := true)])
  }

  predicate CanDrop(s: State, t: Id) { Knows(s, t) && s.threads[t].CloseDrop? && s.poolsMu.None? }

  function Dropped(s: State, t: Id): State
    requires CanDrop(s, t)
  {
    var p := s.threads[t].pool;
    WithPool(s, p, s.pools[p].(refs := s.pools[p].refs - 1))
  }

  function Unlisted(s: State, p: Id): map<Key, Id>
    requires p in s.pools
  {
    var key := s.pools[p].key;
    if key in s.table && s.table[key] == p then s.table - {key} else s.table
  }

  function DropStep(s: State, t: Id): State
    requires CanDrop(s, t)
  {
    var p := s.threads[t].pool;
    if s.pools[p].refs - 1 > 0 then Done(Dropped(s, t), t)
    else Goto(Dropped(s, t), t, CloseSeal(p)).(table := Unlisted(s, p), poolsMu := Some(t))
  }

  predicate CanSeal(s: State, t: Id) { Knows(s, t) && s.threads[t].CloseSeal? }

  function SealStep(s: State, t: Id): State
    requires CanSeal(s, t)
  {
    var p := s.threads[t].pool;
    Goto(WithPool(s, p, s.pools[p].(closed := true, idle := [])), t, CloseIdle(p, s.pools[p].idle)).(
      poolsMu := None, place := MoveAll(s.place, s.pools[p].idle, At(t)))
  }

  predicate CanCloseOne(s: State, t: Id) {
    t in s.threads && s.threads[t].CloseIdle? && (s.threads[t].conns != [] ==> s.threads[t].conns[0] in s.closes)
  }

  function Shut(s: State, c: Conn): State
    requires c in s.closes
  {
    s.(closes := s.closes[c := s.closes[c] + 1], place := s.place[c := Gone])
  }

  function CloseOneStep(s: State, t: Id): State
    requires CanCloseOne(s, t)
  {
    var conns := s.threads[t].conns;
    if conns == [] then Done(s, t)
    else Goto(Shut(s, conns[0]), t, CloseIdle(s.threads[t].pool, conns[1..]))
  }

  // acquire: a place in the semaphore, then an idle connection or a new one.

  predicate CanStart(s: State, t: Id, h: Id) { New(s, t) && h in s.handles && !s.handles[h].closed }

  function StartStep(s: State, t: Id, h: Id): State
    requires CanStart(s, t, h)
  {
    Goto(s, t, AcqWait(s.handles[h].pool))
  }

  predicate CanTakeToken(s: State, t: Id) {
    Knows(s, t) && s.threads[t].AcqWait? && s.pools[s.threads[t].pool].taken < s.pools[s.threads[t].pool].cap
  }

  function TakeTokenStep(s: State, t: Id): State
    requires CanTakeToken(s, t)
  {
    var p := s.threads[t].pool;
    Goto(WithPool(s, p, s.pools[p].(taken := s.pools[p].taken + 1)), t, AcqLook(p))
  }

  predicate CanLook(s: State, t: Id) { Knows(s, t) && s.threads[t].AcqLook? }

  // The connection put back last is the one that goes out first.
  function PopIdle(s: State, t: Id): State
    requires CanLook(s, t) && s.pools[s.threads[t].pool].idle != []
  {
    var p := s.threads[t].pool;
    var idle := s.pools[p].idle;
    var c := idle[|idle| - 1];
    Move(Goto(WithPool(s, p, s.pools[p].(idle := idle[..|idle| - 1])), t, Using(p, c)), c, At(t))
  }

  function LookStep(s: State, t: Id): State
    requires CanLook(s, t)
  {
    var p := s.threads[t].pool;
    if s.pools[p].closed then Goto(s, t, AcqRefund(p))
    else if s.pools[p].idle != [] then PopIdle(s, t)
    else Goto(s, t, AcqDial(p))
  }

  predicate CanOpen(s: State, t: Id) { t in s.threads && s.threads[t].AcqDial? }

  function OpenOkStep(s: State, t: Id, c: Conn): State
    requires CanOpen(s, t)
  {
    var p := s.threads[t].pool;
    Goto(s, t, Using(p, c)).(owner := s.owner[c := p], place := s.place[c := At(t)], closes := s.closes[c := 0])
  }

  function OpenFailStep(s: State, t: Id): State
    requires CanOpen(s, t)
  {
    Goto(s, t, AcqRefund(s.threads[t].pool))
  }

  // Using a connection, for one statement or pinned to a transaction, and release.

  predicate CanUse(s: State, t: Id) { t in s.threads && s.threads[t].Using? }

  function BeginTxStep(s: State, t: Id): State
    requires CanUse(s, t)
  {
    Goto(s, t, Pinned(s.threads[t].pool, s.threads[t].conn)).(txDone := s.txDone[t := false])
  }

  function EndUseStep(s: State, t: Id, broken: bool): State
    requires CanUse(s, t)
  {
    Goto(s, t, RelPut(s.threads[t].pool, s.threads[t].conn, broken))
  }

  predicate CanFinish(s: State, t: Id) { t in s.txDone && (!s.txDone[t] ==> t in s.threads && s.threads[t].Pinned?) }

  // Commit or rollback; once one of them has run, a rollback does nothing and a commit only fails.
  function FinishTxStep(s: State, t: Id, broken: bool): State
    requires CanFinish(s, t)
  {
    if s.txDone[t] then s
    else Goto(s, t, RelPut(s.threads[t].pool, s.threads[t].conn, broken)).(txDone := s.txDone[t := true])
  }

  predicate CanPut(s: State, t: Id) { Knows(s, t) && s.threads[t].RelPut? }

  function PutIdle(s: State, t: Id): State
    requires CanPut(s, t)
  {
    var p, c := s.threads[t].pool, s.threads[t].conn;
    Move(Goto(WithPool(s, p, s.pools[p].(idle := s.pools[p].idle + [c])), t, RelToken(p)), c, Idle(p))
  }

  function PutStep(s: State, t: Id): State
    requires CanPut(s, t)
  {
    var p := s.threads[t].pool;
    if !s.threads[t].broken && !s.pools[p].closed && |s.pools[p].idle| < MAX_IDLE then PutIdle(s, t)
    else Goto(s, t, RelClose(p, s.threads[t].conn))
  }

  predicate CanCloseConn(s: State, t: Id) { t in s.threads && s.threads[t].RelClose? && s.threads[t].conn in s.closes }

  function CloseConnStep(s: State, t: Id): State
    requires CanCloseConn(s, t)
  {
    Goto(Shut(s, s.threads[t].conn), t, RelToken(s.threads[t].pool))
  }

  predicate CanReturn(s: State, t: Id) { Knows(s, t) && (s.threads[t].RelToken? || s.threads[t].AcqRefund?) }

  function ReturnTokenStep(s: State, t: Id): State
    requires CanReturn(s, t)
  {
    var p := s.threads[t].pool;
    Done(WithPool(s, p, s.pools[p].(taken := s.pools[p].taken - 1)), t)
  }

  // ----- The machine -----

  datatype Label =
    | NewConnect(t: Id, key: Key)
    | Share(t: Id, h: Id)
    | LockDial(t: Id)
    | DialOk(t: Id, c: Conn)
    | DialFail(t: Id)
    | PublishPool(t: Id, p: Id, h: Id, cap: nat)
    | CloseHandle(t: Id, h: Id)
    | Drop(t: Id)
    | Seal(t: Id)
    | CloseOne(t: Id)
    | StartAcquire(t: Id, h: Id)
    | TakeToken(t: Id)
    | Look(t: Id)
    | OpenOk(t: Id, c: Conn)
    | OpenFail(t: Id)
    | BeginTx(t: Id)
    | EndUse(t: Id, broken: bool)
    | FinishTx(t: Id, broken: bool)
    | Put(t: Id)
    | CloseConn(t: Id)
    | ReturnToken(t: Id)

  // The state after the step, if it is possible.
  function Next(s: State, l: Label): Option<State> {
    match l
    case NewConnect(t, key) => if New(s, t) then Some(Goto(s, t, Connect1(key))) else None
    case Share(t, h) => if CanShare(s, t, h) then Some(ShareStep(s, t, h)) else None
    case LockDial(t) => if CanLockDial(s, t) then Some(LockDialStep(s, t)) else None
    case DialOk(t, c) => if CanDial(s, t) && NewConn(s, c) then Some(DialOkStep(s, t, c)) else None
    case DialFail(t) => if CanDial(s, t) then Some(DialFailStep(s, t)) else None
    case PublishPool(t, p, h, cap) => if CanPublish(s, t, p, h, cap) then Some(PublishStep(s, t, p, h, cap)) else None
    case CloseHandle(t, h) => if CanCloseHandle(s, t, h) then Some(CloseHandleStep(s, t, h)) else None
    case Drop(t) => if CanDrop(s, t) then Some(DropStep(s, t)) else None
    case Seal(t) => if CanSeal(s, t) then Some(SealStep(s, t)) else None
    case CloseOne(t) => if CanCloseOne(s, t) then Some(CloseOneStep(s, t)) else None
    case StartAcquire(t, h) => if CanStart(s, t, h) then Some(StartStep(s, t, h)) else None
    case TakeToken(t) => if CanTakeToken(s, t) then Some(TakeTokenStep(s, t)) else None
    case Look(t) => if CanLook(s, t) then Some(LookStep(s, t)) else None
    case OpenOk(t, c) => if CanOpen(s, t) && NewConn(s, c) then Some(OpenOkStep(s, t, c)) else None
    case OpenFail(t) => if CanOpen(s, t) then Some(OpenFailStep(s, t)) else None
    case BeginTx(t) => if CanUse(s, t) && t !in s.txDone then Some(BeginTxStep(s, t)) else None
    case EndUse(t, broken) => if CanUse(s, t) then Some(EndUseStep(s, t, broken)) else None
    case FinishTx(t, broken) => if CanFinish(s, t) then Some(FinishTxStep(s, t, broken)) else None
    case Put(t) => if CanPut(s, t) then Some(PutStep(s, t)) else None
    case CloseConn(t) => if CanCloseConn(s, t) then Some(CloseConnStep(s, t)) else None
    case ReturnToken(t) => if CanReturn(s, t) then Some(ReturnTokenStep(s, t)) else None
  }

  // The state after a run from the beginning, if each step was possible in its turn.
  function After(run: seq<Label>): Option<State>
    decreases |run|
  {
    if run == [] then Some(INIT) else
    var s := After(run[..|run| - 1]);
    if s.Some? then Next(s.value, run[|run| - 1]) else None
  }
}
