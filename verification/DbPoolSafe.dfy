/**
What holds in every reachable state of the pools: capacity, uniqueness of connections and of open
pools, and that a pool that has been closed and left closes each of its connections exactly once.
*/
module DbPoolSafe {
  import opened Wrappers
  import opened DbPool

  // ----- What a thread counts for -----

  function TokenOf(pc: Pc): Option<Id> {
    match pc
    case AcqLook(p) => Some(p)
    case AcqRefund(p) => Some(p)
    case AcqDial(p) => Some(p)
    case Using(p, _) => Some(p)
    case Pinned(p, _) => Some(p)
    case RelPut(p, _, _) => Some(p)
    case RelClose(p, _) => Some(p)
    case RelToken(p) => Some(p)
    case Connect1(_) => None
    case ConnectWait(_) => None
    case Connect2(_) => None
    case ConnectDial(_) => None
    case Publish(_, _) => None
    case CloseDrop(_) => None
    case CloseSeal(_) => None
    case CloseIdle(_, _) => None
    case AcqWait(_) => None
  }

  // A connection handed out or being opened.
  function ActiveOf(pc: Pc): Option<Id> {
    if pc.AcqLook? || pc.AcqRefund? || pc.RelToken? then None else TokenOf(pc)
  }

  function DropOf(pc: Pc): Option<Id> { if pc.CloseDrop? then Some(pc.pool) else None }

  function DialOf(pc: Pc): Option<Key> {
    match pc
    case Connect2(k) => Some(k)
    case ConnectDial(k) => Some(k)
    case Publish(k, _) => Some(k)
    case Connect1(_) => None
    case ConnectWait(_) => None
    case CloseDrop(_) => None
    case CloseSeal(_) => None
    case CloseIdle(_, _) => None
    case AcqWait(_) => None
    case AcqLook(_) => None
    case AcqRefund(_) => None
    case AcqDial(_) => None
    case Using(_, _) => None
    case Pinned(_, _) => None
    case RelPut(_, _, _) => None
    case RelClose(_, _) => None
    case RelToken(_) => None
  }

  // The connections a thread holds.
  function HeldBy(pc: Pc): seq<Conn> {
    if pc.Publish? || pc.Using? || pc.Pinned? || pc.RelPut? || pc.RelClose? then [pc.conn]
    else if pc.CloseIdle? then pc.conns
    else []
  }

  function Tokens(threads: map<Id, Pc>, p: Id): set<Id> { set t | t in threads && TokenOf(threads[t]) == Some(p) }
  function Active(threads: map<Id, Pc>, p: Id): set<Id> { set t | t in threads && ActiveOf(threads[t]) == Some(p) }
  function Droppers(threads: map<Id, Pc>, p: Id): set<Id> { set t | t in threads && DropOf(threads[t]) == Some(p) }
  function OpenHandles(handles: map<Id, Handle>, p: Id): set<Id> { set h | h in handles && handles[h] == Handle(p, false) }

  // ----- Invariants -----

  // The global map, the two kinds of lock, and which pools are open.
  ghost predicate Control(s: State) {
    && (forall k :: k in s.table ==> Listed(s, k))
    && (forall p :: p in s.pools ==> Standing(s, p))
    && (forall p, q :: p in s.pools && q in s.pools ==> Apart(s, p, q))
    && (s.poolsMu.Some? ==> s.poolsMu.value in s.threads && s.threads[s.poolsMu.value].CloseSeal?)
    && (forall t :: t in s.threads && s.threads[t].CloseSeal? ==> SealFacts(s, t, s.threads[t].pool))
    && (forall t :: t in s.threads ==> DialHeld(s, t) && Dialing(s, t))
    && (forall k :: k in s.dialMu ==> DialLive(s, k))
  }

  function DialAt(s: State, t: Id): Option<Key> { if t in s.threads then DialOf(s.threads[t]) else None }

  // A dial lock is held by a thread that is about to let it go.
  ghost predicate DialLive(s: State, k: Key)
    requires k in s.dialMu
  {
    s.dialMu[k] in s.threads && DialAt(s, s.dialMu[k]) == Some(k)
  }

  ghost predicate Listed(s: State, k: Key)
    requires k in s.table
  {
    var p := s.table[k];
    p in s.pools && s.pools[p].key == k && !s.pools[p].closed && s.pools[p].refs > 0
  }

  // An open pool is in the table, or on its way out; a closed one is empty and forgotten.
  ghost predicate Standing(s: State, p: Id)
    requires p in s.pools
  {
    if s.pools[p].closed then s.pools[p].idle == [] && s.pools[p].refs == 0
    else InTable(s, p) || (s.poolsMu.Some? && s.poolsMu.value in s.threads && s.threads[s.poolsMu.value] == CloseSeal(p))
  }

  ghost predicate InTable(s: State, p: Id)
    requires p in s.pools
  {
    s.pools[p].key in s.table && s.table[s.pools[p].key] == p
  }

  // One open pool to a key.
  ghost predicate Apart(s: State, p: Id, q: Id)
    requires p in s.pools && q in s.pools
  {
    !s.pools[p].closed && !s.pools[q].closed && s.pools[p].key == s.pools[q].key ==> p == q
  }

  ghost predicate SealFacts(s: State, t: Id, p: Id) {
    s.poolsMu == Some(t) && p in s.pools && !s.pools[p].closed && s.pools[p].refs == 0 && !InTable(s, p)
  }

  ghost predicate NoneOpen(s: State, key: Key) {
    forall p :: p in s.pools && s.pools[p].key == key ==> s.pools[p].closed
  }

  // References count the handles that are open and the closes that are under way.
  ghost predicate Refs(s: State) {
    && (forall p :: p in s.pools ==> Counted(s, p))
    && (forall h :: h in s.handles ==> s.handles[h].pool in s.pools)
  }

  ghost predicate Counted(s: State, p: Id)
    requires p in s.pools
  {
    s.pools[p].refs == |OpenHandles(s.handles, p)| + |Droppers(s.threads, p)|
  }

  // The semaphore counts the tokens out, and idle and active connections fit the capacity together.
  ghost predicate Capacity(s: State) {
    && (forall p :: p in s.pools ==> Books(s, p))
    && (forall t :: t in s.threads && HasPool(s.threads[t]) ==> s.threads[t].pool in s.pools)
  }

  ghost predicate Books(s: State, p: Id)
    requires p in s.pools
  {
    && s.pools[p].taken == |Tokens(s.threads, p)|
    && s.pools[p].taken <= s.pools[p].cap && s.pools[p].cap >= 1
    && |s.pools[p].idle| + |Active(s.threads, p)| <= s.pools[p].cap
    && |s.pools[p].idle| <= MAX_IDLE
  }

  // Every connection is in one place, as its history says, and is closed at most once.
  ghost predicate Places(s: State) {
    && s.place.Keys == s.closes.Keys && s.owner.Keys <= s.place.Keys
    && (forall c :: c in s.place ==> ClosedOnce(s, c))
    && IdlesOk(s)
    && (forall t :: t in s.threads ==> HeldOk(s, t))
    && (forall c :: c in s.place ==> Found(s, c))
  }

  ghost predicate ClosedOnce(s: State, c: Conn)
    requires c in s.place
  {
    c in s.closes && s.closes[c] == (if s.place[c] == Gone then 1 else 0)
  }

  ghost predicate NoDup(cs: seq<Conn>) { forall i, j :: 0 <= i < j < |cs| ==> cs[i] != cs[j] }

  ghost predicate IdleOk(s: State, p: Id)
    requires p in s.pools
  {
    NoDup(s.pools[p].idle) && forall c :: c in s.pools[p].idle ==> InPool(s, c, p)
  }

  ghost predicate HeldOk(s: State, t: Id)
    requires t in s.threads
  {
    NoDup(HeldBy(s.threads[t])) && forall c :: c in HeldBy(s.threads[t]) ==> WithThread(s, c, t)
  }

  // The connection is where its history says.
  ghost predicate Found(s: State, c: Conn)
    requires c in s.place
  {
    match s.place[c]
    case Idle(p) => p in s.pools && c in s.pools[p].idle
    case At(t) => t in s.threads && c in HeldBy(s.threads[t])
    case Gone => true
  }

  ghost predicate InPool(s: State, c: Conn, p: Id) {
    c in s.place && s.place[c] == Idle(p) && c in s.owner && s.owner[c] == p
  }

  // A held connection belongs to the pool of the thread; one that is only being published to none yet.
  ghost predicate WithThread(s: State, c: Conn, t: Id)
    requires t in s.threads
  {
    && c in s.place && s.place[c] == At(t)
    && if s.threads[t].Publish? then c !in s.owner
       else c in s.owner && HasPool(s.threads[t]) && s.owner[c] == s.threads[t].pool
  }

  // A transaction keeps its connection until it is done, and no longer.
  ghost predicate Transactions(s: State) {
    && (forall t :: t in s.txDone && !s.txDone[t] ==> t in s.threads && s.threads[t].Pinned?)
    && (forall t :: t in s.threads && s.threads[t].Pinned? ==> t in s.txDone && !s.txDone[t])
  }

  // The invariant, aspect by aspect.
  datatype Aspect = Locks | References | Semaphores | Whereabouts | Ends

  ghost predicate Holds(s: State, a: Aspect) {
    match a
    case Locks => Control(s)
    case References => Refs(s)
    case Semaphores => Capacity(s)
    case Whereabouts => Places(s)
    case Ends => Transactions(s)
  }

  ghost predicate Inv(s: State) { forall a :: Holds(s, a) }

  lemma Aspects(s: State)
    requires Inv(s)
    ensures Control(s) && Refs(s) && Capacity(s) && Places(s) && Transactions(s)
  {
    assert Holds(s, Locks) && Holds(s, References) && Holds(s, Semaphores) && Holds(s, Whereabouts) && Holds(s, Ends);
  }

  lemma InitInv()
    ensures Inv(INIT)
  {
    forall a ensures Holds(INIT, a) {
      match a
      case Locks =>
      case References =>
      case Semaphores =>
      case Whereabouts =>
      case Ends =>
    }
  }

  // ----- Counting -----

  ghost predicate OneThread(a: map<Id, Pc>, b: map<Id, Pc>, t: Id) {
    forall u :: u != t ==> (u in a <==> u in b) && (u in a ==> a[u] == b[u])
  }

  lemma SetSizes(a: set<Id>, b: set<Id>, t: Id)
    requires forall u :: u != t ==> (u in a <==> u in b)
    ensures |b| == |a| - (if t in a then 1 else 0) + (if t in b then 1 else 0)
  {
    assert a - {t} == b - {t};
    if t in a { assert a == (a - {t}) + {t}; } else { assert a == a - {t}; }
    if t in b { assert b == (b - {t}) + {t}; } else { assert b == b - {t}; }
  }

  // ----- What a step leaves alone -----

  ghost predicate DialHeld(s: State, t: Id)
    requires t in s.threads
  {
    DialOf(s.threads[t]).Some? ==> DialOf(s.threads[t]).value in s.dialMu && s.dialMu[DialOf(s.threads[t]).value] == t
  }

  ghost predicate Dialing(s: State, t: Id)
    requires t in s.threads
  {
    s.threads[t].ConnectDial? || s.threads[t].Publish? ==> NoneOpen(s, s.threads[t].key)
  }

  // The pool is as open, and as referenced, as it was.
  predicate AsOpen(a: Pool, b: Pool) {
    && b.key == a.key && b.closed == a.closed && (b.refs == a.refs || (a.refs > 0 && b.refs > 0))
    && (a.closed && a.idle == [] ==> b.idle == [] && b.refs == a.refs)
  }

  // The table and its lock are left alone, and every dial lock but those of the thread.
  ghost predicate SameTable(s: State, s': State, t: Id) {
    && s'.table == s.table && s'.poolsMu == s.poolsMu && s'.pools.Keys == s.pools.Keys
    && (forall p :: p in s.pools ==> AsOpen(s.pools[p], s'.pools[p]))
    && (t in s.threads ==> !s.threads[t].CloseSeal?) && (t in s'.threads ==> !s'.threads[t].CloseSeal?)
    && (forall k :: k in s.dialMu && s.dialMu[k] != t ==> k in s'.dialMu && s'.dialMu[k] == s.dialMu[k])
    && (t in s'.threads ==> DialHeld(s', t) && Dialing(s', t))
    && (forall k :: k in s'.dialMu ==> DialKept(s, s', t, k))
  }

  ghost predicate DialKept(s: State, s': State, t: Id, k: Key)
    requires k in s'.dialMu
  {
    if k in s.dialMu then s'.dialMu[k] == s.dialMu[k] && (DialAt(s, t) == Some(k) ==> DialAt(s', t) == Some(k))
    else s'.dialMu[k] == t && DialAt(s', t) == Some(k)
  }

  lemma ControlFrame(s: State, s': State, t: Id)
    requires Control(s) && OneThread(s.threads, s'.threads, t)
    requires SameTable(s, s', t)
    ensures Control(s')
  {
    forall u | u in s'.threads && s'.threads[u].CloseSeal? ensures SealFacts(s', u, s'.threads[u].pool) {
      assert u in s.threads && s.threads[u] == s'.threads[u];
      assert SealFacts(s, u, s.threads[u].pool);
    }
    forall u | u in s'.threads ensures DialHeld(s', u) && Dialing(s', u) {
      if u != t {
        assert u in s.threads && s.threads[u] == s'.threads[u];
        assert DialHeld(s, u) && Dialing(s, u);
      }
    }
    forall k | k in s'.dialMu ensures DialLive(s', k) {
      assert DialKept(s, s', t, k);
      if k in s.dialMu { assert DialLive(s, k); }
    }
    forall k | k in s'.table ensures Listed(s', k) { assert Listed(s, k); }
    forall p | p in s'.pools ensures Standing(s', p) { assert Standing(s, p) && AsOpen(s.pools[p], s'.pools[p]); }
    forall p, q | p in s'.pools && q in s'.pools ensures Apart(s', p, q) { assert Apart(s, p, q); }
  }

  function DropAt(s: State, t: Id): Option<Id> { if t in s.threads then DropOf(s.threads[t]) else None }
  function OpenAt(s: State, h: Id): Option<Id> { if h in s.handles && !s.handles[h].closed then Some(s.handles[h].pool) else None }

  ghost predicate OneHandle(s: State, s': State, h: Id) {
    forall g :: g != h ==> (g in s.handles <==> g in s'.handles) && (g in s.handles ==> s.handles[g] == s'.handles[g])
  }

  ghost predicate Referenced(s: State, s': State, t: Id, h: Id, p: Id)
    requires p in s.pools && p in s'.pools
  {
    s'.pools[p].refs == s.pools[p].refs - One(DropAt(s, t), p) + One(DropAt(s', t), p)
      - One(OpenAt(s, h), p) + One(OpenAt(s', h), p)
  }

  predicate KnownHandle(s: State, s': State, h: Id) {
    h in s'.handles ==> (h in s.handles && s'.handles[h] == s.handles[h]) || s'.handles[h].pool in s.pools
  }

  // One handle and one thread change: the references of a pool follow.
  lemma CountedKept(s: State, s': State, t: Id, h: Id, p: Id)
    requires p in s.pools && p in s'.pools && Counted(s, p) && OneThread(s.threads, s'.threads, t) && OneHandle(s, s', h)
    requires Referenced(s, s', t, h, p)
    ensures Counted(s', p)
  {
    SetSizes(Droppers(s.threads, p), Droppers(s'.threads, p), t);
    SetSizes(OpenHandles(s.handles, p), OpenHandles(s'.handles, p), h);
  }

  lemma RefsFrame(s: State, s': State, t: Id, h: Id)
    requires Refs(s) && OneThread(s.threads, s'.threads, t) && OneHandle(s, s', h) && s'.pools.Keys == s.pools.Keys
    requires forall p :: p in s.pools ==> Referenced(s, s', t, h, p)
    requires KnownHandle(s, s', h)
    ensures Refs(s')
  {
    forall p | p in s'.pools ensures Counted(s', p) {
      assert Counted(s, p);
      CountedKept(s, s', t, h, p);
    }
    forall g | g in s'.handles ensures s'.handles[g].pool in s'.pools {
      if g != h { assert g in s.handles && s.handles[g] == s'.handles[g]; } else { assert KnownHandle(s, s', h); }
    }
  }

  function TokenAt(s: State, t: Id): Option<Id> { if t in s.threads then TokenOf(s.threads[t]) else None }
  function ActiveAt(s: State, t: Id): Option<Id> { if t in s.threads then ActiveOf(s.threads[t]) else None }
  function One(o: Option<Id>, p: Id): int { if o == Some(p) then 1 else 0 }

  // What the step changes in the pool it changes in the thread.
  ghost predicate Balanced(s: State, s': State, t: Id, p: Id)
    requires p in s.pools && p in s'.pools
  {
    && s'.pools[p].cap == s.pools[p].cap
    && s'.pools[p].taken == s.pools[p].taken - One(TokenAt(s, t), p) + One(TokenAt(s', t), p)
    && (s'.pools[p].taken <= s.pools[p].taken || s'.pools[p].taken <= s.pools[p].cap)
    && (|s'.pools[p].idle| <= |s.pools[p].idle| || |s'.pools[p].idle| <= MAX_IDLE)
    && (|s'.pools[p].idle| - One(ActiveAt(s, t), p) + One(ActiveAt(s', t), p) <= |s.pools[p].idle| || s'.pools[p].idle == [])
  }

  lemma TokensMove(s: State, s': State, t: Id, p: Id)
    requires OneThread(s.threads, s'.threads, t)
    ensures |Tokens(s'.threads, p)| == |Tokens(s.threads, p)| - One(TokenAt(s, t), p) + One(TokenAt(s', t), p)
    ensures |Active(s'.threads, p)| == |Active(s.threads, p)| - One(ActiveAt(s, t), p) + One(ActiveAt(s', t), p)
  {
    SetSizes(Tokens(s.threads, p), Tokens(s'.threads, p), t);
    SetSizes(Active(s.threads, p), Active(s'.threads, p), t);
  }

  lemma ActiveHoldTokens(threads: map<Id, Pc>, p: Id)
    ensures |Active(threads, p)| <= |Tokens(threads, p)|
  {
    SubsetSize(Active(threads, p), Tokens(threads, p));
  }

  lemma SubsetSize(a: set<Id>, b: set<Id>)
    requires a <= b
    ensures |a| <= |b|
  {
    assert b == a + (b - a);
  }

  lemma BooksKept(s: State, s': State, t: Id, p: Id)
    requires p in s.pools && p in s'.pools && Books(s, p) && OneThread(s.threads, s'.threads, t) && Balanced(s, s', t, p)
    ensures Books(s', p)
  {
    TokensMove(s, s', t, p);
    ActiveHoldTokens(s'.threads, p);
  }

  lemma CapacityFrame(s: State, s': State, t: Id)
    requires Capacity(s) && OneThread(s.threads, s'.threads, t) && s.pools.Keys == s'.pools.Keys
    requires forall p :: p in s.pools ==> Balanced(s, s', t, p)
    requires t in s'.threads && HasPool(s'.threads[t]) ==> s'.threads[t].pool in s.pools
    ensures Capacity(s')
  {
    forall p | p in s'.pools ensures Books(s', p) {
      assert Books(s, p);
      BooksKept(s, s', t, p);
    }
    forall u | u in s'.threads && HasPool(s'.threads[u]) ensures s'.threads[u].pool in s'.pools {
      if u != t { assert u in s.threads && s.threads[u] == s'.threads[u]; }
    }
  }

  ghost predicate IdlesOk(s: State) { forall p :: p in s.pools ==> IdleOk(s, p) }

  function HeldAt(s: State, t: Id): seq<Conn> { if t in s.threads then HeldBy(s.threads[t]) else [] }

  // What the history says of a connection.
  ghost predicate SameHistory(s: State, s': State, c: Conn) {
    && (c in s'.place <==> c in s.place) && (c in s'.closes <==> c in s.closes) && (c in s'.owner <==> c in s.owner)
    && (c in s.place ==> s'.place[c] == s.place[c])
    && (c in s.closes ==> s'.closes[c] == s.closes[c])
    && (c in s.owner ==> s'.owner[c] == s.owner[c])
  }

  // A connection that the step moved: from nowhere, from a pool or from the thread that moved it.
  ghost predicate Settled(s: State, s': State, t: Id, c: Conn) {
    && (c in s.place ==> s.place[c].Idle? || s.place[c] == At(t))
    && c in s'.place && ClosedOnce(s', c) && Found(s', c)
  }

  ghost predicate IdleMoved(s: State, s': State, moved: set<Conn>, p: Id)
    requires p in s'.pools
  {
    && NoDup(s'.pools[p].idle)
    && (forall c :: c in s'.pools[p].idle ==>
          if c in moved then InPool(s', c, p) else p in s.pools && c in s.pools[p].idle)
    && (p in s.pools ==> forall c :: c in s.pools[p].idle && c !in moved ==> c in s'.pools[p].idle)
  }

  ghost predicate HeldMoved(s: State, s': State, moved: set<Conn>, t: Id) {
    && NoDup(HeldAt(s', t))
    && (forall c :: c in HeldAt(s', t) ==> if c in moved then WithThread(s', c, t) else c in HeldAt(s, t) && SamePool(s, s', t))
    && (forall c :: c in HeldAt(s, t) && c !in moved ==> c in HeldAt(s', t))
  }

  predicate SamePool(s: State, s': State, t: Id) {
    t in s.threads && t in s'.threads && HasPool(s.threads[t]) && HasPool(s'.threads[t]) && s'.threads[t].pool == s.threads[t].pool
  }

  ghost predicate Moved(s: State, s': State, t: Id, moved: set<Conn>) {
    && OneThread(s.threads, s'.threads, t) && s.pools.Keys <= s'.pools.Keys
    && (forall c :: c !in moved ==> SameHistory(s, s', c))
    && (forall c :: c in moved ==> Settled(s, s', t, c))
    && (forall p :: p in s'.pools ==> IdleMoved(s, s', moved, p))
    && HeldMoved(s, s', moved, t)
  }

  lemma PlacesFrame(s: State, s': State, t: Id, moved: set<Conn>)
    requires Places(s) && Moved(s, s', t, moved)
    ensures Places(s')
  {
    forall c ensures (c in s'.place <==> c in s'.closes) && (c in s'.owner ==> c in s'.place) { if c !in moved { assert SameHistory(s, s', c); } }
    forall c | c in s'.place ensures ClosedOnce(s', c) && Found(s', c) {
      if c !in moved {
        assert SameHistory(s, s', c) && Found(s, c) && ClosedOnce(s, c);
        StillFound(s, s', t, moved, c);
      }
    }
    forall p | p in s'.pools ensures IdleOk(s', p) {
      forall c | c in s'.pools[p].idle ensures InPool(s', c, p) {
        if c !in moved { assert SameHistory(s, s', c) && IdleOk(s, p) && InPool(s, c, p); }
      }
    }
    forall u | u in s'.threads ensures HeldOk(s', u) { StillHeld(s, s', t, moved, u); }
  }

  lemma StillFound(s: State, s': State, t: Id, moved: set<Conn>, c: Conn)
    requires OneThread(s.threads, s'.threads, t) && s.pools.Keys <= s'.pools.Keys
    requires c in s.place && c in s'.place && c !in moved && s'.place[c] == s.place[c] && Found(s, c)
    requires forall p :: p in s'.pools ==> IdleMoved(s, s', moved, p)
    requires HeldMoved(s, s', moved, t)
    ensures Found(s', c)
  {
    match s.place[c]
    case Idle(p) => assert IdleMoved(s, s', moved, p);
    case At(u) => if u == t { assert c in HeldAt(s, t); }
    case Gone =>
  }

  lemma StillHeld(s: State, s': State, t: Id, moved: set<Conn>, u: Id)
    requires OneThread(s.threads, s'.threads, t) && u in s'.threads
    requires forall v :: v in s.threads ==> HeldOk(s, v)
    requires forall c :: c !in moved ==> SameHistory(s, s', c)
    requires forall c :: c in moved ==> Settled(s, s', t, c)
    requires HeldMoved(s, s', moved, t)
    ensures HeldOk(s', u)
  {
    if u == t {
      forall c | c in HeldBy(s'.threads[t]) ensures WithThread(s', c, t) {
        assert c in HeldAt(s', t);
        if c !in moved { assert SameHistory(s, s', c) && HeldOk(s, t) && WithThread(s, c, t); }
      }
    } else {
      assert u in s.threads && s.threads[u] == s'.threads[u] && HeldOk(s, u);
      forall c | c in HeldBy(s'.threads[u]) ensures WithThread(s', c, u) {
        assert WithThread(s, c, u);
        assert !Settled(s, s', t, c);
        assert SameHistory(s, s', c);
      }
    }
  }

  ghost predicate NothingMoves(s: State, s': State, t: Id) {
    && s'.place == s.place && s'.closes == s.closes && s'.owner == s.owner && s'.pools.Keys == s.pools.Keys
    && (forall p :: p in s.pools ==> s'.pools[p].idle == s.pools[p].idle)
    && HeldAt(s', t) == HeldAt(s, t) && (HeldAt(s, t) != [] ==> SamePool(s, s', t))
  }

  lemma StillPlaces(s: State, s': State, t: Id)
    requires Places(s) && OneThread(s.threads, s'.threads, t) && NothingMoves(s, s', t)
    ensures Places(s')
  {
    forall p | p in s'.pools ensures IdleMoved(s, s', {}, p) { assert IdleOk(s, p); }
    if t in s.threads { assert HeldOk(s, t); }
    PlacesFrame(s, s', t, {});
  }

  // The books of every pool follow the thread and the handle.
  ghost predicate Accounted(s: State, s': State, t: Id, h: Id) {
    && s'.pools.Keys == s.pools.Keys
    && (forall p :: p in s.pools ==> Balanced(s, s', t, p) && Referenced(s, s', t, h, p))
    && (t in s'.threads && HasPool(s'.threads[t]) ==> s'.threads[t].pool in s.pools)
    && KnownHandle(s, s', h)
  }

  lemma AccountedFrame(s: State, s': State, t: Id, h: Id)
    requires Refs(s) && Capacity(s) && OneThread(s.threads, s'.threads, t) && OneHandle(s, s', h) && Accounted(s, s', t, h)
    ensures Refs(s') && Capacity(s')
  {
    RefsFrame(s, s', t, h);
    CapacityFrame(s, s', t);
  }

  // A step that leaves the table alone.
  ghost predicate Ordinary(s: State, s': State, t: Id, h: Id) {
    OneThread(s.threads, s'.threads, t) && OneHandle(s, s', h) && SameTable(s, s', t) && Accounted(s, s', t, h)
  }

  // A step that moves no connection either.
  ghost predicate Still(s: State, s': State, t: Id, h: Id) { Ordinary(s, s', t, h) && NothingMoves(s, s', t) }

  ghost predicate NoTransaction(s: State, s': State, t: Id) {
    s'.txDone == s.txDone && (t in s.threads ==> !s.threads[t].Pinned?) && (t in s'.threads ==> !s'.threads[t].Pinned?)
  }

  lemma NoTransactionFrame(s: State, s': State, t: Id)
    requires Transactions(s) && OneThread(s.threads, s'.threads, t) && NoTransaction(s, s', t)
    ensures Transactions(s')
  {}

  lemma MovedInv(s: State, s': State, t: Id, moved: set<Conn>)
    requires Inv(s) && Ordinary(s, s', t, 0) && NoTransaction(s, s', t) && Moved(s, s', t, moved)
    ensures Inv(s')
  {
    Aspects(s);
    ControlFrame(s, s', t);
    AccountedFrame(s, s', t, 0);
    PlacesFrame(s, s', t, moved);
    NoTransactionFrame(s, s', t);
  }

  lemma StillInv(s: State, s': State, t: Id, h: Id)
    requires Inv(s) && Still(s, s', t, h) && (NoTransaction(s, s', t) || Transactions(s'))
    ensures Inv(s')
  {
    Aspects(s);
    ControlFrame(s, s', t);
    AccountedFrame(s, s', t, h);
    StillPlaces(s, s', t);
    if NoTransaction(s, s', t) { NoTransactionFrame(s, s', t); }
  }
}
