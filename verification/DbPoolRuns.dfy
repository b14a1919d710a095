/**
Every step of the pools keeps the invariant, so every run does.
*/
module DbPoolRuns {
  import opened Wrappers
  import opened DbPool
  import opened DbPoolSafe

  // ----- What the invariant says of the thread that steps -----

  ghost predicate Ready(s: State, t: Id) {
    t in s.threads && (HasPool(s.threads[t]) ==> Knows(s, t)) && DialHeld(s, t) && Dialing(s, t)
  }

  lemma Known(s: State, t: Id)
    requires Inv(s) && t in s.threads
    ensures Ready(s, t)
  {
    assert Holds(s, Semaphores) && Holds(s, Locks);
  }

  lemma KnownHandles(s: State, h: Id)
    requires Inv(s) && h in s.handles
    ensures s.handles[h].pool in s.pools
  {
    assert Holds(s, References);
  }

  // Where the connections are that the step can move.
  ghost predicate Located(s: State, t: Id) {
    IdlesOk(s) && (t in s.threads ==> HeldOk(s, t)) && forall c :: c in s.place ==> ClosedOnce(s, c)
  }

  lemma LocatedOk(s: State, t: Id)
    requires Inv(s)
    ensures Located(s, t)
  {
    assert Holds(s, Whereabouts);
  }

  // ----- db-connect -----

  lemma NewConnectStill(s: State, t: Id, key: Key)
    requires New(s, t)
    ensures Still(s, Goto(s, t, Connect1(key)), t, 0) && NoTransaction(s, Goto(s, t, Connect1(key)), t)
  {}

  lemma NewConnectInv(s: State, t: Id, key: Key)
    requires Inv(s) && New(s, t)
    ensures Inv(Goto(s, t, Connect1(key))) && OneThread(s.threads, Goto(s, t, Connect1(key)).threads, t)
  {
    NewConnectStill(s, t, key);
    StillInv(s, Goto(s, t, Connect1(key)), t, 0);
  }

  // A handle more on pool p.
  predicate SharedTo(s: State, s': State, t: Id, h: Id, p: Id) {
    && t in s.threads && (s.threads[t].Connect1? || s.threads[t].Connect2?) && h !in s.handles
    && p in s.pools && s.pools[p].refs > 0 && !s.pools[p].closed
    && s' == s.(pools := s.pools[p := s.pools[p].(refs := s.pools[p].refs + 1)], threads := s.threads - {t},
                handles := s.handles[h := Handle(p, false)], dialMu := s'.dialMu)
  }

  lemma SharedTable(s: State, s': State, t: Id, h: Id, p: Id)
    requires SharedTo(s, s', t, h, p) && (s'.dialMu == s.dialMu || (DialHeld(s, t) && s'.dialMu == s.dialMu - {s.threads[t].key}))
    requires s.threads[t].Connect2? ==> s.threads[t].key !in s'.dialMu && DialHeld(s, t)
    requires s.threads[t].Connect1? ==> s'.dialMu == s.dialMu
    ensures SameTable(s, s', t)
  {}

  lemma SharedStill(s: State, s': State, t: Id, h: Id, p: Id)
    requires SharedTo(s, s', t, h, p) && SameTable(s, s', t)
    ensures Still(s, s', t, h)
  {
    forall q | q in s.pools ensures Balanced(s, s', t, q) && Referenced(s, s', t, h, q) {
      if q != p { assert s'.pools[q] == s.pools[q]; }
    }
  }

  lemma ShareHitStill(s: State, t: Id, h: Id)
    requires CanShare(s, t, h) && OpenIn(s, s.threads[t].key) && DialHeld(s, t)
    requires s.pools[s.table[s.threads[t].key]].refs > 0
    ensures Still(s, ShareStep(s, t, h), t, h) && NoTransaction(s, ShareStep(s, t, h), t)
  {
    var s', p := ShareStep(s, t, h), s.table[s.threads[t].key];
    SharedTable(s, s', t, h, p);
    SharedStill(s, s', t, h, p);
  }

  lemma ShareMissStill(s: State, t: Id, h: Id)
    requires CanShare(s, t, h) && !OpenIn(s, s.threads[t].key) && DialHeld(s, t)
    requires s.threads[t].Connect2? ==> NoneOpen(s, s.threads[t].key)
    ensures Still(s, ShareStep(s, t, h), t, h) && NoTransaction(s, ShareStep(s, t, h), t)
  {}

  lemma ShareInv(s: State, t: Id, h: Id)
    requires Inv(s) && CanShare(s, t, h)
    ensures Inv(ShareStep(s, t, h)) && OneThread(s.threads, ShareStep(s, t, h).threads, t)
  {
    Known(s, t);
    if OpenIn(s, s.threads[t].key) {
      ListedOpen(s, s.threads[t].key);
      ShareHitStill(s, t, h);
    } else {
      NotListed(s, s.threads[t].key);
      ShareMissStill(s, t, h);
    }
    StillInv(s, ShareStep(s, t, h), t, h);
  }

  lemma ListedOpen(s: State, key: Key)
    requires Inv(s) && OpenIn(s, key)
    ensures s.pools[s.table[key]].refs > 0
  {
    assert Holds(s, Locks) && Listed(s, key);
  }

  // While no pool is on its way out, a key that is not in the table has no open pool.
  lemma NotListed(s: State, key: Key)
    requires Inv(s) && s.poolsMu.None? && !OpenIn(s, key)
    ensures NoneOpen(s, key)
  {
    assert Holds(s, Locks);
    forall p | p in s.pools && s.pools[p].key == key ensures s.pools[p].closed { assert Standing(s, p); }
  }

  lemma LockDialStill(s: State, t: Id)
    requires CanLockDial(s, t)
    ensures Still(s, LockDialStep(s, t), t, 0) && NoTransaction(s, LockDialStep(s, t), t)
  {}

  lemma LockDialInv(s: State, t: Id)
    requires Inv(s) && CanLockDial(s, t)
    ensures Inv(LockDialStep(s, t)) && OneThread(s.threads, LockDialStep(s, t).threads, t)
  {
    LockDialStill(s, t);
    StillInv(s, LockDialStep(s, t), t, 0);
  }

  lemma DialFailStill(s: State, t: Id)
    requires CanDial(s, t) && Ready(s, t)
    ensures Still(s, DialFailStep(s, t), t, 0) && NoTransaction(s, DialFailStep(s, t), t)
  {}

  lemma DialFailInv(s: State, t: Id)
    requires Inv(s) && CanDial(s, t)
    ensures Inv(DialFailStep(s, t)) && OneThread(s.threads, DialFailStep(s, t).threads, t)
  {
    Known(s, t);
    DialFailStill(s, t);
    StillInv(s, DialFailStep(s, t), t, 0);
  }

  lemma OldIdle(s: State, c: Conn, p: Id)
    requires p in s.pools && IdleOk(s, p) && (c in s.place ==> s.place[c] != Idle(p))
    ensures c !in s.pools[p].idle
  {}

  lemma DialOkMoved(s: State, t: Id, c: Conn)
    requires CanDial(s, t) && NewConn(s, c) && Located(s, t)
    ensures Moved(s, DialOkStep(s, t, c), t, {c})
  {
    var s' := DialOkStep(s, t, c);
    forall p | p in s'.pools ensures IdleMoved(s, s', {c}, p) { assert IdleOk(s, p); OldIdle(s, c, p); }
  }

  lemma DialOkOrdinary(s: State, t: Id, c: Conn)
    requires CanDial(s, t) && NewConn(s, c) && Ready(s, t)
    ensures Ordinary(s, DialOkStep(s, t, c), t, 0) && NoTransaction(s, DialOkStep(s, t, c), t)
  {}

  lemma DialOkInv(s: State, t: Id, c: Conn)
    requires Inv(s) && CanDial(s, t) && NewConn(s, c)
    ensures Inv(DialOkStep(s, t, c)) && OneThread(s.threads, DialOkStep(s, t, c).threads, t)
  {
    Known(s, t);
    DialOkOrdinary(s, t, c);
    LocatedOk(s, t);
    DialOkMoved(s, t, c);
    MovedInv(s, DialOkStep(s, t, c), t, {c});
  }

  lemma PublishControl(s: State, t: Id, p: Id, h: Id, cap: nat)
    requires CanPublish(s, t, p, h, cap) && Control(s)
    ensures Control(PublishStep(s, t, p, h, cap))
  {
    var s', key := PublishStep(s, t, p, h, cap), s.threads[t].key;
    assert DialHeld(s, t) && Dialing(s, t) && NoneOpen(s, key);
    forall k | k in s'.table ensures Listed(s', k) { if k != key { assert Listed(s, k); } }
    forall q | q in s'.pools ensures Standing(s', q) { if q != p { assert Standing(s, q); } }
    forall q, r | q in s'.pools && r in s'.pools ensures Apart(s', q, r) {
      if q != p && r != p { assert Apart(s, q, r); }
    }
    forall u | u in s'.threads ensures DialHeld(s', u) && Dialing(s', u) { assert DialHeld(s, u) && Dialing(s, u); }
    forall k | k in s'.dialMu ensures DialLive(s', k) { assert DialLive(s, k); }
  }

  lemma PublishRefs(s: State, t: Id, p: Id, h: Id, cap: nat)
    requires CanPublish(s, t, p, h, cap) && Refs(s) && (forall u :: u in s.threads && HasPool(s.threads[u]) ==> s.threads[u].pool in s.pools)
    ensures Refs(PublishStep(s, t, p, h, cap))
  {
    var s' := PublishStep(s, t, p, h, cap);
    forall q | q in s'.pools ensures Counted(s', q) {
      if q == p {
        assert Droppers(s'.threads, p) == {};
        assert OpenHandles(s'.handles, p) == {h};
      } else {
        assert Counted(s, q);
        CountedKept(s, s', t, h, q);
      }
    }
  }

  lemma PublishCapacity(s: State, t: Id, p: Id, h: Id, cap: nat)
    requires CanPublish(s, t, p, h, cap) && Capacity(s)
    ensures Capacity(PublishStep(s, t, p, h, cap))
  {
    var s' := PublishStep(s, t, p, h, cap);
    forall q | q in s'.pools ensures Books(s', q) {
      if q == p {
        assert Tokens(s'.threads, p) == {};
        ActiveHoldTokens(s'.threads, p);
      } else {
        assert Books(s, q);
        BooksKept(s, s', t, q);
      }
    }
  }

  lemma PublishIdles(s: State, t: Id, p: Id, h: Id, cap: nat)
    requires CanPublish(s, t, p, h, cap) && Located(s, t)
    ensures var s' := PublishStep(s, t, p, h, cap); forall q :: q in s'.pools ==> IdleMoved(s, s', {s.threads[t].conn}, q)
  {
    var s', c := PublishStep(s, t, p, h, cap), s.threads[t].conn;
    assert HeldOk(s, t) && c in HeldBy(s.threads[t]);
    assert WithThread(s, c, t);
    forall q | q in s'.pools ensures IdleMoved(s, s', {c}, q) {
      if q != p { assert IdleOk(s, q); OldIdle(s, c, q); }
    }
  }

  lemma PublishHistory(s: State, t: Id, p: Id, h: Id, cap: nat)
    requires CanPublish(s, t, p, h, cap) && Located(s, t)
    ensures var s', c := PublishStep(s, t, p, h, cap), s.threads[t].conn;
            Settled(s, s', t, c) && forall d :: d != c ==> SameHistory(s, s', d)
  {
    var c := s.threads[t].conn;
    assert HeldOk(s, t) && c in HeldBy(s.threads[t]);
    assert WithThread(s, c, t);
  }

  lemma PublishMoved(s: State, t: Id, p: Id, h: Id, cap: nat)
    requires CanPublish(s, t, p, h, cap) && Located(s, t)
    ensures Moved(s, PublishStep(s, t, p, h, cap), t, {s.threads[t].conn})
  {
    PublishHistory(s, t, p, h, cap);
    PublishIdles(s, t, p, h, cap);
    assert HeldMoved(s, PublishStep(s, t, p, h, cap), {s.threads[t].conn}, t);
  }

  lemma PublishInv(s: State, t: Id, p: Id, h: Id, cap: nat)
    requires Inv(s) && CanPublish(s, t, p, h, cap)
    ensures Inv(PublishStep(s, t, p, h, cap)) && OneThread(s.threads, PublishStep(s, t, p, h, cap).threads, t)
  {
    var s' := PublishStep(s, t, p, h, cap);
    LocatedOk(s, t);
    PublishMoved(s, t, p, h, cap);
    Aspects(s);
    PublishControl(s, t, p, h, cap);
    PublishRefs(s, t, p, h, cap);
    PublishCapacity(s, t, p, h, cap);
    PlacesFrame(s, s', t, {s.threads[t].conn});
    NoTransactionFrame(s, s', t);
  }

  // ----- db-close -----

  lemma CloseHandleStill(s: State, t: Id, h: Id)
    requires CanCloseHandle(s, t, h) && s.handles[h].pool in s.pools
    ensures Still(s, CloseHandleStep(s, t, h), t, h) && NoTransaction(s, CloseHandleStep(s, t, h), t)
  {}

  lemma CloseHandleInv(s: State, t: Id, h: Id)
    requires Inv(s) && CanCloseHandle(s, t, h)
    ensures Inv(CloseHandleStep(s, t, h)) && OneThread(s.threads, CloseHandleStep(s, t, h).threads, t)
  {
    KnownHandles(s, h);
    CloseHandleStill(s, t, h);
    StillInv(s, CloseHandleStep(s, t, h), t, h);
  }

  lemma DropSomeStill(s: State, t: Id)
    requires CanDrop(s, t) && s.pools[s.threads[t].pool].refs > 1 && !s.pools[s.threads[t].pool].closed
    ensures Still(s, DropStep(s, t), t, 0) && NoTransaction(s, DropStep(s, t), t)
  {}

  // A pool with a handle being closed is open, and still counts it.
  lemma DropFacts(s: State, t: Id)
    requires Inv(s) && CanDrop(s, t)
    ensures s.pools[s.threads[t].pool].refs >= 1 && !s.pools[s.threads[t].pool].closed
  {
    var p := s.threads[t].pool;
    assert Holds(s, References) && Holds(s, Locks);
    assert t in Droppers(s.threads, p) && Counted(s, p) && Standing(s, p);
  }

  lemma DropInv(s: State, t: Id)
    requires Inv(s) && CanDrop(s, t)
    ensures Inv(DropStep(s, t)) && OneThread(s.threads, DropStep(s, t).threads, t)
  {
    DropFacts(s, t);
    if s.pools[s.threads[t].pool].refs > 1 {
      DropSomeStill(s, t);
      StillInv(s, DropStep(s, t), t, 0);
    } else {
      LastDropInv(s, t, s.threads[t].pool);
    }
  }

  lemma LastDropControl(s: State, t: Id)
    requires CanDrop(s, t) && s.pools[s.threads[t].pool].refs == 1 && !s.pools[s.threads[t].pool].closed && Control(s)
    ensures Control(DropStep(s, t))
  {
    var s', p := DropStep(s, t), s.threads[t].pool;
    forall k | k in s'.table ensures Listed(s', k) { assert Listed(s, k); }
    forall q | q in s'.pools ensures Standing(s', q) { assert Standing(s, q); }
    forall q, r | q in s'.pools && r in s'.pools ensures Apart(s', q, r) { assert Apart(s, q, r); }
    forall u | u in s'.threads ensures DialHeld(s', u) && Dialing(s', u) { assert DialHeld(s, u) && Dialing(s, u); }
    forall k | k in s'.dialMu ensures DialLive(s', k) { assert DialLive(s, k); }
  }

  lemma LastDropAccounted(s: State, s': State, t: Id, p: Id)
    requires t in s.threads && s.threads[t] == CloseDrop(p) && p in s.pools
    requires s' == s.(pools := s.pools[p := s.pools[p].(refs := s.pools[p].refs - 1)], threads := s.threads[t := CloseSeal(p)],
                      table := s'.table, poolsMu := s'.poolsMu)
    ensures OneThread(s.threads, s'.threads, t) && Accounted(s, s', t, 0) && NothingMoves(s, s', t)
  {}

  lemma LastDropInv(s: State, t: Id, p: Id)
    requires Inv(s) && CanDrop(s, t) && p == s.threads[t].pool && s.pools[p].refs == 1 && !s.pools[p].closed
    ensures Inv(DropStep(s, t)) && OneThread(s.threads, DropStep(s, t).threads, t)
  {
    Aspects(s);
    var s' := DropStep(s, t);
    LastDropControl(s, t);
    LastDropAccounted(s, s', t, p);
    AccountedFrame(s, s', t, 0);
    StillPlaces(s, s', t);
    NoTransactionFrame(s, s', t);
  }

  lemma SealControl(s: State, t: Id)
    requires CanSeal(s, t) && Control(s)
    ensures Control(SealStep(s, t))
  {
    var s', p := SealStep(s, t), s.threads[t].pool;
    assert SealFacts(s, t, p);
    forall k | k in s'.table ensures Listed(s', k) { assert Listed(s, k); }
    forall q | q in s'.pools ensures Standing(s', q) { assert Standing(s, q); }
    forall q, r | q in s'.pools && r in s'.pools ensures Apart(s', q, r) { assert Apart(s, q, r); }
    forall u | u in s'.threads ensures DialHeld(s', u) && Dialing(s', u) && !s'.threads[u].CloseSeal? {
      if u != t {
        assert DialHeld(s, u) && Dialing(s, u);
        assert !SealFacts(s, u, p);
      }
    }
    forall k | k in s'.dialMu ensures DialLive(s', k) { assert DialLive(s, k); }
  }

  lemma SealAccounted(s: State, t: Id)
    requires CanSeal(s, t)
    ensures Accounted(s, SealStep(s, t), t, 0) && OneThread(s.threads, SealStep(s, t).threads, t)
  {}

  lemma SealIdles(s: State, t: Id)
    requires CanSeal(s, t) && IdlesOk(s)
    ensures var s', idle := SealStep(s, t), s.pools[s.threads[t].pool].idle;
            var moved := set c | c in idle;
            && (forall p :: p in s'.pools ==> IdleMoved(s, s', moved, p))
            && (forall c :: c in moved ==> InPool(s, c, s.threads[t].pool))
  {
    var s', q := SealStep(s, t), s.threads[t].pool;
    var moved := set c | c in s.pools[q].idle;
    assert IdleOk(s, q);
    forall p | p in s'.pools ensures IdleMoved(s, s', moved, p) {
      assert IdleOk(s, p);
      if p != q {
        forall c | c in s.pools[p].idle ensures c !in moved { assert InPool(s, c, p); }
      }
    }
  }

  lemma SealMoved(s: State, t: Id)
    requires CanSeal(s, t) && IdlesOk(s) && (t in s.threads ==> HeldOk(s, t))
    requires forall c :: c in s.place ==> ClosedOnce(s, c)
    ensures Moved(s, SealStep(s, t), t, set c | c in s.pools[s.threads[t].pool].idle)
  {
    var s', q := SealStep(s, t), s.threads[t].pool;
    assert IdleOk(s, q) && HeldOk(s, t);
    SealIdles(s, t);
    forall c | c in s.pools[q].idle ensures Settled(s, s', t, c) { assert InPool(s, c, q); }
  }

  lemma SealInv(s: State, t: Id)
    requires Inv(s) && CanSeal(s, t)
    ensures Inv(SealStep(s, t)) && OneThread(s.threads, SealStep(s, t).threads, t)
  {
    var s' := SealStep(s, t);
    LocatedOk(s, t);
    SealMoved(s, t);
    SealAccounted(s, t);
    Aspects(s);
    SealControl(s, t);
    AccountedFrame(s, s', t, 0);
    PlacesFrame(s, s', t, set c | c in s.pools[s.threads[t].pool].idle);
    NoTransactionFrame(s, s', t);
  }

  lemma CloseOneIdles(s: State, t: Id)
    requires CanCloseOne(s, t) && Located(s, t) && s.threads[t].conns != []
    ensures var s' := CloseOneStep(s, t); forall p :: p in s'.pools ==> IdleMoved(s, s', {s.threads[t].conns[0]}, p)
  {
    var s', c := CloseOneStep(s, t), s.threads[t].conns[0];
    assert HeldOk(s, t) && c in HeldBy(s.threads[t]);
    assert WithThread(s, c, t);
    forall p | p in s'.pools ensures IdleMoved(s, s', {c}, p) { assert IdleOk(s, p); OldIdle(s, c, p); }
  }

  lemma CloseOneMoved(s: State, t: Id)
    requires CanCloseOne(s, t) && Located(s, t) && s.threads[t].conns != []
    ensures Moved(s, CloseOneStep(s, t), t, {s.threads[t].conns[0]})
  {
    var c := s.threads[t].conns[0];
    assert HeldOk(s, t) && c in HeldBy(s.threads[t]) && WithThread(s, c, t);
    CloseOneIdles(s, t);
  }

  lemma CloseNextInv(s: State, t: Id)
    requires Inv(s) && CanCloseOne(s, t) && s.threads[t].conns != []
    ensures Inv(CloseOneStep(s, t)) && OneThread(s.threads, CloseOneStep(s, t).threads, t)
  {
    Known(s, t);
    assert Ordinary(s, CloseOneStep(s, t), t, 0);
    LocatedOk(s, t);
    CloseOneMoved(s, t);
    MovedInv(s, CloseOneStep(s, t), t, {s.threads[t].conns[0]});
  }

  lemma CloseOneInv(s: State, t: Id)
    requires Inv(s) && CanCloseOne(s, t)
    ensures Inv(CloseOneStep(s, t)) && OneThread(s.threads, CloseOneStep(s, t).threads, t)
  {
    if s.threads[t].conns == [] { StillInv(s, CloseOneStep(s, t), t, 0); } else { CloseNextInv(s, t); }
  }

  // ----- acquire -----

  lemma StartInv(s: State, t: Id, h: Id)
    requires Inv(s) && CanStart(s, t, h)
    ensures Inv(StartStep(s, t, h)) && OneThread(s.threads, StartStep(s, t, h).threads, t)
  {
    KnownHandles(s, h);
    StillInv(s, StartStep(s, t, h), t, 0);
  }

  // Only the count of the semaphore changes.
  predicate OnlyTaken(s: State, s': State, p: Id) {
    p in s.pools && p in s'.pools && s' == s.(pools := s.pools[p := s.pools[p].(taken := s'.pools[p].taken)], threads := s'.threads)
  }

  predicate Plain(s: State, t: Id) {
    t in s.threads ==>
      && DialOf(s.threads[t]).None? && !s.threads[t].CloseSeal? && !s.threads[t].CloseDrop?
      && HeldBy(s.threads[t]) == [] && ActiveOf(s.threads[t]).None?
  }

  lemma TakenTable(s: State, s': State, t: Id, p: Id)
    requires OnlyTaken(s, s', p) && OneThread(s.threads, s'.threads, t) && Plain(s, t) && Plain(s', t)
    ensures SameTable(s, s', t) && NothingMoves(s, s', t)
  {}

  lemma TakenStill(s: State, s': State, t: Id, p: Id)
    requires OnlyTaken(s, s', p) && OneThread(s.threads, s'.threads, t) && Plain(s, t) && Plain(s', t)
    requires s'.pools[p].taken == s.pools[p].taken - One(TokenAt(s, t), p) + One(TokenAt(s', t), p)
    requires s'.pools[p].taken <= s.pools[p].taken || s'.pools[p].taken <= s.pools[p].cap
    requires forall q :: q != p ==> One(TokenAt(s, t), q) == One(TokenAt(s', t), q)
    requires t in s'.threads && HasPool(s'.threads[t]) ==> s'.threads[t].pool in s.pools
    ensures Still(s, s', t, 0)
  {
    TakenTable(s, s', t, p);
    forall q | q in s.pools ensures Balanced(s, s', t, q) && Referenced(s, s', t, 0, q) {
      if q != p { assert s'.pools[q] == s.pools[q]; }
    }
  }

  lemma TakeTokenInv(s: State, t: Id)
    requires Inv(s) && CanTakeToken(s, t)
    ensures Inv(TakeTokenStep(s, t)) && OneThread(s.threads, TakeTokenStep(s, t).threads, t)
  {
    TakenStill(s, TakeTokenStep(s, t), t, s.threads[t].pool);
    StillInv(s, TakeTokenStep(s, t), t, 0);
  }

  lemma LookAsideStill(s: State, t: Id, pc: Pc)
    requires CanLook(s, t)
    requires pc == AcqRefund(s.threads[t].pool) || (pc == AcqDial(s.threads[t].pool) && s.pools[s.threads[t].pool].idle == [])
    ensures Still(s, Goto(s, t, pc), t, 0) && NoTransaction(s, Goto(s, t, pc), t)
  {}

  lemma LookStill(s: State, t: Id)
    requires CanLook(s, t) && (s.pools[s.threads[t].pool].closed || s.pools[s.threads[t].pool].idle == [])
    ensures Still(s, LookStep(s, t), t, 0) && NoTransaction(s, LookStep(s, t), t)
  {
    var p := s.threads[t].pool;
    LookAsideStill(s, t, if s.pools[p].closed then AcqRefund(p) else AcqDial(p));
  }

  lemma PopIdleIdles(s: State, t: Id)
    requires CanLook(s, t) && s.pools[s.threads[t].pool].idle != [] && Located(s, t)
    ensures var s', idle := PopIdle(s, t), s.pools[s.threads[t].pool].idle;
            forall p :: p in s'.pools ==> IdleMoved(s, s', {idle[|idle| - 1]}, p)
  {
    var s', q := PopIdle(s, t), s.threads[t].pool;
    var c := s.pools[q].idle[|s.pools[q].idle| - 1];
    assert IdleOk(s, q) && InPool(s, c, q);
    forall p | p in s'.pools ensures IdleMoved(s, s', {c}, p) {
      assert IdleOk(s, p);
      if p != q { OldIdle(s, c, p); }
    }
  }

  lemma PopIdleMoved(s: State, t: Id)
    requires CanLook(s, t) && s.pools[s.threads[t].pool].idle != [] && Located(s, t)
    ensures Moved(s, PopIdle(s, t), t, {s.pools[s.threads[t].pool].idle[|s.pools[s.threads[t].pool].idle| - 1]})
  {
    var q := s.threads[t].pool;
    assert IdleOk(s, q) && InPool(s, s.pools[q].idle[|s.pools[q].idle| - 1], q);
    PopIdleIdles(s, t);
  }

  lemma PopIdleInv(s: State, t: Id)
    requires Inv(s) && CanLook(s, t) && s.pools[s.threads[t].pool].idle != []
    ensures Inv(PopIdle(s, t)) && OneThread(s.threads, PopIdle(s, t).threads, t)
  {
    var idle := s.pools[s.threads[t].pool].idle;
    assert Ordinary(s, PopIdle(s, t), t, 0);
    LocatedOk(s, t);
    PopIdleMoved(s, t);
    MovedInv(s, PopIdle(s, t), t, {idle[|idle| - 1]});
  }

  lemma LookInv(s: State, t: Id)
    requires Inv(s) && CanLook(s, t)
    ensures Inv(LookStep(s, t)) && OneThread(s.threads, LookStep(s, t).threads, t)
  {
    var pool := s.pools[s.threads[t].pool];
    if pool.closed || pool.idle == [] {
      LookStill(s, t);
      StillInv(s, LookStep(s, t), t, 0);
    } else {
      PopIdleInv(s, t);
    }
  }

  lemma OpenOkMoved(s: State, t: Id, c: Conn)
    requires CanOpen(s, t) && NewConn(s, c) && IdlesOk(s) && (t in s.threads ==> HeldOk(s, t))
    ensures Moved(s, OpenOkStep(s, t, c), t, {c})
  {
    var s' := OpenOkStep(s, t, c);
    forall p | p in s'.pools ensures IdleMoved(s, s', {c}, p) { assert IdleOk(s, p); OldIdle(s, c, p); }
  }

  lemma OpenOkOrdinary(s: State, t: Id, c: Conn)
    requires CanOpen(s, t) && NewConn(s, c) && Ready(s, t)
    ensures Ordinary(s, OpenOkStep(s, t, c), t, 0) && NoTransaction(s, OpenOkStep(s, t, c), t)
  {}

  lemma OpenOkInv(s: State, t: Id, c: Conn)
    requires Inv(s) && CanOpen(s, t) && NewConn(s, c)
    ensures Inv(OpenOkStep(s, t, c)) && OneThread(s.threads, OpenOkStep(s, t, c).threads, t)
  {
    Known(s, t);
    OpenOkOrdinary(s, t, c);
    LocatedOk(s, t);
    OpenOkMoved(s, t, c);
    MovedInv(s, OpenOkStep(s, t, c), t, {c});
  }

  lemma OpenFailStill(s: State, t: Id)
    requires CanOpen(s, t) && Ready(s, t)
    ensures Still(s, OpenFailStep(s, t), t, 0) && NoTransaction(s, OpenFailStep(s, t), t)
  {}

  lemma OpenFailInv(s: State, t: Id)
    requires Inv(s) && CanOpen(s, t)
    ensures Inv(OpenFailStep(s, t)) && OneThread(s.threads, OpenFailStep(s, t).threads, t)
  {
    Known(s, t);
    OpenFailStill(s, t);
    StillInv(s, OpenFailStep(s, t), t, 0);
  }

  // ----- Using a connection and giving it back -----

  lemma BeginTxTransactions(s: State, t: Id)
    requires CanUse(s, t) && Transactions(s)
    ensures Transactions(BeginTxStep(s, t))
  {}

  lemma BeginTxStill(s: State, t: Id)
    requires CanUse(s, t) && Ready(s, t)
    ensures Still(s, BeginTxStep(s, t), t, 0)
  {}

  lemma BeginTxInv(s: State, t: Id)
    requires Inv(s) && CanUse(s, t)
    ensures Inv(BeginTxStep(s, t)) && OneThread(s.threads, BeginTxStep(s, t).threads, t)
  {
    Known(s, t);
    Aspects(s);
    BeginTxTransactions(s, t);
    BeginTxStill(s, t);
    StillInv(s, BeginTxStep(s, t), t, 0);
  }

  lemma EndUseStill(s: State, t: Id, broken: bool)
    requires CanUse(s, t) && Ready(s, t)
    ensures Still(s, EndUseStep(s, t, broken), t, 0) && NoTransaction(s, EndUseStep(s, t, broken), t)
  {}

  lemma EndUseInv(s: State, t: Id, broken: bool)
    requires Inv(s) && CanUse(s, t)
    ensures Inv(EndUseStep(s, t, broken)) && OneThread(s.threads, EndUseStep(s, t, broken).threads, t)
  {
    Known(s, t);
    EndUseStill(s, t, broken);
    StillInv(s, EndUseStep(s, t, broken), t, 0);
  }

  lemma FinishTxTransactions(s: State, t: Id, broken: bool)
    requires CanFinish(s, t) && Transactions(s)
    ensures Transactions(FinishTxStep(s, t, broken))
  {}

  lemma FinishTxStill(s: State, t: Id, broken: bool)
    requires CanFinish(s, t) && !s.txDone[t] && Ready(s, t)
    ensures Still(s, FinishTxStep(s, t, broken), t, 0)
  {}

  lemma FinishTxInv(s: State, t: Id, broken: bool)
    requires Inv(s) && CanFinish(s, t)
    ensures Inv(FinishTxStep(s, t, broken)) && OneThread(s.threads, FinishTxStep(s, t, broken).threads, t)
  {
    if !s.txDone[t] {
      Known(s, t);
      Aspects(s);
      FinishTxTransactions(s, t, broken);
      FinishTxStill(s, t, broken);
      StillInv(s, FinishTxStep(s, t, broken), t, 0);
    }
  }

  lemma PutRefusedStill(s: State, t: Id)
    requires CanPut(s, t)
    requires s.threads[t].broken || s.pools[s.threads[t].pool].closed || |s.pools[s.threads[t].pool].idle| >= MAX_IDLE
    ensures Still(s, PutStep(s, t), t, 0) && NoTransaction(s, PutStep(s, t), t)
  {}

  lemma PutIdleIdles(s: State, t: Id)
    requires CanPut(s, t) && Located(s, t)
    ensures var s' := PutIdle(s, t); forall p :: p in s'.pools ==> IdleMoved(s, s', {s.threads[t].conn}, p)
  {
    var s', c := PutIdle(s, t), s.threads[t].conn;
    assert HeldOk(s, t) && c in HeldBy(s.threads[t]);
    assert WithThread(s, c, t);
    forall p | p in s'.pools ensures IdleMoved(s, s', {c}, p) { assert IdleOk(s, p); OldIdle(s, c, p); }
  }

  lemma PutIdleMoved(s: State, t: Id)
    requires CanPut(s, t) && Located(s, t)
    ensures Moved(s, PutIdle(s, t), t, {s.threads[t].conn})
  {
    assert HeldOk(s, t) && s.threads[t].conn in HeldBy(s.threads[t]) && WithThread(s, s.threads[t].conn, t);
    PutIdleIdles(s, t);
  }

  lemma PutIdleInv(s: State, t: Id)
    requires Inv(s) && CanPut(s, t) && !s.pools[s.threads[t].pool].closed && |s.pools[s.threads[t].pool].idle| < MAX_IDLE
    ensures Inv(PutIdle(s, t)) && OneThread(s.threads, PutIdle(s, t).threads, t)
  {
    assert Ordinary(s, PutIdle(s, t), t, 0);
    LocatedOk(s, t);
    PutIdleMoved(s, t);
    MovedInv(s, PutIdle(s, t), t, {s.threads[t].conn});
  }

  lemma PutInv(s: State, t: Id)
    requires Inv(s) && CanPut(s, t)
    ensures Inv(PutStep(s, t)) && OneThread(s.threads, PutStep(s, t).threads, t)
  {
    var pool := s.pools[s.threads[t].pool];
    if s.threads[t].broken || pool.closed || |pool.idle| >= MAX_IDLE {
      PutRefusedStill(s, t);
      StillInv(s, PutStep(s, t), t, 0);
    } else {
      PutIdleInv(s, t);
    }
  }

  lemma CloseConnMoved(s: State, t: Id)
    requires CanCloseConn(s, t) && Located(s, t)
    ensures Moved(s, CloseConnStep(s, t), t, {s.threads[t].conn})
  {
    var s', c := CloseConnStep(s, t), s.threads[t].conn;
    assert HeldOk(s, t) && c in HeldBy(s.threads[t]);
    assert WithThread(s, c, t);
    forall p | p in s'.pools ensures IdleMoved(s, s', {c}, p) { assert IdleOk(s, p); OldIdle(s, c, p); }
  }

  lemma CloseConnInv(s: State, t: Id)
    requires Inv(s) && CanCloseConn(s, t)
    ensures Inv(CloseConnStep(s, t)) && OneThread(s.threads, CloseConnStep(s, t).threads, t)
  {
    Known(s, t);
    assert Ordinary(s, CloseConnStep(s, t), t, 0);
    LocatedOk(s, t);
    CloseConnMoved(s, t);
    MovedInv(s, CloseConnStep(s, t), t, {s.threads[t].conn});
  }

  lemma ReturnTokenInv(s: State, t: Id)
    requires Inv(s) && CanReturn(s, t)
    ensures Inv(ReturnTokenStep(s, t)) && OneThread(s.threads, ReturnTokenStep(s, t).threads, t)
  {
    TakenStill(s, ReturnTokenStep(s, t), t, s.threads[t].pool);
    StillInv(s, ReturnTokenStep(s, t), t, 0);
  }

  // ----- Every step and every run -----

  lemma StepInv(s: State, l: Label)
    requires Inv(s) && Next(s, l).Some?
    ensures Inv(Next(s, l).value) && OneThread(s.threads, Next(s, l).value.threads, l.t)
  {
    match l
    case NewConnect(t, key) => NewConnectInv(s, t, key);
    case Share(t, h) => ShareInv(s, t, h);
    case LockDial(t) => LockDialInv(s, t);
    case DialOk(t, c) => DialOkInv(s, t, c);
    case DialFail(t) => DialFailInv(s, t);
    case PublishPool(t, p, h, cap) => PublishInv(s, t, p, h, cap);
    case CloseHandle(t, h) => CloseHandleInv(s, t, h);
    case Drop(t) => DropInv(s, t);
    case Seal(t) => SealInv(s, t);
    case CloseOne(t) => CloseOneInv(s, t);
    case StartAcquire(t, h) => StartInv(s, t, h);
    case TakeToken(t) => TakeTokenInv(s, t);
    case Look(t) => LookInv(s, t);
    case OpenOk(t, c) => OpenOkInv(s, t, c);
    case OpenFail(t) => OpenFailInv(s, t);
    case BeginTx(t) => BeginTxInv(s, t);
    case EndUse(t, broken) => EndUseInv(s, t, broken);
    case FinishTx(t, broken) => FinishTxInv(s, t, broken);
    case Put(t) => PutInv(s, t);
    case CloseConn(t) => CloseConnInv(s, t);
    case ReturnToken(t) => ReturnTokenInv(s, t);
  }

  lemma {:induction false} RunInv(run: seq<Label>)
    requires After(run).Some?
    ensures Inv(After(run).value)
    decreases |run|
  {
    if run == [] {
      InitInv();
    } else {
      var before := run[..|run| - 1];
      RunInv(before);
      StepInv(After(before).value, run[|run| - 1]);
    }
  }
}
