/**
 Runs that break the ordered promises. The connect handler of a registered
 connection runs after the socket's pumps have started, so CreateClient can land
 inside the disconnect of that connection, or of a later one. The two-second
 wait of a disconnect can end while the pump is still writing for that client.
 And runs up to what Stop leaves behind: a buffered ready token, a send in flight.
 */
module ServerScenes {
  import opened Basics
  import Fifo
  import opened QueueStore
  import opened ServerStack
  import opened ServerTrace
  import opened ServerReach

  const CALL_A := Req(0, 1)
  const CALL_B := Req(0, 2)

  /** The first connection of client 0 is torn down before its connect handler has run. */
  lemma EarlyDisconnect() returns (s: State)
    ensures Reachable(s) && s == Init(0).(discs := map[0 := DClear], owed := multiset{0})
  {
    Starts(0);
    var s0 := Init(0).(owed := multiset{0});
    var s1 := s0.(connected := {0});
    ReachesByPeer(Init(0), Connect(0), s1);
    var s2 := s0.(discs := map[0 := DRemove]);
    assert s1.connected - {0} == {} && (set r | r in s1.sent && r.client != 0) == {};
    ReachesByPeer(s1, Disconnect(0), s2);
    var s3 := s0.(discs := map[0 := DLock]);
    ReachesByPeer(s2, DiscStep(0), s3);
    s := EarlyAck(s3);
  }

  lemma ReachesByPeer(s: State, p: Peer, s': State)
    requires Reachable(s) && PeerMove(s, p, s')
    ensures Reachable(s')
  {
    Then(s, World(PeerStep(p)), s');
  }

  lemma EarlyAck(s3: State) returns (s: State)
    requires Reachable(s3) && s3 == Init(0).(discs := map[0 := DLock], owed := multiset{0})
    ensures Reachable(s) && s == s3.(discs := map[0 := DClear])
  {
    var s4 := s3.(discs := map[0 := DSend]);
    ReachesByPeer(s3, DiscStep(0), s4);
    var s5 := s3.(discs := map[0 := DWait(0)], reqC := [ReqTok(0, true)]);
    ReachesByPeer(s4, DiscStep(0), s5);
    var s6 := s5.(reqC := [], pump := ReqGet(0, true));
    Arms(s5, OnReq, s6);
    s := s6.(pump := Select, discs := map[0 := DClear]);
    assert Forget(s6.loop, 0) == s6.loop;
    Routes(s5, s6, s);
    ReachableThrough(s5, s);
  }

  // ---- the same CALL written twice ----

  /** The late CreateClient lands before the slot is cleared; the CALL written
      next is outstanding with nothing pending. */
  lemma LateCreate() returns (s: State)
    ensures Reachable(s) && s.running && s.pump.Select? && s.stop.NotCalled? && s.senders == map[] && s.reqC == []
    ensures s.store == Wrote(Push(GetOrCreate(Init(0).store, 0, 7), 7, CALL_A), 7, CALL_A)
    ensures s.pending == map[] && s.facade.mutexBy.None? && s.connected == {0} && s.loop.ctxMap == map[] && s.expired == {}
  {
    var s0 := EarlyDisconnect();
    var s1 := s0.(store := GetOrCreate(s0.store, 0, 7), owed := multiset{});
    assert !Ordered(s0, PeerStep(CreateClient(0, 7)));
    ReachesByPeer(s0, CreateClient(0, 7), s1);
    var s2 := SendsFresh(s1, 7, CALL_A);
    var s3 := DispatchesFront(s2, 0, 7, CALL_A);
    LeadsTrans(s1, s2, s3);
    var s4 := ClearsAndReconnects(s3, 0);
    LeadsTrans(s1, s3, s4);
    assert s3.pending - {0} == map[];
    s := WritesFront(s4, 0, 7, CALL_A);
    LeadsTrans(s1, s4, s);
    ReachableThrough(s1, s);
    assert s4.loop.ctxMap - {0} == map[];
  }

  /** Without the ordering a CALL can be written twice. */
  lemma CallCanBeWrittenTwice() returns (s: State)
    ensures Reachable(s) && 7 in s.store.queues && s.store.queues[7].log.wire == [0, 0]
  {
    var s0 := LateCreate();
    TwiceOnTheWire();
    var s1 := SendsFresh(s0, 7, CALL_B);
    var s2 := DispatchesFront(s1, 0, 7, CALL_A);
    LeadsTrans(s0, s1, s2);
    s := WritesFront(s2, 0, 7, CALL_A);
    LeadsTrans(s0, s2, s);
    ReachableThrough(s0, s);
  }

  lemma TwiceOnTheWire()
    ensures var st := Push(Wrote(Push(GetOrCreate(Init(0).store, 0, 7), 7, CALL_A), 7, CALL_A), 7, CALL_B);
            && Lookup(st.live, 0) == Some(7) && Front(st, 7) == Some(CALL_A)
            && 7 in Wrote(st, 7, CALL_A).queues && Wrote(st, 7, CALL_A).queues[7].log.wire == [0, 0]
  {
  }

  // ---- two CALLs outstanding on one connection ----

  /** Two connections so far; the connect handler of one of them has not run. */
  lemma HandlerOwed() returns (s: State)
    ensures Reachable(s) && s == Init(0).(connected := {0}, owed := multiset{0}, store := GetOrCreate(Init(0).store, 0, 7))
  {
    var s0 := EarlyDisconnect();
    var s1 := ClearsAndReconnects(s0, 0);
    ReachableThrough(s0, s1);
    assert s0.discs - {0} == map[] && s0.pending - {0} == map[] && DrainCallbacks(s0.facade, 0) == s0.facade;
    s := s1.(store := GetOrCreate(s1.store, 0, 7), owed := multiset{0});
    ReachesByPeer(s1, CreateClient(0, 7), s);
  }

  /** The pump is about to write A when the second connection is torn down. */
  lemma DisconnectMidWrite() returns (s: State)
    ensures Reachable(s)
    ensures s == Init(0).(store := Push(GetOrCreate(Init(0).store, 0, 7), 7, CALL_A), discs := map[0 := DRemove], owed := multiset{0},
                          accepted := {CALL_A}, pending := map[0 := CALL_A], pump := DispWrite(0, 7, CALL_A),
                          loop := Loop(map[], map[], true, Some(7)))
  {
    var s0 := HandlerOwed();
    var s1 := SendsFresh(s0, 7, CALL_A);
    var s2 := DispatchesFront(s1, 0, 7, CALL_A);
    LeadsTrans(s0, s1, s2);
    ReachableThrough(s0, s2);
    s := s2.(connected := {}, discs := map[0 := DRemove]);
    assert s2.connected - {0} == {} && (set r | r in s2.sent && r.client != 0) == {};
    ReachesByPeer(s2, Disconnect(0), s);
  }

  /** ... and its queue is taken out of the map. */
  lemma RemovedMidWrite() returns (s: State)
    ensures Reachable(s)
    ensures s == Init(0).(store := Remove(Push(GetOrCreate(Init(0).store, 0, 7), 7, CALL_A), 0), discs := map[0 := DLock],
                          owed := multiset{0}, accepted := {CALL_A}, pending := map[0 := CALL_A], pump := DispWrite(0, 7, CALL_A),
                          loop := Loop(map[], map[], true, Some(7)))
  {
    var s0 := DisconnectMidWrite();
    s := s0.(store := Remove(s0.store, 0), discs := map[0 := DLock]);
    ReachesByPeer(s0, DiscStep(0), s);
  }

  /** The handler still owed to the first connection creates a queue inside the
      second disconnect, and B is sent to it. */
  lemma SentMidDisconnect() returns (s: State)
    ensures Reachable(s) && s.pump == DispWrite(0, 7, CALL_A) && s.reqC == [ReqTok(0, false)] && s.connected == {}
    ensures s.stop.NotCalled? && s.running && s.senders == map[] && s.discs == map[0 := DLock] && s.facade.mutexBy.None?
    ensures s.pending == map[0 := CALL_A] && s.loop.ctxMap == map[] && s.expired == {} && s.ledger.claim == map[]
    ensures Lookup(s.store.live, 0) == Some(8) && Front(s.store, 8) == Some(CALL_B)
  {
    var s1 := RemovedMidWrite();
    var s2 := s1.(store := GetOrCreate(s1.store, 0, 8), owed := multiset{});
    assert !Ordered(s1, PeerStep(CreateClient(0, 8)));
    ReachesByPeer(s1, CreateClient(0, 8), s2);
    s := SendsFresh(s2, 8, CALL_B);
    ReachableThrough(s2, s);
  }

  /** Then Stop is called, so the disconnect goes on without an acknowledgement. */
  lemma StopMidDisconnect() returns (s: State)
    ensures Reachable(s) && s.pump == DispWrite(0, 7, CALL_A) && s.reqC == [ReqTok(0, false)] && s.connected == {0}
    ensures s.pending == map[] && s.loop.ctxMap == map[] && s.expired == {} && s.ledger.claim == map[]
    ensures Lookup(s.store.live, 0) == Some(8) && Front(s.store, 8) == Some(CALL_B)
  {
    var s0 := SentMidDisconnect();
    s := StopAndReconnect(s0);
    assert s0.pending - {0} == map[];
  }

  lemma StopAndReconnect(s: State) returns (s': State)
    requires Reachable(s) && s.stop.NotCalled? && s.running && s.senders == map[] && s.discs == map[0 := DLock]
    requires s.connected == {} && s.facade.mutexBy.None?
    ensures Reachable(s') && s'.pump == s.pump && s'.reqC == s.reqC && s'.connected == {0} && s'.pending == s.pending - {0}
    ensures s'.loop == s.loop && s'.expired == s.expired && s'.ledger == s.ledger && s'.store == s.store
  {
    var s1 := s.(stop := Locking);
    Then(s, World(StopStep), s1);
    var s2 := s.(stop := Joining, running := false);
    Then(s1, World(StopStep), s2);
    var s3 := s2.(discs := map[0 := DClear]);
    ReachesByPeer(s2, DiscStep(0), s3);
    s' := ClearsAndReconnects(s3, 0);
    ReachableThrough(s3, s');
  }

  /** A is written over the new connection, then B. */
  lemma BothWritten(s: State, q: QRef) returns (s': State)
    requires Reachable(s) && s.pump == DispWrite(0, 7, CALL_A) && s.reqC == [ReqTok(0, false)] && s.connected == {0}
    requires s.pending == map[] && s.loop.ctxMap == map[] && s.expired == {} && s.ledger.claim == map[] && q != 7
    requires Lookup(s.store.live, 0) == Some(q) && Front(s.store, q) == Some(CALL_B)
    ensures Reachable(s') && {CALL_A, CALL_B} <= s'.sent && s'.ledger.claim == map[]
  {
    var s1 := WritesFront(s, 0, 7, CALL_A);
    assert s.loop.ctxMap - {0} == map[];
    var s2 := DispatchesFront(s1, 0, q, CALL_B);
    LeadsTrans(s, s1, s2);
    s' := WritesFront(s2, 0, q, CALL_B);
    LeadsTrans(s, s2, s');
    ReachableThrough(s, s');
  }

  /** Without the ordering of CreateClient two CALLs can be outstanding at once. */
  lemma TwoCanBeOutstanding() returns (s: State)
    ensures Reachable(s) && {CALL_A, CALL_B} <= s.sent && CALL_A !in s.ledger.claim && CALL_B !in s.ledger.claim
    ensures !OneOutstanding(s.sent, s.ledger.claim)
  {
    var s0 := StopMidDisconnect();
    s := BothWritten(s0, 8);
    assert CALL_A in s.sent && CALL_B in s.sent;
  }

  // ---- a delete wait that times out while the pump writes for that client ----

  /** The disconnect waits for the pump, which is about to write A. */
  lemma WaitsMidWrite() returns (s: State)
    ensures Reachable(s) && s.discs == map[0 := DWait(0)] && s.reqC == [ReqTok(0, true)]
    ensures s.store == Remove(Push(GetOrCreate(Init(0).store, 0, 7), 7, CALL_A), 0)
    ensures s == Init(0).(store := s.store, discs := s.discs, reqC := s.reqC, owed := multiset{0}, accepted := {CALL_A},
                          pending := map[0 := CALL_A], pump := DispWrite(0, 7, CALL_A), loop := Loop(map[], map[], true, Some(7)))
  {
    var s1 := RemovedMidWrite();
    var s2 := s1.(discs := map[0 := DSend]);
    ReachesByPeer(s1, DiscStep(0), s2);
    s := s1.(discs := map[0 := DWait(0)], reqC := [ReqTok(0, true)]);
    ReachesByPeer(s2, DiscStep(0), s);
  }

  /** The wait times out. */
  lemma TimesOutMidWrite() returns (s: State)
    ensures Reachable(s) && s.discs == map[0 := DClear] && s.reqC == [ReqTok(0, true)]
    ensures s.store == Remove(Push(GetOrCreate(Init(0).store, 0, 7), 7, CALL_A), 0)
    ensures s == Init(0).(store := s.store, discs := s.discs, reqC := s.reqC, owed := multiset{0}, accepted := {CALL_A},
                          pending := map[0 := CALL_A], pump := DispWrite(0, 7, CALL_A), loop := Loop(map[], map[], true, Some(7)))
  {
    var s0 := WaitsMidWrite();
    assert !Ordered(s0, PeerStep(DiscStep(0)));
    s := s0.(discs := map[0 := DClear]);
    ReachesByPeer(s0, DiscStep(0), s);
  }

  /** The client reconnects while the pump is still about to write. */
  lemma ReconnectsMidWrite() returns (s: State)
    ensures Reachable(s) && s.running && s.stop.NotCalled? && s.senders == map[] && s.facade.mutexBy.None?
    ensures s.pump == DispWrite(0, 7, CALL_A) && s.reqC == [ReqTok(0, true)] && s.connected == {0} && s.discs == map[]
    ensures s.pending == map[] && s.loop == Loop(map[], map[], true, Some(7)) && s.expired == {} && s.ledger.claim == map[]
    ensures s.store == Remove(Push(GetOrCreate(Init(0).store, 0, 7), 7, CALL_A), 0) && 0 in s.owed
  {
    var s0 := TimesOutMidWrite();
    s := ClearsAndReconnects(s0, 0);
    ReachableThrough(s0, s);
    assert s0.discs - {0} == map[] && s0.pending - {0} == map[];
  }

  lemma WrittenAfterTimeout() returns (s: State)
    ensures Reachable(s) && s.running && s.stop.NotCalled? && s.senders == map[] && s.facade.mutexBy.None? && 0 in s.owed
    ensures s.pump.Select? && s.reqC == [ReqTok(0, true)] && s.connected == {0} && s.discs == map[] && s.pending == map[]
    ensures CALL_A in s.sent && s.loop.ctxMap == map[] && s.loop.disp == map[] && s.expired == {} && s.ledger.claim == map[]
    ensures s.store == Wrote(Remove(Push(GetOrCreate(Init(0).store, 0, 7), 7, CALL_A), 0), 7, CALL_A)
  {
    var s0 := ReconnectsMidWrite();
    s := WritesFront(s0, 0, 7, CALL_A);
    ReachableThrough(s0, s);
    assert s0.loop.ctxMap - {0} == map[] && s0.loop.disp - {0} == map[];
  }

  /** A is written over the new connection; its handler then creates a queue and
      the pump takes the delete token that was left behind. */
  lemma TokenLeftBehind() returns (s: State)
    ensures Reachable(s) && s.running && s.stop.NotCalled? && s.senders == map[] && s.facade.mutexBy.None?
    ensures s.pump.Select? && s.reqC == [] && s.connected == {0} && s.pending == map[] && CALL_A in s.sent
    ensures s.loop.ctxMap == map[] && s.expired == {} && s.ledger.claim == map[]
    ensures Lookup(s.store.live, 0) == Some(8) && s.store.capacity == 0 && At(s.store, 8) == Queue(0, Fifo.Fresh()) && CALL_B !in s.store.home
  {
    var s1 := WrittenAfterTimeout();
    var s2 := s1.(store := GetOrCreate(s1.store, 0, 8), owed := s1.owed - multiset{0});
    ReachesByPeer(s1, CreateClient(0, 8), s2);
    s := TakesLeftover(s2);
    ReachableThrough(s2, s);
  }

  lemma TakesLeftover(s: State) returns (s': State)
    requires s.pump.Select? && s.reqC == [ReqTok(0, true)] && Lookup(s.store.live, 0) == Some(8) && Front(s.store, 8).None?
    requires s.loop.ctxMap == map[] && s.loop.disp == map[] && s.discs == map[]
    ensures Leads(s, s') && s' == s.(reqC := [], loop := s.loop.(cq := Some(8), rdy := true))
  {
    var s1 := s.(reqC := [], pump := ReqGet(0, true));
    Arms(s, OnReq, s1);
    assert Forget(s1.loop, 0) == s1.loop;
    var s2 := s1.(pump := GuardEmpty(0), loop := s.loop.(cq := Some(8), rdy := true));
    Routes(s, s1, s2);
    s' := s2.(pump := Select);
    Routes(s, s2, s');
  }

  /** A delete wait that times out in the middle of a write breaks the rule too. */
  lemma TimeoutCanLeaveTwo() returns (s: State)
    ensures Reachable(s) && {CALL_A, CALL_B} <= s.sent && CALL_A !in s.ledger.claim && CALL_B !in s.ledger.claim
    ensures !OneOutstanding(s.sent, s.ledger.claim)
  {
    var s0 := TokenLeftBehind();
    var s1 := SendsFresh(s0, 8, CALL_B);
    var s2 := DispatchesFront(s1, 0, 8, CALL_B);
    LeadsTrans(s0, s1, s2);
    s := WritesFront(s2, 0, 8, CALL_B);
    LeadsTrans(s0, s2, s);
    ReachableThrough(s0, s);
    assert CALL_A in s.sent && CALL_B in s.sent;
  }

  // ---- up to and through Stop ----

  lemma ReachesByWorld(s: State, w: WorldStep, s': State)
    requires Reachable(s) && WorldNext(s, w, s')
    ensures Reachable(s')
  {
    Then(s, World(w), s');
  }

  lemma ReachesByPump(s: State, p: PumpStep, s': State)
    requires Reachable(s) && PumpNext(s, p, s')
    ensures Reachable(s')
  {
    Then(s, Pumps(p), s');
  }

  /** Client 0 is connected and has the empty queue 7. */
  lemma Connected() returns (s: State)
    ensures Reachable(s) && s == Init(0).(connected := {0}, store := GetOrCreate(Init(0).store, 0, 7))
  {
    Starts(0);
    var s1 := Init(0).(connected := {0}, owed := multiset{0});
    ReachesByWorld(Init(0), PeerStep(Connect(0)), s1);
    s := s1.(store := GetOrCreate(s1.store, 0, 7), owed := multiset{});
    ReachesByWorld(s1, PeerStep(CreateClient(0, 7)), s);
  }

  lemma Finds(s: State, r: Req, q: QRef) returns (s': State)
    requires Reachable(s) && s.completers == map[] && r in s.wired && Lookup(s.store.live, r.client) == Some(q)
    ensures Reachable(s') && s' == s.(completers := map[0 := Completer(r, Some(q))])
  {
    var s1 := s.(completers := map[0 := Completer(r, None)]);
    ReachesByWorld(s, ReaderStep(Respond(0, r)), s1);
    s' := s.(completers := map[0 := Completer(r, Some(q))]);
    ReachesByWorld(s1, ReaderStep(CompStep(0)), s');
  }

  /** A response takes the front request and clears its pending slot. */
  lemma Answers(s: State, r: Req, q: QRef) returns (s': State)
    requires Reachable(s) && s.completers == map[] && r in s.wired && Lookup(s.store.live, r.client) == Some(q) && Front(s.store, q) == Some(r)
    ensures Reachable(s')
    ensures s' == s.(store := Pop(s.store, q), ledger := Claimed(s.ledger, r, RespDeleted), pending := WithoutPending(s.pending, r))
  {
    var s1 := Finds(s, r, q);
    var s2 := s.(store := Pop(s.store, q), ledger := Claimed(s.ledger, r, RespPopped));
    assert s1.completers - {0} == map[];
    ReachesByWorld(s1, ReaderStep(CompStep(0)), s2);
    s' := s2.(ledger := Claimed(s.ledger, r, RespDeleted), pending := WithoutPending(s.pending, r));
    assert s2.ledger.claim[r := RespDeleted] == s.ledger.claim[r := RespDeleted];
    ReachesByWorld(s2, ReaderStep(RespDelete(r)), s');
  }

  /** Stop is called and the pump detaches a map with one empty queue. */
  lemma Detaches(s: State, q: QRef) returns (s': State)
    requires Reachable(s) && s.stop.NotCalled? && s.running && NoReaders(s) && s.pump.Select?
    requires s.store.live == map[0 := q]
    ensures Reachable(s')
    ensures s' == s.(stop := Joining, running := false, pump := DrainPending(map[0 := q]), store := Detach(s.store))
  {
    var s1 := s.(stop := Locking);
    ReachesByWorld(s, ServerStack.StopStep, s1);
    var s2 := s.(stop := Joining, running := false);
    ReachesByWorld(s1, ServerStack.StopStep, s2);
    var s3 := s2.(pump := DrainMap);
    ReachesByPump(s2, Selects(OnStop), s3);
    s' := s3.(pump := DrainPending(map[0 := q]), store := Detach(s.store));
    ReachesByPump(s3, DrainOn, s');
  }

  lemma Drains(s: State, q: QRef) returns (s': State)
    requires Reachable(s) && s.pump == DrainPending(map[0 := q]) && Contents(s.store, q) == []
    ensures Reachable(s') && s' == s.(pump := Exited, pending := map[], store := Drain(s.store, q))
  {
    var s1 := s.(pump := DrainQueues(map[0 := q]), pending := map[]);
    ReachesByPump(s, DrainOn, s1);
    var s2 := s1.(pump := Firing(map[], []), store := Drain(s.store, q));
    assert map[0 := q] - {0} == map[] && ClaimedAll(s.ledger, []) == s.ledger by {
      assert s.ledger.claim + map[] == s.ledger.claim;
    }
    ReachesByPump(s1, Takes(0), s2);
    s' := Exits(s2);
  }

  lemma Exits(s: State) returns (s': State)
    requires Reachable(s) && s.pump == Firing(map[], [])
    ensures Reachable(s') && s' == s.(pump := Exited)
  {
    var s1 := s.(pump := DrainQueues(map[]));
    ReachesByPump(s, DrainOn, s1);
    s' := s.(pump := Exited);
    ReachesByPump(s1, DrainOn, s');
  }

  // ---- a response after the pump has exited ----

  /** A is answered and its ready token is buffered; B is written next. */
  lemma TokenBuffered() returns (s: State)
    ensures Reachable(s) && s.running && s.stop.NotCalled? && s.pump.Select? && s.senders == map[] && s.discs == map[]
    ensures s.ready == Some(CALL_A) && s.completers == map[] && CALL_B in s.wired
    ensures s.store.live == map[0 := 7] && Front(s.store, 7) == Some(CALL_B) && Contents(s.store, 7) == [CALL_B]
  {
    var s3 := FirstWritten();
    var s4 := Answers(s3, CALL_A, 7);
    s := SecondWritten(s4);
  }

  lemma FirstWritten() returns (s: State)
    ensures Reachable(s) && s.running && s.stop.NotCalled? && s.pump.Select? && s.senders == map[] && s.discs == map[] && s.reqC == []
    ensures s.ready.None? && s.pending == map[0 := CALL_A] && s.connected == {0} && s.expired == {} && CALL_A in s.wired
    ensures s.loop.ctxMap == map[] && s.completers == map[] && s.facade.mutexBy.None?
    ensures s.store == Wrote(Push(GetOrCreate(Init(0).store, 0, 7), 7, CALL_A), 7, CALL_A)
  {
    var s0 := Connected();
    var s1 := SendsFresh(s0, 7, CALL_A);
    var s2 := DispatchesFront(s1, 0, 7, CALL_A);
    LeadsTrans(s0, s1, s2);
    s := WritesFront(s2, 0, 7, CALL_A);
    LeadsTrans(s0, s2, s);
    ReachableThrough(s0, s);
    assert s2.loop.ctxMap - {0} == map[];
  }

  lemma SecondWritten(s: State) returns (s': State)
    requires Reachable(s) && s.running && s.stop.NotCalled? && s.pump.Select? && s.senders == map[] && s.discs == map[] && s.reqC == []
    requires s.ready.None? && StageIs(s, CALL_A, RespDeleted) && s.pending == map[] && s.connected == {0} && s.expired == {}
    requires s.loop.ctxMap == map[] && s.completers == map[] && s.facade.mutexBy.None? && s.store.capacity == 0
    requires s.store.live == map[0 := 7] && Contents(s.store, 7) == [] && CALL_B !in s.store.home && At(s.store, 7).log.taken == |At(s.store, 7).log.pushed|
    ensures Reachable(s') && s'.running && s'.stop.NotCalled? && s'.pump.Select? && s'.senders == map[] && s'.discs == map[]
    ensures s'.ready == Some(CALL_A) && s'.completers == map[] && CALL_B in s'.wired
    ensures s'.store.live == map[0 := 7] && Front(s'.store, 7) == Some(CALL_B) && Contents(s'.store, 7) == [CALL_B]
  {
    var s1 := s.(ready := Some(CALL_A), ledger := Notified(s.ledger, CALL_A, RespWon));
    ReachesByWorld(s, ReaderStep(RespSignal(CALL_A)), s1);
    var s2 := SendsFresh(s1, 7, CALL_B);
    var s3 := DispatchesFront(s2, 0, 7, CALL_B);
    LeadsTrans(s1, s2, s3);
    s' := WritesFront(s3, 0, 7, CALL_B);
    LeadsTrans(s1, s3, s');
    ReachableThrough(s1, s');
  }

  // ---- a send in flight ----

  /** A facade send has looked queue 7 up. */
  lemma MidSend() returns (s: State)
    ensures Reachable(s) && s.senders == map[CALL_A := Sender(SPush(7), true)] && s.store == GetOrCreate(Init(0).store, 0, 7)
    ensures s.stop.NotCalled? && s.running && s.pump.Select? && s.discs == map[]
  {
    var s0 := Connected();
    var s1 := s0.(senders := map[CALL_A := Sender(SRun, true)], facade := s0.facade.(mutexBy := Some(CALL_A)));
    ReachesByWorld(s0, SendStart(CALL_A, true), s1);
    s := LooksUp(s1, 7, CALL_A);
    ReachableThrough(s1, s);
  }

  lemma Returns(s: State) returns (s': State)
    requires Reachable(s) && s.stop.Joining? && s.pump.Exited?
    ensures Reachable(s') && s' == s.(stop := Returned)
  {
    s' := s.(stop := Returned);
    ReachesByWorld(s, ServerStack.StopStep, s');
  }
}
