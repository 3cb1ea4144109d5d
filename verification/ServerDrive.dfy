/**
 Driving the server stack by hand. From any state with a late queue (created
 inside the disconnect of its client) the pump, the senders, the responders
 and the disconnect can be moved one at a time until everything but that queue
 is at rest, with every write failing and nothing pushed to the late queue.
 */
module ServerDrive {
  import opened Basics
  import opened QueueStore
  import opened ServerStack
  import opened ServerTrace
  import opened ServerMoves
  import opened ServerPhase
  import opened ServerOwnership
  import opened ServerDelete
  import opened ServerFacade
  import opened ServerReach

  /** What holds in every run. */
  lemma ReachableInv(s: State)
    requires Reachable(s)
    ensures SafeInv(s) && DeleteOk(s) && MutexOk(s.senders, s.facade)
  {
    var run :| IsRun(run) && run.states[|run.steps|] == s;
    DeletionRun(run, |run.steps|);
    AccountRun(run, |run.steps|);
  }

  /** Queue `q` was created for `c` inside the window of its disconnect. */
  predicate Late(s: State, c: Client, q: QRef) {
    && s.running && s.stop.NotCalled? && !Draining(s.pump)
    && Lookup(s.store.live, c) == Some(q) && c !in s.connected && InWindow(s.discs, c)
    && (forall r :: r in s.senders ==> s.senders[r].pc != SPush(q))
  }

  /** A read goroutine took `r` and has not posted its ready token. */
  predicate Answering(g: Ledger, r: Req) { Lookup(g.claim, r) == Some(RespPopped) || Lookup(g.claim, r) == Some(RespDeleted) }

  /** What driving leaves alone: no new answers, senders or mutex holders, the
      late queue gets nothing, and its disconnect stays in the window. */
  ghost predicate Keeps(s: State, s': State, c: Client, q: QRef) {
    && s' == s.(pump := s'.pump, loop := s'.loop, discs := s'.discs, ledger := s'.ledger, store := s'.store, pending := s'.pending,
                reqC := s'.reqC, ready := s'.ready, senders := s'.senders, facade := s'.facade, accepted := s'.accepted)
    && s'.store.live == s.store.live && s'.store.capacity == s.store.capacity
    && At(s'.store, q).log.pushed == At(s.store, q).log.pushed && At(s'.store, q).log.taken >= At(s.store, q).log.taken
    && (forall r :: Answering(s'.ledger, r) ==> Answering(s.ledger, r))
    && (forall r :: r in s'.senders ==> r in s.senders && s'.senders[r] == s.senders[r])
    && (s'.facade.mutexBy == s.facade.mutexBy || s'.facade.mutexBy.None?)
    && (Lookup(s'.discs, c) == Lookup(s.discs, c) || Lookup(s'.discs, c) == Some(DClear))
    && !Draining(s'.pump)
  }

  lemma KeepsLate(s: State, s': State, c: Client, q: QRef)
    requires Late(s, c, q) && Keeps(s, s', c, q)
    ensures Late(s', c, q)
  {
  }

  lemma KeepsTrans(s: State, s': State, s'': State, c: Client, q: QRef)
    requires Keeps(s, s', c, q) && Keeps(s', s'', c, q)
    ensures Keeps(s, s'', c, q)
  {
  }

  lemma KeepsSelf(s: State, c: Client, q: QRef)
    requires Late(s, c, q)
    ensures Keeps(s, s, c, q)
  {
  }

  // ---- the pump comes home ----

  function ClientOf(p: Pump): Option<Client> {
    match p
    case ReqGet(c, _) => Some(c)
    case TimeoutPending(c, _, _) => Some(c)
    case TimeoutElse(c) => Some(c)
    case ReadyGet(c) => Some(c)
    case CompGet(c, _, _) => Some(c)
    case CompPop(c, _, _, _) => Some(c)
    case CompDelete(c, _, _) => Some(c)
    case WonGet(c, _) => Some(c)
    case GuardEmpty(c) => Some(c)
    case GuardPending(c) => Some(c)
    case DispGet(c) => Some(c)
    case DispPeek(c, _) => Some(c)
    case DispAdd(c, _, _) => Some(c)
    case DispWrite(c, _, _) => Some(c)
    case Record(c, _, _) => Some(c)
    case LoopGet(c) => Some(c)
    case LoopEmpty(c, _) => Some(c)
    case _ => None
  }

  /** How much the queue of the client being served holds. */
  function Waiting(p: Pump, st: Store): nat {
    if ClientOf(p).Some? && ClientOf(p).value in st.live then |Contents(st, st.live[ClientOf(p).value])| else 0
  }

  /** The completion the pump is heading for will take the front of the live queue. */
  predicate Sure(st: Store, c: Client, rid: Option<Req>) { c in st.live && rid.Some? && Front(st, st.live[c]) == rid }

  function Pos(p: Pump, st: Store): nat {
    match p
    case TimeoutPending(_, _, _) => 60
    case ReqGet(_, _) => 50
    case TimeoutElse(_) => 50
    case ReadyGet(_) => 50
    case CompGet(c, rid, why) => if !NoWrite(why) then 59 else if Sure(st, c, rid) then 6 else 46
    case CompPop(c, q, rid, why) => if !NoWrite(why) then 58 else if Sure(st, c, rid) && st.live[c] == q then 5 else 45
    case CompDelete(_, _, why) => if !NoWrite(why) then 57 else 13
    case WonGet(_, _) => 56
    case GuardEmpty(_) => 15
    case GuardPending(_) => 14
    case LoopGet(_) => 12
    case LoopEmpty(_, _) => 11
    case DispGet(_) => 10
    case DispPeek(c, q) => if Lookup(st.live, c) == Some(q) then 9 else 49
    case DispAdd(c, q, r) => if Sure(st, c, Some(r)) then 8 else 48
    case DispWrite(c, q, r) => if Sure(st, c, Some(r)) then 7 else 47
    case Record(_, _, _) => 1
    case _ => 0
  }

  predicate Nearer(s': State, s: State) {
    || s'.pump.Select?
    || Waiting(s'.pump, s'.store) < Waiting(s.pump, s.store)
    || (Waiting(s'.pump, s'.store) == Waiting(s.pump, s.store) && Pos(s'.pump, s'.store) < Pos(s.pump, s.store))
  }

  /** A pump step towards its select. */
  ghost predicate Homeward(s: State, s': State, c: Client, q: QRef) {
    Keeps(s, s', c, q) && Nearer(s', s) && s'.reqC == s.reqC && s'.ready == s.ready && s'.senders == s.senders && s'.facade == s.facade
  }

  lemma NearerRoute(s: State, s': State)
    requires PumpRoutes(s, s')
    ensures Nearer(s', s)
  {
  }

  lemma HomeOnRoute(s: State, s': State, c: Client, q: QRef)
    requires Late(s, c, q) && PumpRoutes(s, s')
    ensures Homeward(s, s', c, q)
  {
    NearerRoute(s, s');
  }

  lemma NearerComplete(s: State, s': State)
    requires PumpCompletes(s, s')
    ensures Nearer(s', s)
  {
  }

  lemma HomeOnComplete(s: State, s': State, c: Client, q: QRef)
    requires Late(s, c, q) && PumpCompletes(s, s')
    ensures Homeward(s, s', c, q)
  {
    NearerComplete(s, s');
    CompletesFrame(s, s');
    KeepsComplete(s, s', q);
  }

  lemma KeepsComplete(s: State, s': State, q: QRef)
    requires PumpCompletes(s, s')
    ensures At(s'.store, q).log.pushed == At(s.store, q).log.pushed && At(s'.store, q).log.taken >= At(s.store, q).log.taken
    ensures forall r :: Answering(s'.ledger, r) ==> Answering(s.ledger, r)
    ensures s'.store.capacity == s.store.capacity && !Draining(s'.pump)
  {
  }

  lemma NearerDispatch(s: State, s': State)
    requires PumpDispatches(s, s')
    ensures Nearer(s', s)
  {
  }

  lemma HomeOnDispatch(s: State, s': State, c: Client, q: QRef)
    requires Late(s, c, q) && PumpDispatches(s, s')
    ensures Homeward(s, s', c, q)
  {
    NearerDispatch(s, s');
  }

  lemma HomeOnWrite(s: State, s': State, c: Client, q: QRef)
    requires Late(s, c, q) && WriteMove(s, false, None, s')
    ensures Homeward(s, s', c, q)
  {
  }

  lemma HomeOnTurn(s: State, p: PumpStep, s': State, c: Client, q: QRef)
    requires Late(s, c, q) && !s.pump.Select? && PumpNext(s, p, s') && (p.Write? ==> p == Write(false, None))
    ensures Homeward(s, s', c, q)
  {
    match p
    case Route => HomeOnRoute(s, s', c, q);
    case Complete => HomeOnComplete(s, s', c, q);
    case Dispatch => HomeOnDispatch(s, s', c, q);
    case Write(_, _) => HomeOnWrite(s, s', c, q);
    case Selects(_) => assert false;
    case DrainOn => assert false;
    case Takes(_) => assert false;
  }

  lemma {:induction false} PumpHome(s: State, c: Client, q: QRef) returns (s': State)
    requires Late(s, c, q)
    ensures Leads(s, s') && Keeps(s, s', c, q) && s'.pump.Select?
    ensures s'.reqC == s.reqC && s'.ready == s.ready && s'.senders == s.senders && s'.facade == s.facade
    decreases if s.pump.Select? then 0 else 1, Waiting(s.pump, s.store), Pos(s.pump, s.store)
  {
    if s.pump.Select? {
      s' := s;
      LeadsSelf(s);
      KeepsSelf(s, c, q);
    } else {
      var p, s1 := PumpMoves(s);
      HomeOnTurn(s, p, s1, c, q);
      OneStep(s, Pumps(p), s1);
      KeepsLate(s, s1, c, q);
      s' := PumpHome(s1, c, q);
      KeepsTrans(s, s1, s', c, q);
      LeadsTrans(s, s1, s');
    }
  }

  // ---- buffered tokens ----

  lemma TakeReq(s: State, c: Client, q: QRef) returns (s': State)
    requires Late(s, c, q) && s.pump.Select? && s.reqC != []
    ensures Leads(s, s') && Keeps(s, s', c, q) && s'.pump.Select?
    ensures s'.reqC == s.reqC[1..] && s'.ready == s.ready && s'.senders == s.senders && s'.facade == s.facade
  {
    var s1 := s.(pump := ReqGet(s.reqC[0].c, s.reqC[0].ack), reqC := s.reqC[1..]);
    OneStep(s, Pumps(Selects(OnReq)), s1);
    s' := PumpHome(s1, c, q);
    KeepsTrans(s, s1, s', c, q);
    LeadsTrans(s, s1, s');
  }

  lemma {:induction false} DrainReqs(s: State, c: Client, q: QRef) returns (s': State)
    requires Late(s, c, q) && s.pump.Select?
    ensures Leads(s, s') && Keeps(s, s', c, q) && s'.pump.Select?
    ensures s'.reqC == [] && s'.ready == s.ready && s'.senders == s.senders && s'.facade == s.facade
    decreases |s.reqC|
  {
    if s.reqC == [] {
      s' := s;
      LeadsSelf(s);
      KeepsSelf(s, c, q);
    } else {
      var s1 := TakeReq(s, c, q);
      KeepsLate(s, s1, c, q);
      s' := DrainReqs(s1, c, q);
      KeepsTrans(s, s1, s', c, q);
      LeadsTrans(s, s1, s');
    }
  }

  lemma KeepsReady(s: State, s': State, c: Client, q: QRef)
    requires Late(s, c, q) && ArmMove(s, OnReady, s')
    ensures Keeps(s, s', c, q) && s'.ready.None? && s'.reqC == s.reqC && s'.senders == s.senders && s'.facade == s.facade
  {
  }

  lemma TakeReady(s: State, c: Client, q: QRef) returns (s': State)
    requires Late(s, c, q) && s.pump.Select? && s.ready.Some?
    ensures Leads(s, s') && Keeps(s, s', c, q) && s'.pump.Select?
    ensures s'.reqC == s.reqC && s'.ready.None? && s'.senders == s.senders && s'.facade == s.facade
  {
    var s1 := ArmMoves(s, OnReady);
    OneStep(s, Pumps(Selects(OnReady)), s1);
    KeepsReady(s, s1, c, q);
    KeepsLate(s, s1, c, q);
    s' := PumpHome(s1, c, q);
    KeepsTrans(s, s1, s', c, q);
    LeadsTrans(s, s1, s');
  }

  // ---- answers of the late client ----

  ghost function Answers(s: State, c: Client): set<Req> { set r | r in s.ledger.claim && r.client == c && Answering(s.ledger, r) }

  /** The read goroutine of `r` clears the slot, posts its token and is done. */
  lemma FinishAnswer(s: State, r: Req, c: Client, q: QRef) returns (s': State)
    requires Late(s, c, q) && s.pump.Select? && s.ready.None? && Answering(s.ledger, r)
    ensures Leads(s, s') && Keeps(s, s', c, q) && s'.pump == s.pump && !Answering(s'.ledger, r)
    ensures s'.reqC == s.reqC && s'.ready == Some(r) && s'.senders == s.senders && s'.facade == s.facade
  {
    var s1 := s;
    LeadsSelf(s);
    if StageIs(s, r, RespPopped) {
      s1 := s.(pending := WithoutPending(s.pending, r), ledger := Claimed(s.ledger, r, RespDeleted));
      OneStep(s, World(ReaderStep(RespDelete(r))), s1);
    }
    s' := s1.(ready := Some(r), ledger := Notified(s1.ledger, r, RespWon));
    LeadsOn(s, s1, World(ReaderStep(RespSignal(r))), s');
  }

  lemma {:induction false} DrainAnswers(s: State, c: Client, q: QRef) returns (s': State)
    requires Late(s, c, q) && s.pump.Select? && s.ready.None?
    ensures Leads(s, s') && Keeps(s, s', c, q) && s'.pump.Select? && s'.ready.None? && Answers(s', c) == {}
    ensures s'.reqC == s.reqC && s'.senders == s.senders && s'.facade == s.facade
    decreases Answers(s, c)
  {
    if Answers(s, c) == {} {
      s' := s;
      LeadsSelf(s);
      KeepsSelf(s, c, q);
    } else {
      var r :| r in Answers(s, c);
      var s1 := FinishAnswer(s, r, c, q);
      KeepsLate(s, s1, c, q);
      var s2 := TakeReady(s1, c, q);
      KeepsTrans(s, s1, s2, c, q);
      KeepsLate(s, s2, c, q);
      LeadsTrans(s, s1, s2);
      FewerAnswers(s, s1, s2, r, c, q);
      s' := DrainAnswers(s2, c, q);
      KeepsTrans(s, s2, s', c, q);
      LeadsTrans(s, s2, s');
    }
  }

  lemma FewerAnswers(s: State, s1: State, s2: State, r: Req, c: Client, q: QRef)
    requires Keeps(s, s1, c, q) && Keeps(s1, s2, c, q) && r in Answers(s, c) && !Answering(s1.ledger, r)
    ensures Answers(s2, c) < Answers(s, c)
  {
    assert r !in Answers(s2, c);
  }

  // ---- senders ----

  /** The send is past the lookup of its queue, or looks up another queue. */
  predicate Elsewhere(s: State, r: Req, c: Client) {
    r in s.senders && (r.client == c ==> !s.senders[r].pc.SRun? && !s.senders[r].pc.SGet?)
  }

  function Ahead(pc: SendPc): nat {
    match pc case SRun => 6 case SGet => 5 case SPush(_) => 4 case SLock => 3 case SSend => 2 case SReg => 1
  }

  /** One step of a sender that does not aim at the late queue. */
  ghost predicate Onward(s: State, r: Req, s': State, c: Client, q: QRef) {
    && s' == s.(senders := s'.senders, facade := s'.facade, store := s'.store, reqC := s'.reqC, accepted := s'.accepted)
    && s'.store.live == s.store.live && s'.store.capacity == s.store.capacity && At(s'.store, q) == At(s.store, q)
    && s'.senders - {r} == s.senders - {r} && |s'.reqC| <= |s.reqC| + 1
    && (s'.facade.mutexBy == s.facade.mutexBy || s'.facade.mutexBy.None?)
    && (r in s'.senders ==> Elsewhere(s', r, c) && s'.senders[r].pc != SPush(q) && r in s.senders && Ahead(s'.senders[r].pc) < Ahead(s.senders[r].pc))
    && (r !in s'.senders ==> s'.facade.mutexBy != Some(r))
  }

  lemma PushesOnward(s: State, r: Req, s': State, c: Client, q: QRef)
    requires StoreInv(s) && Late(s, c, q) && r in s.senders && s.senders[r].pc.SPush? && SendMove(s, r, s')
    ensures Onward(s, r, s', c, q)
  {
    assert q in s.store.queues && s.store.queues[q].client == c;
  }

  lemma SendsOnward(s: State, r: Req, s': State, c: Client, q: QRef)
    requires StoreInv(s) && Late(s, c, q) && Elsewhere(s, r, c) && SendMove(s, r, s')
    ensures Onward(s, r, s', c, q)
  {
    if s.senders[r].pc.SPush? { PushesOnward(s, r, s', c, q); }
    else if s.senders[r].pc.SGet? { assert RefOk(s.store, q, c); }
  }

  /** What a sender changes on its way out. */
  ghost predicate Sends(s: State, s': State, r: Req, c: Client, q: QRef) {
    && s' == s.(senders := s'.senders, facade := s'.facade, store := s'.store, reqC := s'.reqC, accepted := s'.accepted)
    && s'.store.live == s.store.live && s'.store.capacity == s.store.capacity && At(s'.store, q) == At(s.store, q)
    && s'.senders == s.senders - {r} && (s'.facade.mutexBy == s.facade.mutexBy || s'.facade.mutexBy.None?)
    && s'.facade.mutexBy != Some(r)
  }

  lemma OnwardLate(s: State, r: Req, s': State, c: Client, q: QRef)
    requires Late(s, c, q) && Onward(s, r, s', c, q)
    ensures Late(s', c, q)
  {
    forall x | x in s'.senders ensures s'.senders[x].pc != SPush(q) {
      if x != r { assert x in s'.senders - {r} && x in s.senders - {r} && (s'.senders - {r})[x] == (s.senders - {r})[x]; }
    }
  }

  lemma {:induction false} SendHome(s: State, r: Req, c: Client, q: QRef) returns (s': State)
    requires Reachable(s) && Late(s, c, q) && Elsewhere(s, r, c)
    requires s.senders[r].pc.SReg? || |s.reqC| < REQUEST_CHANNEL_CAPACITY
    ensures Leads(s, s') && Sends(s, s', r, c, q)
    decreases Ahead(s.senders[r].pc)
  {
    var s1 := SendTurn(s, r, c, q);
    if r in s1.senders {
      OnwardLate(s, r, s1, c, q);
      ReachableThrough(s, s1);
      s' := SendHome(s1, r, c, q);
      LeadsTrans(s, s1, s');
    } else {
      s' := s1;
      assert s1.senders == s1.senders - {r};
    }
  }

  lemma SendTurn(s: State, r: Req, c: Client, q: QRef) returns (s': State)
    requires Reachable(s) && Late(s, c, q) && Elsewhere(s, r, c)
    requires s.senders[r].pc.SReg? || |s.reqC| < REQUEST_CHANNEL_CAPACITY
    ensures Leads(s, s') && Onward(s, r, s', c, q)
    ensures r in s'.senders ==> s'.senders[r].pc.SReg? || |s'.reqC| < REQUEST_CHANNEL_CAPACITY
  {
    ReachableInv(s);
    s' := SendMoves(s, r);
    SendsOnward(s, r, s', c, q);
    OneStep(s, World(SendStep(r)), s');
    if r in s'.senders { RoomStays(s, r, s'); }
  }

  lemma RoomStays(s: State, r: Req, s': State)
    requires SendMove(s, r, s') && r in s'.senders && (s.senders[r].pc.SReg? || |s.reqC| < REQUEST_CHANNEL_CAPACITY)
    ensures s'.senders[r].pc.SReg? || |s'.reqC| < REQUEST_CHANNEL_CAPACITY
  {
  }

  /** A sender that does not aim at the late queue is brought to its return. */
  lemma FinishSend(s: State, r: Req, c: Client, q: QRef) returns (s': State)
    requires Reachable(s) && Late(s, c, q) && s.pump.Select? && s.reqC == [] && Elsewhere(s, r, c)
    ensures Leads(s, s') && Keeps(s, s', c, q) && s'.pump.Select? && s'.reqC == [] && s'.ready == s.ready
    ensures s'.senders == s.senders - {r} && s'.facade.mutexBy != Some(r)
  {
    var s1 := SendHome(s, r, c, q);
    SendsKeeps(s, s1, r, c, q);
    KeepsLate(s, s1, c, q);
    s' := DrainReqs(s1, c, q);
    KeepsTrans(s, s1, s', c, q);
    LeadsTrans(s, s1, s');
  }

  lemma SendsKeeps(s: State, s': State, r: Req, c: Client, q: QRef)
    requires Late(s, c, q) && Sends(s, s', r, c, q)
    ensures Keeps(s, s', c, q)
  {
  }

  ghost function Pushers(s: State, c: Client): set<Req> {
    set r | r in s.senders && r.client == c && (s.senders[r].pc.SLock? || s.senders[r].pc.SSend?)
  }

  lemma {:induction false} DrainSenders(s: State, c: Client, q: QRef) returns (s': State)
    requires Reachable(s) && Late(s, c, q) && s.pump.Select? && s.reqC == []
    ensures Leads(s, s') && Keeps(s, s', c, q) && s'.pump.Select? && s'.reqC == [] && s'.ready == s.ready && Pushers(s', c) == {}
    decreases Pushers(s, c)
  {
    if Pushers(s, c) == {} {
      s' := s;
      LeadsSelf(s);
      KeepsSelf(s, c, q);
    } else {
      var r :| r in Pushers(s, c);
      var s1 := FinishSend(s, r, c, q);
      KeepsLate(s, s1, c, q);
      ReachableThrough(s, s1);
      assert r !in Pushers(s1, c) && Pushers(s1, c) <= Pushers(s, c);
      s' := DrainSenders(s1, c, q);
      KeepsTrans(s, s1, s', c, q);
      LeadsTrans(s, s1, s');
    }
  }

  /** The callbacks mutex is free, or its holder is about to look up the late queue. */
  predicate MutexRests(s: State, c: Client) { s.facade.mutexBy.Some? ==> !Elsewhere(s, s.facade.mutexBy.value, c) }

  lemma FreeMutex(s: State, c: Client, q: QRef) returns (s': State)
    requires Reachable(s) && Late(s, c, q) && s.pump.Select? && s.reqC == []
    ensures Leads(s, s') && Keeps(s, s', c, q) && s'.pump.Select? && s'.reqC == [] && s'.ready == s.ready && MutexRests(s', c)
  {
    if MutexRests(s, c) {
      s' := s;
      LeadsSelf(s);
      KeepsSelf(s, c, q);
    } else {
      s' := FinishSend(s, s.facade.mutexBy.value, c, q);
    }
  }

  // ---- everything at rest ----

  /** Nothing of `c` is on its way to the pump, and its queue is empty. */
  ghost predicate Calm(s: State, c: Client, q: QRef) {
    && Late(s, c, q) && s.pump.Select? && s.ready.None? && Answers(s, c) == {} && Pushers(s, c) == {}
    && Front(s.store, q).None? && MutexRests(s, c)
  }

  lemma KeepsEmpty(s: State, s': State, c: Client, q: QRef)
    requires Keeps(s, s', c, q) && Front(s.store, q).None?
    ensures Front(s'.store, q).None?
  {
  }

  lemma KeepsAnswers(s: State, s': State, c: Client, q: QRef)
    requires Keeps(s, s', c, q) && Answers(s, c) == {}
    ensures Answers(s', c) == {}
  {
    assert Answers(s', c) <= Answers(s, c);
  }

  lemma KeepsPushers(s: State, s': State, c: Client, q: QRef)
    requires Keeps(s, s', c, q) && Pushers(s, c) == {}
    ensures Pushers(s', c) == {}
  {
    assert Pushers(s', c) <= Pushers(s, c);
  }

  lemma KeepsCalm(s: State, s': State, c: Client, q: QRef)
    requires Calm(s, c, q) && Keeps(s, s', c, q) && s'.pump.Select? && s'.ready.None?
    ensures Calm(s', c, q)
  {
    KeepsLate(s, s', c, q);
    KeepsEmpty(s, s', c, q);
    KeepsAnswers(s, s', c, q);
    KeepsPushers(s, s', c, q);
  }

  lemma BringHome(s: State, c: Client, q: QRef) returns (s': State)
    requires Late(s, c, q)
    ensures Leads(s, s') && Keeps(s, s', c, q) && s'.pump.Select? && s'.ready.None? && s'.reqC == [] && Answers(s', c) == {}
  {
    var s1 := PumpHome(s, c, q);
    KeepsLate(s, s1, c, q);
    var s2 := s1;
    LeadsSelf(s1);
    KeepsSelf(s1, c, q);
    if s1.ready.Some? { s2 := TakeReady(s1, c, q); }
    KeepsTrans(s, s1, s2, c, q);
    LeadsTrans(s, s1, s2);
    KeepsLate(s, s2, c, q);
    s' := Empties(s2, c, q);
    KeepsTrans(s, s2, s', c, q);
    LeadsTrans(s, s2, s');
  }

  lemma Empties(s: State, c: Client, q: QRef) returns (s': State)
    requires Late(s, c, q) && s.pump.Select? && s.ready.None?
    ensures Leads(s, s') && Keeps(s, s', c, q) && s'.pump.Select? && s'.ready.None? && s'.reqC == [] && Answers(s', c) == {}
  {
    var s1 := DrainAnswers(s, c, q);
    KeepsLate(s, s1, c, q);
    s' := DrainReqs(s1, c, q);
    KeepsAnswers(s1, s', c, q);
    KeepsTrans(s, s1, s', c, q);
    LeadsTrans(s, s1, s');
  }

  lemma CalmDown(s: State, c: Client, q: QRef) returns (s': State)
    requires Reachable(s) && Late(s, c, q) && Front(s.store, q).None?
    ensures Leads(s, s') && Keeps(s, s', c, q) && Calm(s', c, q) && s'.reqC == []
  {
    var s1 := BringHome(s, c, q);
    KeepsLate(s, s1, c, q);
    ReachableThrough(s, s1);
    var s2 := DrainSenders(s1, c, q);
    KeepsLate(s1, s2, c, q);
    ReachableThrough(s1, s2);
    s' := FreeMutex(s2, c, q);
    LeadsTrans(s, s1, s2);
    LeadsTrans(s, s2, s');
    CalmParts(s, s1, s2, s', c, q);
  }

  lemma CalmParts(s: State, s1: State, s2: State, s': State, c: Client, q: QRef)
    requires Late(s, c, q) && Keeps(s, s1, c, q) && Keeps(s1, s2, c, q) && Keeps(s2, s', c, q) && Front(s.store, q).None?
    requires Answers(s1, c) == {} && Pushers(s2, c) == {} && MutexRests(s', c) && s'.pump.Select? && s'.ready.None?
    ensures Keeps(s, s', c, q) && Calm(s', c, q)
  {
    KeepsTrans(s, s1, s2, c, q);
    KeepsTrans(s, s2, s', c, q);
    KeepsLate(s, s', c, q);
    KeepsEmpty(s, s', c, q);
    KeepsAnswers(s1, s2, c, q);
    KeepsAnswers(s2, s', c, q);
    KeepsPushers(s2, s', c, q);
  }

  // ---- the disconnect gets its acknowledgement ----

  lemma DiscTurn(s: State, c: Client, q: QRef, d: Disc, reqC: seq<ReqTok>, s': State)
    requires Calm(s, c, q) && s' == s.(discs := s.discs[c := d], reqC := reqC) && (d.DSend? || d.DWait? || d.DClear?)
    ensures Calm(s', c, q)
  {
    assert Answers(s', c) == Answers(s, c) && Pushers(s', c) == Pushers(s, c);
  }

  lemma Acknowledged(s: State, c: Client, q: QRef) returns (s': State)
    requires Reachable(s) && Calm(s, c, q) && Lookup(s.discs, c).Some? && s.discs[c].DWait?
    ensures Leads(s, s') && Calm(s', c, q) && s'.reqC == [] && Lookup(s'.discs, c) == Some(DClear)
  {
    var s1 := DrainReqs(s, c, q);
    KeepsCalm(s, s1, c, q);
    ReachableThrough(s, s1);
    ReachableInv(s1);
    if s1.discs[c].DClear? {
      s' := s1;
    } else {
      s' := WaitsNoMore(s1, c, q);
      LeadsTrans(s, s1, s');
    }
  }

  /** With every token taken, a wait still open is for a generation that has ended. */
  lemma WaitsNoMore(s: State, c: Client, q: QRef) returns (s': State)
    requires DeleteOk(s) && Calm(s, c, q) && s.reqC == [] && s.discs[c].DWait?
    ensures Leads(s, s') && Calm(s', c, q) && s'.reqC == [] && Lookup(s'.discs, c) == Some(DClear)
  {
    assert OnlyTimeout(s, s.discs[c]) ==> TokenOnWay(s.reqC, s.pump, c);
    s' := s.(discs := s.discs[c := DClear]);
    OneStep(s, World(PeerStep(DiscStep(c))), s');
    DiscTurn(s, c, q, DClear, [], s');
  }

  lemma PostDelete(s: State, c: Client, q: QRef) returns (s': State)
    requires Calm(s, c, q) && s.reqC == [] && Lookup(s.discs, c) == Some(DSend)
    ensures Leads(s, s') && Calm(s', c, q) && Lookup(s'.discs, c) == Some(DWait(s.epoch.gen))
  {
    s' := s.(discs := s.discs[c := DWait(s.epoch.gen)], reqC := [ReqTok(c, true)]);
    OneStep(s, World(PeerStep(DiscStep(c))), s');
    DiscTurn(s, c, q, DWait(s.epoch.gen), [ReqTok(c, true)], s');
  }

  lemma LockDelete(s: State, c: Client, q: QRef) returns (s': State)
    requires Calm(s, c, q) && s.reqC == [] && Lookup(s.discs, c) == Some(DLock)
    ensures Leads(s, s') && Calm(s', c, q) && s'.reqC == [] && Lookup(s'.discs, c) == Some(DSend)
  {
    s' := s.(discs := s.discs[c := DSend]);
    OneStep(s, World(PeerStep(DiscStep(c))), s');
    DiscTurn(s, c, q, DSend, [], s');
  }

  /** The disconnect is brought to the point of clearing the pending slot. */
  lemma ReadyToClear(s: State, c: Client, q: QRef) returns (s': State)
    requires Reachable(s) && Calm(s, c, q) && s.reqC == []
    ensures Leads(s, s') && Calm(s', c, q) && s'.reqC == [] && Lookup(s'.discs, c) == Some(DClear)
  {
    var s1 := s;
    LeadsSelf(s);
    if s1.discs[c].DLock? {
      s1 := LockDelete(s, c, q);
    }
    var s2 := s1;
    if s1.discs[c].DSend? {
      s2 := PostDelete(s1, c, q);
      LeadsTrans(s, s1, s2);
    }
    if s2.discs[c].DWait? {
      ReachableThrough(s, s2);
      s' := Acknowledged(s2, c, q);
      LeadsTrans(s, s2, s');
    } else {
      s' := s2;
    }
  }
}
