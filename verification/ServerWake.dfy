/**
 No lost wake-up in the server dispatcher, kept by every ordered run: whenever
 a live queue has work and nothing is pending for its client, a usable wake-up
 is buffered, or a goroutine sits between its change and its signal, or the
 pump is already working for that client. Coalesced and dropped stale ready
 tokens do not break it.
 */
module ServerWake {
  import opened Basics
  import opened QueueStore
  import opened ServerStack
  import opened ServerTrace
  import opened ServerOwnership
  import opened ServerPhase
  import opened ServerDelete
  import opened ServerSection
  import opened ServerPending

  /** The pump will look at `c`'s queue again before it sleeps. */
  predicate Busy(p: Pump, loop: Loop, live: map<Client, QRef>, c: Client) {
    match p
    case ReqGet(x, ack) => x == c && (ack || c !in loop.ctxMap)
    case TimeoutPending(x, _, _) => x == c
    case TimeoutElse(x) => x == c
    case ReadyGet(x) => x == c
    case CompGet(x, _, why) => x == c && NoWrite(why)
    case CompPop(x, _, _, why) => x == c && NoWrite(why)
    case CompDelete(x, _, _) => x == c
    case WonGet(x, _) => x == c
    case GuardEmpty(x) => x == c && loop.rdy && loop.cq == Lookup(live, c)
    case GuardPending(x) => x == c
    case DispGet(x) => x == c
    case DispPeek(x, _) => x == c
    case DispAdd(x, _, _) => x == c
    case LoopGet(x) => x == c
    case LoopEmpty(x, _) => x == c
    case _ => false
  }

  /** A ready token for `r` will be taken, not dropped as stale. */
  predicate Usable(p: Pump, loop: Loop, r: Req) {
    r.client !in loop.disp || loop.disp[r.client] == r || (p.Record? && p.c == r.client)
  }

  /** A response for `c` has cleared the pending slot and its ready token is
      buffered or about to be. */
  predicate Answered(s: State, r: Req) {
    Usable(s.pump, s.loop, r) && (s.ready == Some(r) || StageIs(s, r, RespDeleted))
  }

  ghost predicate Covered(s: State, c: Client) {
    Busy(s.pump, s.loop, s.store.live, c) || exists r: Req :: r.client == c && Answered(s, r)
  }

  /** A request token for `c` is buffered, or its sender is about to send it. */
  ghost predicate Signalled(reqC: seq<ReqTok>, senders: map<Req, Sender>, c: Client) {
    || (exists i :: 0 <= i < |reqC| && reqC[i].c == c)
    || (exists r :: r in senders && r.client == c && (senders[r].pc.SLock? || senders[r].pc.SSend?))
  }

  /** The wake-up condition of one client. */
  ghost predicate WakeAt(s: State, c: Client) {
    c in s.store.live && s.running && c !in s.pending ==>
      || Covered(s, c) || Deleting(s.reqC, c)
      || (c !in s.loop.ctxMap && !(s.pump.Record? && s.pump.c == c) &&
          (Front(s.store, s.store.live[c]).Some? ==> Signalled(s.reqC, s.senders, c)))
  }

  /** While the pump works for a client it has no active context for it. */
  predicate NoCtxOk(p: Pump, loop: Loop) {
    match p
    case TimeoutPending(c, _, _) => c !in loop.ctxMap
    case TimeoutElse(c) => c !in loop.ctxMap
    case ReadyGet(c) => c !in loop.ctxMap
    case CompGet(c, _, why) => !why.ByCancel? ==> c !in loop.ctxMap
    case CompPop(c, _, _, why) => !why.ByCancel? ==> c !in loop.ctxMap
    case CompDelete(c, _, why) => !why.ByCancel? ==> c !in loop.ctxMap
    case WonGet(c, _) => c !in loop.ctxMap
    case GuardEmpty(c) => loop.rdy && loop.cq.Some? ==> c !in loop.ctxMap
    case GuardPending(c) => c !in loop.ctxMap
    case DispGet(c) => c !in loop.ctxMap
    case DispPeek(c, _) => c !in loop.ctxMap
    case DispAdd(c, _, _) => c !in loop.ctxMap
    case DispWrite(c, _, _) => c !in loop.ctxMap
    case LoopGet(c) => c !in loop.ctxMap
    case LoopEmpty(c, _) => c !in loop.ctxMap
    case _ => true
  }

  /** The pump is between AddPendingRequest and recording the dispatch. */
  predicate Dispatching(p: Pump, c: Client) {
    match p
    case DispWrite(x, _, _) => x == c
    case Record(x, _, _) => x == c
    case CompGet(x, _, why) => x == c && why.ByWriteError?
    case CompPop(x, _, _, why) => x == c && why.ByWriteError?
    case CompDelete(x, _, why) => x == c && why.ByWriteError?
    case _ => false
  }

  /** The recorded dispatched id of a live client is the pending one. */
  predicate DispOk(pending: map<Client, Req>, live: map<Client, QRef>, loop: Loop, p: Pump) {
    forall c :: c in pending && c in live ==> c !in loop.disp || loop.disp[c] == pending[c] || Dispatching(p, c)
  }

  predicate Recorded(loop: Loop, c: Client) { c in loop.ctxMap || c in loop.disp }

  /** The pump keeps records only for clients with a queue, until the delete
      token of a disconnect makes it forget them. */
  ghost predicate RecordsOk(s: State) {
    forall c :: Recorded(s.loop, c) && c !in s.store.live ==>
      RemovedPhase(s.discs, c) || !s.running || Deleting(s.reqC, c) || s.pump == ReqGet(c, true)
  }

  /** ... and none for a client whose disconnect waits since an earlier generation. */
  predicate StaleRecordsOk(discs: map<Client, Disc>, e: Epoch, loop: Loop) {
    forall c :: c in discs && discs[c].DWait? && discs[c].gen != e.gen ==> !Recorded(loop, c)
  }

  /** Every recorded or carried request belongs to the client it is kept for. */
  predicate ClientsOk(p: Pump, loop: Loop) {
    && (forall c :: c in loop.disp ==> loop.disp[c].client == c)
    && match p
       case TimeoutPending(c, rid, _) => rid.Some? ==> rid.value.client == c
       case CompGet(c, rid, _) => rid.Some? ==> rid.value.client == c
       case CompPop(c, _, rid, _) => rid.Some? ==> rid.value.client == c
       case CompDelete(c, r, _) => r.client == c
       case _ => true
  }

  ghost predicate SideInv(s: State) {
    && NoCtxOk(s.pump, s.loop) && ClientsOk(s.pump, s.loop)
    && DispOk(s.pending, s.store.live, s.loop, s.pump)
    && RecordsOk(s) && StaleRecordsOk(s.discs, s.epoch, s.loop)
  }

  // ---- the side conditions ----

  lemma RecordsOnArm(s: State, arm: Arm, s': State)
    requires RecordsOk(s) && ArmMove(s, arm, s')
    ensures RecordsOk(s')
  {
    forall c | Recorded(s'.loop, c) && c !in s'.store.live
      ensures RemovedPhase(s'.discs, c) || !s'.running || Deleting(s'.reqC, c) || s'.pump == ReqGet(c, true)
    {
      assert Recorded(s.loop, c);
      if arm.OnReq? && Deleting(s.reqC, c) { DeletingTaken(s.reqC, c); }
    }
  }

  lemma SideOnArm(s: State, arm: Arm, s': State)
    requires SideInv(s) && ArmMove(s, arm, s')
    ensures SideInv(s')
  {
    RecordsOnArm(s, arm, s');
  }

  lemma RecordsOnRoute(s: State, s': State)
    requires RecordsOk(s) && PumpRoutes(s, s')
    ensures RecordsOk(s')
  {
  }

  lemma SideOnRoute(s: State, s': State)
    requires SideInv(s) && PumpRoutes(s, s')
    ensures SideInv(s')
  {
    RecordsOnRoute(s, s');
  }

  lemma LoopOnComplete(s: State, s': State)
    requires NoCtxOk(s.pump, s.loop) && ClientsOk(s.pump, s.loop) && PumpCompletes(s, s')
    ensures NoCtxOk(s'.pump, s'.loop) && ClientsOk(s'.pump, s'.loop)
  {
  }

  lemma DispOnComplete(s: State, s': State)
    requires DispOk(s.pending, s.store.live, s.loop, s.pump) && PumpCompletes(s, s')
    ensures DispOk(s'.pending, s'.store.live, s'.loop, s'.pump)
  {
  }

  lemma SideOnComplete(s: State, s': State)
    requires SideInv(s) && PumpCompletes(s, s')
    ensures SideInv(s')
  {
    LoopOnComplete(s, s');
    DispOnComplete(s, s');
  }

  lemma RecordsOnDispatch(s: State, s': State)
    requires RecordsOk(s) && StaleRecordsOk(s.discs, s.epoch, s.loop) && PumpDispatches(s, s')
    requires SecOk(s.pump, Sees(s)) && StaleWaitOk(s.discs, s.epoch, s.pump)
    ensures RecordsOk(s') && StaleRecordsOk(s'.discs, s'.epoch, s'.loop)
  {
    if s.pump.Record? { assert Working(s.pump, s.pump.c); }
  }

  lemma SideOnDispatch(s: State, s': State)
    requires SideInv(s) && StoreInv(s) && SecInv(s) && PumpDispatches(s, s')
    ensures SideInv(s')
  {
    if s.pump.DispPeek? { assert QueueOk(s.store, s.pump.q); }
    RecordsOnDispatch(s, s');
  }

  lemma SideOnWrite(s: State, ok: bool, ctx: Option<Ctx>, s': State)
    requires SideInv(s) && SecOk(s.pump, Sees(s)) && WriteMove(s, ok, ctx, s')
    ensures SideInv(s')
  {
  }

  lemma SideOnDrain(s: State, s': State)
    requires SideInv(s) && PhaseInv(s) && PumpDrains(s, s')
    ensures SideInv(s')
  {
  }

  /** A queue created outside the window finds nothing pending. */
  lemma SideOnCreate(s: State, c: Client, q: QRef, s': State)
    requires SideInv(s) && PendingInv(s) && Creates(s, c, q, s') && (s.running ==> !InWindow(s.discs, c))
    ensures SideInv(s')
  {
  }

  lemma RecordsOnDisc(s: State, c: Client, s': State)
    requires RecordsOk(s) && StaleRecordsOk(s.discs, s.epoch, s.loop) && PhaseInv(s) && DeleteOk(s) && DiscMove(s, c, s')
    ensures RecordsOk(s') && StaleRecordsOk(s'.discs, s'.epoch, s'.loop)
  {
    if s.discs[c].DSend? {
      forall x | Deleting(s.reqC, x) { DeletingGrows(s.reqC, ReqTok(c, true), x); }
    }
    if s.discs[c].DWait? && s.discs[c].gen == s.epoch.gen { assert TokenOnWay(s.reqC, s.pump, c); }
  }

  lemma SideOnDisc(s: State, c: Client, s': State)
    requires SideInv(s) && PhaseInv(s) && DeleteOk(s) && DiscMove(s, c, s')
    ensures SideInv(s')
  {
    RecordsOnDisc(s, c, s');
  }

  lemma SideOnPeer(s: State, p: Peer, s': State)
    requires SideInv(s) && PhaseInv(s) && DeleteOk(s) && PendingInv(s) && PeerMove(s, p, s') && Ordered(s, PeerStep(p))
    ensures SideInv(s')
  {
    match p
    case CreateClient(c, q) => SideOnCreate(s, c, q, s');
    case DiscStep(c) => SideOnDisc(s, c, s');
    case _ =>
  }

  lemma SideOnReader(s: State, d: Reader, s': State)
    requires SideInv(s) && ReaderMove(s, d, s')
    ensures SideInv(s')
  {
  }

  // ---- the wake-up condition, client by client ----

  lemma WakeOnArm(s: State, arm: Arm, s': State, c: Client)
    requires SideInv(s) && WakeAt(s, c) && ArmMove(s, arm, s')
    ensures WakeAt(s', c)
  {
    if r: Req :| r.client == c && Answered(s, r) {
      assert Answered(s', r) || Busy(s'.pump, s'.loop, s'.store.live, c);
    }
    if arm.OnReq? && Deleting(s.reqC, c) { DeletingTaken(s.reqC, c); }
  }

  /** The pump never takes a request a response handler is completing. */
  lemma RouteKeepsAnswers(s: State, s': State, r: Req)
    requires OwnInv(s) && PumpRoutes(s, s') && StageIs(s, r, RespDeleted)
    ensures StageIs(s', r, RespDeleted)
  {
    if s.pump.WonGet? { assert Holds(s.pump, s.pump.r); }
  }

  lemma WakeOnRoute(s: State, s': State, c: Client)
    requires OwnInv(s) && SideInv(s) && WakeAt(s, c) && PumpRoutes(s, s')
    ensures WakeAt(s', c)
  {
    if r: Req :| r.client == c && Answered(s, r) {
      if StageIs(s, r, RespDeleted) { RouteKeepsAnswers(s, s', r); }
      assert Answered(s', r);
    }
  }

  lemma CompleteKeepsAnswers(s: State, s': State, r: Req)
    requires OwnInv(s) && PumpCompletes(s, s') && StageIs(s, r, RespDeleted)
    ensures StageIs(s', r, RespDeleted)
  {
    match s.pump
    case CompPop(_, q, rid, _) =>
      if rid.Some? && Front(s.store, q) == rid { ClaimPop(s.store, q, s.ledger.claim, rid.value, PumpHeld); }
    case CompDelete(_, x, _) => assert Holds(s.pump, x);
    case _ =>
  }

  lemma BusyOnComplete(s: State, s': State, c: Client)
    requires SecOk(s.pump, Sees(s)) && PumpCompletes(s, s') && c in s.store.live
    requires Busy(s.pump, s.loop, s.store.live, c)
    ensures Busy(s'.pump, s'.loop, s'.store.live, c)
  {
  }

  lemma AnsweredOnComplete(s: State, s': State, r: Req)
    requires OwnInv(s) && PumpCompletes(s, s') && Answered(s, r)
    ensures Answered(s', r)
  {
    if StageIs(s, r, RespDeleted) { CompleteKeepsAnswers(s, s', r); }
  }

  lemma CoveredOnComplete(s: State, s': State, c: Client)
    requires OwnInv(s) && SecOk(s.pump, Sees(s)) && Covered(s, c) && PumpCompletes(s, s') && c in s.store.live
    ensures Covered(s', c)
  {
    if Busy(s.pump, s.loop, s.store.live, c) { BusyOnComplete(s, s', c); }
    if r: Req :| r.client == c && Answered(s, r) { AnsweredOnComplete(s, s', r); }
  }

  /** Completing for one client adds no work, no context and no gap for another. */
  lemma IdleOnComplete(s: State, s': State, c: Client)
    requires SideInv(s) && PumpCompletes(s, s') && !Covered(s, c) && c in s.store.live
    ensures c !in s'.pending ==> c !in s.pending
    ensures c !in s.loop.ctxMap ==> c !in s'.loop.ctxMap
    ensures Front(s'.store, s'.store.live[c]).Some? ==> Front(s.store, s.store.live[c]).Some?
  {
  }

  lemma WakeOnComplete(s: State, s': State, c: Client)
    requires OwnInv(s) && SideInv(s) && SecOk(s.pump, Sees(s)) && WakeAt(s, c) && PumpCompletes(s, s')
    ensures WakeAt(s', c)
  {
    if c in s.store.live {
      if Covered(s, c) { CoveredOnComplete(s, s', c); } else { IdleOnComplete(s, s', c); }
    }
  }

  lemma WakeOnDispatch(s: State, s': State, c: Client)
    requires SideInv(s) && SecOk(s.pump, Sees(s)) && WakeAt(s, c) && PumpDispatches(s, s')
    ensures WakeAt(s', c)
  {
    if r: Req :| r.client == c && Answered(s, r) { assert c !in s'.pending ==> Answered(s', r); }
  }

  lemma WakeOnWrite(s: State, ok: bool, ctx: Option<Ctx>, s': State, c: Client)
    requires SecOk(s.pump, Sees(s)) && WakeAt(s, c) && WriteMove(s, ok, ctx, s')
    ensures WakeAt(s', c)
  {
    if r: Req :| r.client == c && Answered(s, r) { assert Answered(s', r); }
  }

  lemma SignalledGrows(reqC: seq<ReqTok>, senders: map<Req, Sender>, tok: ReqTok, c: Client)
    requires Signalled(reqC, senders, c) || tok.c == c
    ensures Signalled(reqC + [tok], senders, c)
  {
    if tok.c == c { assert (reqC + [tok])[|reqC|] == tok; }
    if i :| 0 <= i < |reqC| && reqC[i].c == c { assert (reqC + [tok])[i].c == c; }
  }

  lemma SignalledSends(s: State, r: Req, s': State, c: Client)
    requires Signalled(s.reqC, s.senders, c) && SendMove(s, r, s') && s'.running
    ensures Signalled(s'.reqC, s'.senders, c)
  {
    if s.senders[r].pc.SSend? {
      if x :| x in s.senders && x != r && x.client == c && (s.senders[x].pc.SLock? || s.senders[x].pc.SSend?) {
        assert x in s'.senders && s'.senders[x] == s.senders[x];
        assert Signalled(s.reqC, s'.senders, c);
      } 
      assert Signalled(s.reqC, s'.senders, c) || r.client == c;
      SignalledGrows(s.reqC, s'.senders, ReqTok(r.client, false), c);
    } else if x :| x in s.senders && x.client == c && (s.senders[x].pc.SLock? || s.senders[x].pc.SSend?) {
      assert x in s'.senders && (s'.senders[x].pc.SLock? || s'.senders[x].pc.SSend?);
    }
  }

  lemma WakeOnPush(s: State, r: Req, s': State, c: Client)
    requires StoreInv(s) && WakeAt(s, c) && SendMove(s, r, s') && s.senders[r].pc.SPush?
    ensures WakeAt(s', c)
  {
    if x: Req :| x.client == c && Answered(s, x) { assert Answered(s', x); }
    if Signalled(s.reqC, s.senders, c) && s'.running { SignalledSends(s, r, s', c); }
    if !Full(s.store, s.senders[r].pc.q) { assert s'.senders[r].pc.SLock?; }
  }

  lemma WakeOnSend(s: State, r: Req, s': State, c: Client)
    requires StoreInv(s) && WakeAt(s, c) && SendMove(s, r, s')
    ensures WakeAt(s', c)
  {
    if s.senders[r].pc.SPush? {
      WakeOnPush(s, r, s', c);
    } else {
      if x: Req :| x.client == c && Answered(s, x) { assert Answered(s', x); }
      if Signalled(s.reqC, s.senders, c) && s'.running { SignalledSends(s, r, s', c); }
      if Deleting(s.reqC, c) && s.senders[r].pc.SSend? { DeletingGrows(s.reqC, ReqTok(r.client, false), c); }
    }
  }

  lemma WakeOnCreate(s: State, x: Client, q: QRef, s': State, c: Client)
    requires SideInv(s) && SecOk(s.pump, Sees(s)) && WakeAt(s, c) && Creates(s, x, q, s') && (s.running ==> !InWindow(s.discs, x))
    ensures WakeAt(s', c)
  {
    if r: Req :| r.client == c && Answered(s, r) { assert Answered(s', r); }
  }

  lemma WakeOnDisc(s: State, x: Client, s': State, c: Client)
    requires RemovedOk(s.discs, s.store.live) && WakeAt(s, c) && DiscMove(s, x, s')
    ensures WakeAt(s', c)
  {
    if r: Req :| r.client == c && Answered(s, r) { assert Answered(s', r); }
    if s.discs[x].DSend? && Signalled(s.reqC, s.senders, c) { SignalledGrows(s.reqC, s.senders, ReqTok(x, true), c); }
    if s.discs[x].DSend? && Deleting(s.reqC, c) { DeletingGrows(s.reqC, ReqTok(x, true), c); }
  }

  lemma WakeOnPeer(s: State, p: Peer, s': State, c: Client)
    requires SideInv(s) && SecInv(s) && WakeAt(s, c) && PeerMove(s, p, s') && Ordered(s, PeerStep(p))
    ensures WakeAt(s', c)
  {
    match p
    case CreateClient(x, q) => WakeOnCreate(s, x, q, s', c);
    case DiscStep(x) => WakeOnDisc(s, x, s', c);
    case _ => if r: Req :| r.client == c && Answered(s, r) { assert Answered(s', r); }
  }

  lemma WakeOnCompleter(s: State, t: nat, s': State, c: Client)
    requires OwnInv(s) && WakeAt(s, c) && CompleterMove(s, t, s')
    ensures WakeAt(s', c)
  {
    var Completer(r, q) := s.completers[t];
    if q.Some? && Front(s.store, q.value) == Some(r) { ClaimPop(s.store, q.value, s.ledger.claim, r, RespPopped); }
    if x: Req :| x.client == c && Answered(s, x) { assert Answered(s', x); }
  }

  /** A request that left its queue is not the one being written. */
  lemma NotBeingWritten(p: Pump, v: View, r: Req)
    requires SecOk(p, v) && StoreOk(v.st) && Taken(v.st, r)
    requires r.client in v.st.live && Lookup(v.pending, r.client) == Some(r)
    ensures !(p.DispWrite? && p.c == r.client)
  {
    if p.DispWrite? { assert QueueOk(v.st, p.q); }
  }

  /** The slot is cleared by the answer of the request that held it, and its
      ready token will not be dropped. */
  lemma AnswerIsUsable(s: State, r: Req, s': State)
    requires OwnInv(s) && SideInv(s) && SecOk(s.pump, Sees(s)) && RespDeletes(s, r, s')
    requires r.client in s.store.live && Lookup(s.pending, r.client) == Some(r)
    ensures Covered(s', r.client)
  {
    NotBeingWritten(s.pump, Sees(s), r);
    if Usable(s.pump, s.loop, r) { assert Answered(s', r); }
  }

  lemma WakeOnRespDelete(s: State, r: Req, s': State, c: Client)
    requires OwnInv(s) && SideInv(s) && SecOk(s.pump, Sees(s)) && WakeAt(s, c) && RespDeletes(s, r, s')
    ensures WakeAt(s', c)
  {
    if r.client == c && Lookup(s.pending, c) == Some(r) && c in s.store.live {
      AnswerIsUsable(s, r, s');
    } else if x: Req :| x.client == c && Answered(s, x) {
      assert Answered(s', x);
    }
  }

  lemma WakeOnRespSignal(s: State, r: Req, s': State, c: Client)
    requires WakeAt(s, c) && RespSignals(s, r, s')
    ensures WakeAt(s', c)
  {
    if x: Req :| x.client == c && Answered(s, x) { assert Answered(s', x); }
  }

  lemma WakeOnDequeue(s: State, r: Req, s': State, c: Client)
    requires WakeAt(s, c) && Dequeues(s, r, s')
    ensures WakeAt(s', c)
  {
    if x: Req :| x.client == c && Answered(s, x) { assert Answered(s', x); }
  }

  lemma WakeOnPump(s: State, p: PumpStep, s': State, c: Client)
    requires OwnInv(s) && PhaseInv(s) && SecInv(s) && SideInv(s) && WakeAt(s, c) && PumpNext(s, p, s')
    ensures WakeAt(s', c)
  {
    match p
    case Selects(arm) => WakeOnArm(s, arm, s', c);
    case Route => WakeOnRoute(s, s', c);
    case Complete => WakeOnComplete(s, s', c);
    case Dispatch => WakeOnDispatch(s, s', c);
    case Write(ok, ctx) => WakeOnWrite(s, ok, ctx, s', c);
    case _ =>
  }

  lemma WakeOnReader(s: State, d: Reader, s': State, c: Client)
    requires OwnInv(s) && SecInv(s) && SideInv(s) && WakeAt(s, c) && ReaderMove(s, d, s')
    ensures WakeAt(s', c)
  {
    match d
    case Respond(_, _) => if x: Req :| x.client == c && Answered(s, x) { assert Answered(s', x); }
    case CompStep(t) => WakeOnCompleter(s, t, s', c);
    case RespDelete(r) => WakeOnRespDelete(s, r, s', c);
    case RespSignal(r) => WakeOnRespSignal(s, r, s', c);
  }

  lemma WakeOnBegin(s: State, r: Req, facade: bool, s': State, c: Client)
    requires WakeAt(s, c) && SendBegins(s, r, facade, s')
    ensures WakeAt(s', c)
  {
    if x: Req :| x.client == c && Answered(s, x) { assert Answered(s', x); }
    if x :| x in s.senders && x.client == c && (s.senders[x].pc.SLock? || s.senders[x].pc.SSend?) {
      assert x in s'.senders && s'.senders[x] == s.senders[x];
    }
  }

  lemma WakeOnStart(s: State, s': State, c: Client)
    requires PhaseInv(s) && StartMove(s, s')
    ensures WakeAt(s', c)
  {
  }

  lemma WakeOnWorld(s: State, w: WorldStep, s': State, c: Client)
    requires OwnInv(s) && PhaseInv(s) && SecInv(s) && SideInv(s) && WakeAt(s, c) && WorldNext(s, w, s') && Ordered(s, w)
    ensures WakeAt(s', c)
  {
    match w
    case SendStart(r, f) => WakeOnBegin(s, r, f, s', c);
    case SendStep(r) => WakeOnSend(s, r, s', c);
    case PeerStep(p) => WakeOnPeer(s, p, s', c);
    case ReaderStep(d) => WakeOnReader(s, d, s', c);
    case Dequeue(r) => WakeOnDequeue(s, r, s', c);
    case Happens(_) => if x: Req :| x.client == c && Answered(s, x) { assert Answered(s', x); }
    case StopStep => if x: Req :| x.client == c && Answered(s, x) { assert Answered(s', x); }
    case StartStep => WakeOnStart(s, s', c);
  }

  lemma SideOnPump(s: State, p: PumpStep, s': State)
    requires StoreInv(s) && PhaseInv(s) && SecInv(s) && SideInv(s) && PumpNext(s, p, s')
    ensures SideInv(s')
  {
    match p
    case Selects(arm) => SideOnArm(s, arm, s');
    case Route => SideOnRoute(s, s');
    case Complete => SideOnComplete(s, s');
    case Dispatch => SideOnDispatch(s, s');
    case Write(ok, ctx) => SideOnWrite(s, ok, ctx, s');
    case DrainOn => SideOnDrain(s, s');
    case Takes(_) =>
  }

  lemma SideOnStop(s: State, s': State)
    requires SideInv(s) && StopMove(s, s')
    ensures SideInv(s')
  {
  }

  lemma SideOnSend(s: State, r: Req, s': State)
    requires SideInv(s) && SendMove(s, r, s')
    ensures SideInv(s')
  {
    if s.senders[r].pc.SSend? {
      forall x | Deleting(s.reqC, x) { DeletingGrows(s.reqC, ReqTok(r.client, false), x); }
    }
  }

  lemma SideOnStart(s: State, s': State)
    requires SideInv(s) && PhaseInv(s) && StartMove(s, s')
    ensures SideInv(s')
  {
  }

  lemma SideOnWorld(s: State, w: WorldStep, s': State)
    requires PhaseInv(s) && DeleteOk(s) && PendingInv(s) && SideInv(s) && WorldNext(s, w, s') && Ordered(s, w)
    ensures SideInv(s')
  {
    match w
    case SendStep(r) => SideOnSend(s, r, s');
    case PeerStep(p) => SideOnPeer(s, p, s');
    case ReaderStep(d) => SideOnReader(s, d, s');
    case StopStep => SideOnStop(s, s');
    case StartStep => SideOnStart(s, s');
    case _ =>
  }

  /** If a live queue has work and nothing is pending, something will wake the
      pump for it: a usable token, a goroutine about to post one, or the pump. */
  lemma NoLostWakeUp(s: State, c: Client)
    requires WakeAt(s, c) && s.running && c in s.store.live
    requires c !in s.pending && Front(s.store, s.store.live[c]).Some?
    ensures Covered(s, c) || Deleting(s.reqC, c) || (c !in s.loop.ctxMap && Signalled(s.reqC, s.senders, c))
  {
  }

  // ---- over runs ----

  ghost predicate AwakeInv(s: State, c: Client) { SlotInv(s) && DeletionInv(s) && SideInv(s) && WakeAt(s, c) }

  lemma SideStep(s: State, l: Step, s': State)
    requires SlotInv(s) && DeletionInv(s) && SideInv(s) && Next(s, l, s') && OrderedStep(s, l)
    ensures SideInv(s')
  {
    match l
    case Pumps(p) => SideOnPump(s, p, s');
    case World(w) => SideOnWorld(s, w, s');
  }

  lemma AwakeStep(s: State, l: Step, s': State, c: Client)
    requires AwakeInv(s, c) && Next(s, l, s') && OrderedStep(s, l)
    ensures AwakeInv(s', c)
  {
    SlotStep(s, l, s');
    DeletionStep(s, l, s');
    SideStep(s, l, s');
    match l
    case Pumps(p) => WakeOnPump(s, p, s', c);
    case World(w) => WakeOnWorld(s, w, s', c);
  }

  /** Holds of every client in every state of every ordered run. */
  lemma {:induction false} AwakeRun(run: Run, i: nat, c: Client)
    requires IsOrderedRun(run) && i < |run.states|
    ensures AwakeInv(run.states[i], c)
  {
    if i > 0 {
      AwakeRun(run, i - 1, c);
      AwakeStep(run.states[i - 1], run.steps[i - 1], run.states[i], c);
    }
  }

  lemma WakeUpInRun(run: Run, i: nat, c: Client)
    requires IsOrderedRun(run) && i < |run.states|
    requires run.states[i].running && c in run.states[i].store.live && c !in run.states[i].pending
    requires Front(run.states[i].store, run.states[i].store.live[c]).Some?
    ensures Covered(run.states[i], c) || Deleting(run.states[i].reqC, c) ||
            (c !in run.states[i].loop.ctxMap && Signalled(run.states[i].reqC, run.states[i].senders, c))
  {
    AwakeRun(run, i, c);
    NoLostWakeUp(run.states[i], c);
  }
}
