/**
 Mutual exclusion of dispatching, kept by every ordered run: while the pump is
 inside the dispatch of one client it owns that client's pending slot, and a
 request that was written and not completed owns it too. This is what makes
 "at most one outstanding CALL" and "written once, in push order" hold.
 */
module ServerSection {
  import opened Basics
  import opened QueueStore
  import opened ServerStack
  import opened ServerTrace
  import opened ServerOwnership
  import opened ServerPhase

  /** The client's queue was taken out of the map and cannot come back while
      the pump works on this client. */
  predicate Gone(live: map<Client, QRef>, discs: map<Client, Disc>, running: bool, c: Client) {
    c !in live && (RemovedPhase(discs, c) || !running)
  }

  /** The columns the dispatch section is about. */
  datatype View = View(st: Store, pending: map<Client, Req>, discs: map<Client, Disc>, running: bool, wired: set<Req>)

  function Sees(s: State): View { View(s.store, s.pending, s.discs, s.running, s.wired) }

  predicate GoneIn(v: View, c: Client) { Gone(v.st.live, v.discs, v.running, c) }

  /** Nothing is pending, or the disconnect that took the queue will clear it. */
  predicate ClearAt(v: View, c: Client) {
    c !in v.pending || (c !in v.st.live && (InWindow(v.discs, c) || !v.running))
  }

  predicate FreeAt(v: View, c: Client, q: QRef) { (Lookup(v.st.live, c) == Some(q) && c !in v.pending) || GoneIn(v, c) }

  predicate HeldAt(v: View, c: Client, q: QRef, r: Req) {
    (Lookup(v.st.live, c) == Some(q) && Lookup(v.pending, c) == Some(r)) || GoneIn(v, c)
  }

  predicate Only(v: View, c: Client, r: Req) { (c in v.pending ==> v.pending[c] == r) || GoneIn(v, c) }

  /** `r` heads queue `q` of its client and was never written. */
  predicate NextUp(v: View, c: Client, q: QRef, r: Req) {
    RefOk(v.st, q, c) && Front(v.st, q) == Some(r) && r.client == c && r !in v.wired
  }

  /** The completion of a request that was not written. */
  predicate CompOk(v: View, c: Client, q: QRef, r: Req, why: Why) {
    && NextUp(v, c, q, r)
    && (why.ByDrop? ==> FreeAt(v, c, q))
    && (why.ByWriteError? ==> HeldAt(v, c, q, r))
  }

  /** What the pump owns at each point of dispatchNextRequest. */
  predicate SecOk(p: Pump, v: View) {
    match p
    case DispGet(c) => ClearAt(v, c)
    case LoopGet(c) => ClearAt(v, c)
    case LoopEmpty(c, q) => FreeAt(v, c, q)
    case DispPeek(c, q) =>
      && FreeAt(v, c, q) && RefOk(v.st, q, c)
      && (Front(v.st, q).Some? ==> Front(v.st, q).value !in v.wired)
    case DispAdd(c, q, r) => FreeAt(v, c, q) && NextUp(v, c, q, r)
    case DispWrite(c, q, r) => HeldAt(v, c, q, r) && NextUp(v, c, q, r)
    case Record(c, r, _) =>
      && r in v.st.home && r.client == c
      && ((Lookup(v.st.live, c) == Some(v.st.home[r].q) && (c in v.pending ==> v.pending[c] == r)) || GoneIn(v, c))
    case CompGet(c, rid, why) => NoWrite(why) ==> rid.Some? && rid.value in v.st.home && CompOk(v, c, v.st.home[rid.value].q, rid.value, why)
    case CompPop(c, q, rid, why) => NoWrite(why) ==> rid.Some? && CompOk(v, c, q, rid.value, why)
    case CompDelete(c, r, why) => NoWrite(why) ==> r.client == c && Only(v, c, r)
    case _ => true
  }

  /** A written request still in its client's live queue holds the pending slot. */
  ghost predicate WireOk(wired: set<Req>, st: Store, pending: map<Client, Req>) {
    forall r :: r in wired ==>
      && r in st.home
      && (!Taken(st, r) && Lookup(st.live, r.client) == Some(st.home[r].q) ==> Lookup(pending, r.client) == Some(r))
  }

  predicate CompletersOk(completers: map<nat, Completer>, wired: set<Req>) {
    forall t :: t in completers ==> completers[t].r in wired
  }

  predicate SentOk(sent: set<Req>, wired: set<Req>, connected: set<Client>) {
    forall r :: r in sent ==> r in wired && r.client in connected
  }

  /** Inside the window the client has no queue. */
  predicate RemovedOk(discs: map<Client, Disc>, live: map<Client, QRef>) {
    forall c :: c in discs && InWindow(discs, c) ==> c !in live
  }

  /** A disconnect that waits since an earlier generation: this pump never worked for it. */
  predicate StaleWaitOk(discs: map<Client, Disc>, e: Epoch, p: Pump) {
    forall c :: c in discs && discs[c].DWait? && discs[c].gen != e.gen ==> !Working(p, c)
  }

  predicate InSection(p: Pump, c: Client) { (p.DispPeek? || p.DispAdd? || p.DispWrite?) && p.c == c }

  /** Where an outstanding CALL can be. */
  predicate PlaceOk(st: Store, pump: Pump, running: bool, r: Req) {
    || (r in st.home && Lookup(st.live, r.client) == Some(st.home[r].q))
    || (r.client !in st.live && !running && !InSection(pump, r.client))
  }

  predicate AloneOk(sent: set<Req>, claim: map<Req, Stage>, st: Store, pump: Pump, running: bool) {
    forall r :: r in sent && r !in claim ==> PlaceOk(st, pump, running, r)
  }

  ghost predicate SecInv(s: State) {
    && CompletersOk(s.completers, s.wired) && SentOk(s.sent, s.wired, s.connected) && RemovedOk(s.discs, s.store.live)
    && StaleWaitOk(s.discs, s.epoch, s.pump)
    && WireOk(s.wired, s.store, s.pending) && SecOk(s.pump, Sees(s))
    && AloneOk(s.sent, s.ledger.claim, s.store, s.pump, s.running) && OneOutstanding(s.sent, s.ledger.claim)
  }

  // ---- single clauses under single updates ----

  lemma WirePop(wired: set<Req>, st: Store, pending: map<Client, Req>, q: QRef)
    requires WireOk(wired, st, pending) && StoreOk(st) && Front(st, q).Some?
    ensures WireOk(wired, Pop(st, q), pending)
  {
    PopOk(st, q);
  }

  lemma WireUnpend(wired: set<Req>, st: Store, pending: map<Client, Req>, r: Req)
    requires WireOk(wired, st, pending) && Taken(st, r)
    ensures WireOk(wired, st, WithoutPending(pending, r))
  {
  }

  lemma WirePush(wired: set<Req>, st: Store, pending: map<Client, Req>, q: QRef, r: Req)
    requires WireOk(wired, st, pending) && StoreOk(st) && r !in st.home && q in st.queues
    ensures WireOk(wired, Push(st, q, r), pending)
  {
    forall x { PushTakes(st, q, r, x); }
  }

  lemma WireCreate(wired: set<Req>, st: Store, pending: map<Client, Req>, c: Client, q: QRef)
    requires WireOk(wired, st, pending) && StoreOk(st) && q !in st.queues
    ensures WireOk(wired, GetOrCreate(st, c, q), pending)
  {
    CreateOk(st, c, q);
    assert forall r :: r in wired ==> HomeOk(st, r);
  }

  lemma WireWrote(wired: set<Req>, st: Store, pending: map<Client, Req>, q: QRef, r: Req)
    requires WireOk(wired, st, pending) && StoreOk(st) && q in st.queues && r in st.home
    requires Lookup(st.live, r.client) == Some(st.home[r].q) ==> Lookup(pending, r.client) == Some(r)
    ensures WireOk(wired + {r}, Wrote(st, q, r), pending)
  {
    WroteOk(st, q, r);
  }

  lemma AloneKeeps(sent: set<Req>, claim: map<Req, Stage>, claim': map<Req, Stage>, st: Store, st': Store, p: Pump, p': Pump, running: bool)
    requires AloneOk(sent, claim, st, p, running) && claim.Keys <= claim'.Keys
    requires st'.live == st.live && st'.home == st.home && (forall c :: InSection(p', c) ==> InSection(p, c))
    ensures AloneOk(sent, claim', st', p', running)
  {
    assert forall r :: r in claim ==> r in claim'.Keys;
  }

  lemma OneKeeps(sent: set<Req>, claim: map<Req, Stage>, claim': map<Req, Stage>)
    requires OneOutstanding(sent, claim) && claim.Keys <= claim'.Keys
    ensures OneOutstanding(sent, claim')
  {
    assert forall r :: r in claim ==> r in claim'.Keys;
  }

  // ---- the pump ----

  lemma SecOnArm(s: State, arm: Arm, s': State)
    requires SecInv(s) && ArmMove(s, arm, s')
    ensures SecInv(s')
  {
  }

  lemma SecOnRoute(s: State, s': State)
    requires SecInv(s) && PumpRoutes(s, s')
    ensures SecInv(s')
  {
    AloneKeeps(s.sent, s.ledger.claim, s'.ledger.claim, s.store, s.store, s.pump, s'.pump, s.running);
    OneKeeps(s.sent, s.ledger.claim, s'.ledger.claim);
  }

  lemma SectionCompletes(s: State, s': State)
    requires SecOk(s.pump, Sees(s)) && PumpCompletes(s, s')
    ensures SecOk(s'.pump, Sees(s'))
  {
  }

  lemma WireCompletes(s: State, s': State)
    requires OwnInv(s) && WireOk(s.wired, s.store, s.pending) && PumpCompletes(s, s')
    ensures WireOk(s'.wired, s'.store, s'.pending)
  {
    match s.pump
    case CompPop(_, q, rid, _) => if rid.Some? && Front(s.store, q) == rid { WirePop(s.wired, s.store, s.pending, q); }
    case CompDelete(_, r, _) =>
      assert Holds(s.pump, r);
      WireUnpend(s.wired, s.store, s.pending, r);
    case _ =>
  }

  /** What a completion on the pump leaves alone. */
  lemma LeavesSection(s: State, s': State)
    requires PumpCompletes(s, s')
    ensures forall c :: !InSection(s'.pump, c) && (Working(s'.pump, c) ==> Working(s.pump, c))
  {
  }

  /** A pump move that frees nothing and adds no outstanding CALL. */
  lemma SecKeeps(s: State, s': State)
    requires SecInv(s) && WireOk(s'.wired, s'.store, s'.pending) && SecOk(s'.pump, Sees(s'))
    requires s' == s.(pump := s'.pump, loop := s'.loop, store := s'.store, ledger := s'.ledger, pending := s'.pending)
    requires s'.store.live == s.store.live && s'.store.home == s.store.home && s.ledger.claim.Keys <= s'.ledger.claim.Keys
    requires forall c :: !InSection(s'.pump, c) && (Working(s'.pump, c) ==> Working(s.pump, c))
    ensures SecInv(s')
  {
    AloneKeeps(s.sent, s.ledger.claim, s'.ledger.claim, s.store, s'.store, s.pump, s'.pump, s.running);
    OneKeeps(s.sent, s.ledger.claim, s'.ledger.claim);
  }

  lemma SecOnComplete(s: State, s': State)
    requires OwnInv(s) && SecInv(s) && PumpCompletes(s, s')
    ensures SecInv(s')
  {
    SectionCompletes(s, s');
    WireCompletes(s, s');
    CompletesFrame(s, s');
    LeavesSection(s, s');
    SecKeeps(s, s');
  }

  lemma SectionDispatches(s: State, s': State)
    requires StoreInv(s) && SecOk(s.pump, Sees(s)) && WireOk(s.wired, s.store, s.pending) && PumpDispatches(s, s')
    ensures SecOk(s'.pump, Sees(s'))
  {
  }

  lemma SecOnDispatch(s: State, s': State)
    requires StoreInv(s) && SecInv(s) && PumpDispatches(s, s')
    ensures SecInv(s')
  {
    SectionDispatches(s, s');
  }

  /** When the write succeeds no other CALL of this client is outstanding. */
  lemma NoneOutstanding(s: State, x: Req)
    requires StoreInv(s) && PhaseInv(s) && SecInv(s) && ClaimOk(s.store, s.ledger.claim)
    requires s.pump.DispWrite? && s.pump.c in s.connected && x.client == s.pump.c
    ensures x in s.sent ==> x in s.ledger.claim
  {
    if x in s.sent && x !in s.ledger.claim {
      assert PlaceOk(s.store, s.pump, s.running, x);
      assert InSection(s.pump, x.client);
    }
  }

  lemma OneWrites(s: State, ctx: Option<Ctx>, s': State)
    requires OwnInv(s) && PhaseInv(s) && SecInv(s) && WriteMove(s, true, ctx, s')
    ensures OneOutstanding(s'.sent, s'.ledger.claim)
  {
    forall x: Req | x.client == s.pump.c ensures x in s.sent ==> x in s.ledger.claim { NoneOutstanding(s, x); }
  }

  lemma AloneWrites(s: State, ctx: Option<Ctx>, s': State)
    requires StoreInv(s) && PhaseInv(s) && SecInv(s) && WriteMove(s, true, ctx, s')
    ensures AloneOk(s'.sent, s'.ledger.claim, s'.store, s'.pump, s'.running)
  {
    assert QueueOk(s.store, s.pump.q);
  }

  lemma SectionWrites(s: State, ok: bool, ctx: Option<Ctx>, s': State)
    requires StoreOk(s.store) && SecOk(s.pump, Sees(s)) && WriteMove(s, ok, ctx, s')
    ensures SecOk(s'.pump, Sees(s'))
  {
    assert QueueOk(s.store, s.pump.q);
  }

  lemma WireWrites(s: State, ctx: Option<Ctx>, s': State)
    requires StoreInv(s) && SecInv(s) && WriteMove(s, true, ctx, s')
    ensures WireOk(s'.wired, s'.store, s'.pending)
  {
    assert QueueOk(s.store, s.pump.q);
    WireWrote(s.wired, s.store, s.pending, s.pump.q, s.pump.r);
  }

  lemma SecOnWritten(s: State, ctx: Option<Ctx>, s': State)
    requires OwnInv(s) && PhaseInv(s) && SecInv(s) && WriteMove(s, true, ctx, s')
    ensures SecInv(s')
  {
    SectionWrites(s, true, ctx, s');
    WireWrites(s, ctx, s');
    AloneWrites(s, ctx, s');
    OneWrites(s, ctx, s');
  }

  lemma SecOnWrite(s: State, ok: bool, ctx: Option<Ctx>, s': State)
    requires OwnInv(s) && PhaseInv(s) && SecInv(s) && WriteMove(s, ok, ctx, s')
    ensures SecInv(s')
  {
    if ok { SecOnWritten(s, ctx, s'); }
    else {
      SectionWrites(s, false, ctx, s');
      SecKeeps(s, s');
    }
  }

  lemma SecOnDrain(s: State, s': State)
    requires PhaseInv(s) && SecInv(s) && PumpDrains(s, s')
    ensures SecInv(s')
  {
  }

  lemma SecOnTakes(s: State, c: Client, s': State)
    requires OwnInv(s) && SecInv(s) && DrainMove(s, c, s')
    ensures SecInv(s')
  {
    assert Todo(s.pump) == s.pump.todo;
    DrainOk(s.store, s.pump.todo[c]);
  }

  lemma SecOnPump(s: State, p: PumpStep, s': State)
    requires OwnInv(s) && PhaseInv(s) && SecInv(s) && PumpNext(s, p, s')
    ensures SecInv(s')
  {
    match p
    case Selects(arm) => SecOnArm(s, arm, s');
    case Route => SecOnRoute(s, s');
    case Complete => SecOnComplete(s, s');
    case Dispatch => SecOnDispatch(s, s');
    case Write(ok, ctx) => SecOnWrite(s, ok, ctx, s');
    case DrainOn => SecOnDrain(s, s');
    case Takes(c) => SecOnTakes(s, c, s');
  }

  // ---- everybody else ----

  lemma SectionPush(p: Pump, v: View, q: QRef, r: Req)
    requires SecOk(p, v) && StoreOk(v.st) && r !in v.st.home && RefOk(v.st, q, r.client) && r !in v.wired
    ensures SecOk(p, v.(st := Push(v.st, q, r)))
  {
    if Completing(p) { CompletionPush(p, v, q, r); }
  }

  lemma CompletionPush(p: Pump, v: View, q: QRef, r: Req)
    requires Completing(p) && SecOk(p, v) && StoreOk(v.st) && r !in v.st.home && RefOk(v.st, q, r.client)
    ensures SecOk(p, v.(st := Push(v.st, q, r)))
  {
  }

  lemma SectionPop(p: Pump, v: View, q: QRef, r: Req)
    requires SecOk(p, v) && StoreOk(v.st) && Front(v.st, q) == Some(r) && r in v.wired
    ensures SecOk(p, v.(st := Pop(v.st, q)))
  {
  }

  lemma SecOnSend(s: State, r: Req, s': State)
    requires OwnInv(s) && SecInv(s) && SendMove(s, r, s')
    ensures SecInv(s')
  {
    if s.senders[r].pc.SPush? && !Full(s.store, s.senders[r].pc.q) {
      var q := s.senders[r].pc.q;
      WirePush(s.wired, s.store, s.pending, q, r);
      SectionPush(s.pump, Sees(s), q, r);
    }
  }

  lemma SecOnCompleter(s: State, t: nat, s': State)
    requires OwnInv(s) && SecInv(s) && CompleterMove(s, t, s')
    ensures SecInv(s')
  {
    var Completer(r, q) := s.completers[t];
    if q.Some? && Front(s.store, q.value) == Some(r) {
      WirePop(s.wired, s.store, s.pending, q.value);
      SectionPop(s.pump, Sees(s), q.value, r);
      AloneKeeps(s.sent, s.ledger.claim, s'.ledger.claim, s.store, s'.store, s.pump, s.pump, s.running);
      OneKeeps(s.sent, s.ledger.claim, s'.ledger.claim);
    }
  }

  /** `r` has left its queue, so the pump is not dispatching it. */
  lemma SectionUnpend(p: Pump, v: View, r: Req)
    requires SecOk(p, v) && StoreOk(v.st) && Taken(v.st, r)
    ensures SecOk(p, v.(pending := WithoutPending(v.pending, r)))
  {
    if p.DispWrite? { assert QueueOk(v.st, p.q); }
  }

  lemma SecOnRespDelete(s: State, r: Req, s': State)
    requires OwnInv(s) && SecInv(s) && RespDeletes(s, r, s')
    ensures SecInv(s')
  {
    WireUnpend(s.wired, s.store, s.pending, r);
    SectionUnpend(s.pump, Sees(s), r);
    AloneKeeps(s.sent, s.ledger.claim, s'.ledger.claim, s.store, s.store, s.pump, s.pump, s.running);
    OneKeeps(s.sent, s.ledger.claim, s'.ledger.claim);
  }

  lemma SecOnRespSignal(s: State, r: Req, s': State)
    requires SecInv(s) && RespSignals(s, r, s')
    ensures SecInv(s')
  {
    AloneKeeps(s.sent, s.ledger.claim, s'.ledger.claim, s.store, s.store, s.pump, s.pump, s.running);
    OneKeeps(s.sent, s.ledger.claim, s'.ledger.claim);
  }

  lemma SecOnReader(s: State, d: Reader, s': State)
    requires OwnInv(s) && SecInv(s) && ReaderMove(s, d, s')
    ensures SecInv(s')
  {
    match d
    case Respond(_, _) =>
    case CompStep(t) => SecOnCompleter(s, t, s');
    case RespDelete(r) => SecOnRespDelete(s, r, s');
    case RespSignal(r) => SecOnRespSignal(s, r, s');
  }

  lemma SecOnDequeue(s: State, r: Req, s': State)
    requires SecInv(s) && Dequeues(s, r, s')
    ensures SecInv(s')
  {
    AloneKeeps(s.sent, s.ledger.claim, s'.ledger.claim, s.store, s.store, s.pump, s.pump, s.running);
    OneKeeps(s.sent, s.ledger.claim, s'.ledger.claim);
  }

  lemma SectionDisc(p: Pump, v: View, c: Client, d: Disc)
    requires SecOk(p, v) && (InWindow(v.discs, c) ==> InWindow(v.discs[c := d], c))
    requires RemovedPhase(v.discs, c) ==> !v.running || d.DLock? || d.DSend? || d.DWait? || !Working(p, c)
    ensures SecOk(p, v.(discs := v.discs[c := d]))
  {
  }

  lemma SectionRemove(p: Pump, v: View, c: Client)
    requires SecOk(p, v)
    ensures SecOk(p, v.(discs := v.discs[c := DLock], st := Remove(v.st, c)))
  {
  }

  lemma SectionClear(p: Pump, v: View, c: Client)
    requires SecOk(p, v) && c !in v.st.live && !RemovedPhase(v.discs, c)
    ensures SecOk(p, v.(discs := v.discs[c := DDrain], pending := v.pending - {c}))
  {
  }

  lemma SecOnDisconnect(s: State, c: Client, s': State)
    requires PhaseInv(s) && SecInv(s) && Disconnects(s, c, s')
    ensures SecInv(s')
  {
    SectionDisc(s.pump, Sees(s), c, DRemove);
  }

  lemma SectionCreate(p: Pump, v: View, c: Client, q: QRef)
    requires SecOk(p, v) && StoreOk(v.st) && q !in v.st.queues && !InWindow(v.discs, c) && v.running
    ensures SecOk(p, v.(st := GetOrCreate(v.st, c, q)))
  {
    if Completing(p) { CompletionCreate(p, v, c, q); }
  }

  lemma CompletionCreate(p: Pump, v: View, c: Client, q: QRef)
    requires Completing(p) && SecOk(p, v) && StoreOk(v.st) && q !in v.st.queues && !InWindow(v.discs, c) && v.running
    ensures SecOk(p, v.(st := GetOrCreate(v.st, c, q)))
  {
  }

  lemma SecOnCreate(s: State, c: Client, q: QRef, s': State)
    requires StoreInv(s) && SecInv(s) && Creates(s, c, q, s') && (s.running ==> !InWindow(s.discs, c))
    ensures SecInv(s')
  {
    if s.running {
      WireCreate(s.wired, s.store, s.pending, c, q);
      SectionCreate(s.pump, Sees(s), c, q);
    }
  }

  lemma SecOnRemove(s: State, c: Client, s': State)
    requires PhaseInv(s) && SecInv(s) && DiscMove(s, c, s') && s.discs[c].DRemove?
    ensures SecInv(s')
  {
    SectionRemove(s.pump, Sees(s), c);
  }

  /** A move of the disconnect that touches only its own position. */
  lemma SecOnTurn(s: State, c: Client, d: Disc, s': State)
    requires SecInv(s) && c in s.discs && s' == s.(discs := s.discs[c := d], reqC := s'.reqC)
    requires RemovedPhase(s.discs, c) && (d.DSend? || d == DWait(s.epoch.gen) || (d.DClear? && (!s.running || !Working(s.pump, c))))
    ensures SecInv(s')
  {
    SectionDisc(s.pump, Sees(s), c, d);
  }

  lemma SecOnClear(s: State, c: Client, s': State)
    requires SecInv(s) && DiscMove(s, c, s') && s.discs[c].DClear?
    ensures SecInv(s')
  {
    SectionClear(s.pump, Sees(s), c);
  }

  lemma SecOnDone(s: State, c: Client, s': State)
    requires SecInv(s) && DiscMove(s, c, s') && s.discs[c].DDrain?
    ensures SecInv(s')
  {
  }

  lemma SecOnDisc(s: State, c: Client, s': State)
    requires PhaseInv(s) && SecInv(s) && DiscMove(s, c, s') && Ordered(s, PeerStep(DiscStep(c)))
    ensures SecInv(s')
  {
    match s.discs[c]
    case DRemove => SecOnRemove(s, c, s');
    case DLock => SecOnTurn(s, c, if s.running then DSend else DClear, s');
    case DSend => SecOnTurn(s, c, DWait(s.epoch.gen), s');
    case DWait(_) => SecOnTurn(s, c, DClear, s');
    case DClear => SecOnClear(s, c, s');
    case DDrain => SecOnDone(s, c, s');
  }

  lemma SecOnPeer(s: State, p: Peer, s': State)
    requires StoreInv(s) && PhaseInv(s) && SecInv(s) && PeerMove(s, p, s') && Ordered(s, PeerStep(p))
    ensures SecInv(s')
  {
    match p
    case Connect(_) =>
    case Disconnect(c) => SecOnDisconnect(s, c, s');
    case CreateClient(c, q) => SecOnCreate(s, c, q, s');
    case DiscStep(c) => SecOnDisc(s, c, s');
  }

  lemma SecOnStop(s: State, s': State)
    requires SecInv(s) && StopMove(s, s')
    ensures SecInv(s')
  {
  }

  lemma SecOnStart(s: State, s': State)
    requires PhaseInv(s) && SecInv(s) && StartMove(s, s') && Ordered(s, StartStep)
    ensures SecInv(s')
  {
  }

  lemma SecOnWorld(s: State, w: WorldStep, s': State)
    requires OwnInv(s) && PhaseInv(s) && SecInv(s) && WorldNext(s, w, s') && Ordered(s, w)
    ensures SecInv(s')
  {
    match w
    case SendStart(_, _) =>
    case SendStep(r) => SecOnSend(s, r, s');
    case PeerStep(p) => SecOnPeer(s, p, s');
    case ReaderStep(d) => SecOnReader(s, d, s');
    case Dequeue(r) => SecOnDequeue(s, r, s');
    case Happens(_) =>
    case StopStep => SecOnStop(s, s');
    case StartStep => SecOnStart(s, s');
  }

  // ---- over runs ----

  ghost predicate ExclusiveInv(s: State) { SafeInv(s) && SecInv(s) }

  lemma ExclusiveStep(s: State, l: Step, s': State)
    requires ExclusiveInv(s) && Next(s, l, s') && OrderedStep(s, l)
    ensures ExclusiveInv(s')
  {
    SafeStep(s, l, s');
    match l
    case Pumps(p) => SecOnPump(s, p, s');
    case World(w) => SecOnWorld(s, w, s');
  }

  /** Holds in every state of every ordered run. */
  lemma {:induction false} ExclusiveRun(run: Run, i: nat)
    requires IsOrderedRun(run) && i < |run.states|
    ensures ExclusiveInv(run.states[i])
  {
    if i > 0 {
      ExclusiveRun(run, i - 1);
      ExclusiveStep(run.states[i - 1], run.steps[i - 1], run.states[i]);
    }
  }

  /** OCPP-J synchronicity: two CALLs of one client written over its current
      connection and not yet completed are the same CALL. */
  lemma AtMostOneOutstanding(run: Run, i: nat, x: Req, y: Req)
    requires IsOrderedRun(run) && i < |run.states| && x.client == y.client
    requires x in run.states[i].sent && x !in run.states[i].ledger.claim
    requires y in run.states[i].sent && y !in run.states[i].ledger.claim
    ensures x == y
  {
    ExclusiveRun(run, i);
  }
}
