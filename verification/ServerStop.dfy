/**
 Stop accounts for every accepted request, in every run whose restarts are
 clean: a request whose send was accepted is in a queue the map or the stop
 drain still holds, or has an owner, or sits in a queue its client's disconnect
 removed. A restart is clean when no send that looked its queue up before the
 stop drain has still to test the running flag.
 */
module ServerStop {
  import opened Basics
  import opened QueueStore
  import opened ServerStack
  import opened ServerTrace
  import opened ServerOwnership
  import opened ServerPhase
  import opened ServerFacade

  /** Somebody still answers for the queue `q` of client `c`. */
  predicate Held(st: Store, pump: Pump, c: Client, q: QRef) {
    Lookup(st.live, c) == Some(q) || Lookup(Todo(pump), c) == Some(q) || q in st.removed
  }

  predicate Tracked(st: Store, claim: map<Req, Stage>, pump: Pump, r: Req) {
    r in claim || (r in st.home && Held(st, pump, r.client, st.home[r].q))
  }

  /** The send of `r` was accepted, or can only end in acceptance from here. */
  predicate Counts(accepted: set<Req>, senders: map<Req, Sender>, running: bool, r: Req) {
    || r in accepted
    || (r in senders && (senders[r].pc.SSend? || senders[r].pc.SReg? || (senders[r].pc.SLock? && running)))
  }

  ghost predicate TrackedOk(s: State) {
    forall r :: Counts(s.accepted, s.senders, s.running, r) ==> Tracked(s.store, s.ledger.claim, s.pump, r)
  }

  /** A sender holding a queue reference holds a queue somebody answers for. */
  predicate AimOk(senders: map<Req, Sender>, st: Store, running: bool) {
    forall r :: r in senders && senders[r].pc.SPush? && running ==>
      Lookup(st.live, r.client) == Some(senders[r].pc.q) || senders[r].pc.q in st.removed
  }

  /** Callbacks are registered for accepted requests only. */
  predicate RegisteredOk(f: Facade, accepted: set<Req>, senders: map<Req, Sender>) {
    && (forall r :: r in f.registered ==> r in accepted)
    && (forall r :: r in senders && senders[r].pc.SReg? ==> r in accepted)
  }

  ghost predicate StopInv(s: State) {
    TrackedOk(s) && AimOk(s.senders, s.store, s.running) && RegisteredOk(s.facade, s.accepted, s.senders)
  }

  lemma StopKeeps(s: State, s': State)
    requires TrackedOk(s) && s.ledger.claim.Keys <= s'.ledger.claim.Keys
    requires s'.accepted == s.accepted && s'.senders == s.senders && s'.running == s.running && s'.store.home == s.store.home
    requires forall c, q :: Held(s.store, s.pump, c, q) ==> Held(s'.store, s'.pump, c, q)
    ensures TrackedOk(s')
  {
    assert forall r :: r in s.ledger.claim ==> r in s'.ledger.claim.Keys;
  }

  lemma StopOnArm(s: State, arm: Arm, s': State)
    requires StopInv(s) && ArmMove(s, arm, s')
    ensures StopInv(s')
  {
    StopKeeps(s, s');
  }

  lemma StopOnRoute(s: State, s': State)
    requires StopInv(s) && PumpRoutes(s, s')
    ensures StopInv(s')
  {
    StopKeeps(s, s');
  }

  lemma StopOnComplete(s: State, s': State)
    requires StopInv(s) && PumpCompletes(s, s')
    ensures StopInv(s')
  {
    StopKeeps(s, s');
  }

  lemma StopOnDispatch(s: State, s': State)
    requires StopInv(s) && PumpDispatches(s, s')
    ensures StopInv(s')
  {
    StopKeeps(s, s');
  }

  lemma StopOnWrite(s: State, ok: bool, ctx: Option<Ctx>, s': State)
    requires StopInv(s) && WriteMove(s, ok, ctx, s')
    ensures StopInv(s')
  {
    StopKeeps(s, s');
  }

  lemma StopOnDrain(s: State, s': State)
    requires PhaseInv(s) && StopInv(s) && PumpDrains(s, s')
    ensures StopInv(s')
  {
    StopKeeps(s, s');
  }

  /** What the drain takes from a detached queue gets an owner. */
  lemma TakesOwns(st: Store, q: QRef, g: Ledger, r: Req)
    requires StoreOk(st) && ClaimOk(st, g.claim) && q in st.queues && r in st.home && st.home[r].q == q
    ensures r in ClaimedAll(g, Contents(st, q)).claim
  {
    if r !in g.claim {
      assert HomeOk(st, r);
      assert Contents(st, q)[st.home[r].i - st.queues[q].log.taken] == r;
    }
  }

  lemma HeldTakes(st: Store, p: Pump, c: Client, x: Client, q: QRef)
    requires p.DrainQueues? && c in p.todo && Held(st, p, x, q) && (x != c || q != p.todo[c])
    ensures Held(Drain(st, p.todo[c]), Firing(p.todo - {c}, Contents(st, p.todo[c])), x, q)
  {
    assert Todo(p) == p.todo && Todo(Firing(p.todo - {c}, Contents(st, p.todo[c]))) == p.todo - {c};
  }

  lemma TrackedTakes(s: State, c: Client, s': State, r: Req)
    requires StoreInv(s) && ClaimOk(s.store, s.ledger.claim) && DrainMove(s, c, s') && Tracked(s.store, s.ledger.claim, s.pump, r)
    ensures Tracked(s'.store, s'.ledger.claim, s'.pump, r)
  {
    assert Todo(s.pump) == s.pump.todo;
    if r !in s.ledger.claim {
      if s.store.home[r].q == s.pump.todo[c] { TakesOwns(s.store, s.pump.todo[c], s.ledger, r); }
      else { HeldTakes(s.store, s.pump, c, r.client, s.store.home[r].q); }
    }
  }

  lemma StopOnTakes(s: State, c: Client, s': State)
    requires OwnInv(s) && StopInv(s) && DrainMove(s, c, s')
    ensures StopInv(s')
  {
    forall r | Counts(s.accepted, s.senders, s.running, r) ensures Tracked(s'.store, s'.ledger.claim, s'.pump, r) {
      TrackedTakes(s, c, s', r);
    }
  }

  lemma TrackedPush(s: State, r: Req, s': State)
    requires OwnInv(s) && StopInv(s) && SendMove(s, r, s') && s.senders[r].pc.SPush?
    ensures TrackedOk(s')
  {
    forall x | Counts(s'.accepted, s'.senders, s'.running, x) ensures Tracked(s'.store, s'.ledger.claim, s'.pump, x) {
      assert r !in s.accepted by { assert r in s.accepted ==> Tracked(s.store, s.ledger.claim, s.pump, r); }
      if x != r { assert Counts(s.accepted, s.senders, s.running, x); }
    }
  }

  lemma TrackedSends(s: State, r: Req, s': State)
    requires TrackedOk(s) && SendMove(s, r, s') && !s.senders[r].pc.SPush?
    ensures TrackedOk(s')
  {
    forall x | Counts(s'.accepted, s'.senders, s'.running, x) ensures Tracked(s'.store, s'.ledger.claim, s'.pump, x) {
      assert Counts(s.accepted, s.senders, s.running, x);
    }
  }

  lemma AimSends(s: State, r: Req, s': State)
    requires AimOk(s.senders, s.store, s.running) && SendMove(s, r, s')
    ensures AimOk(s'.senders, s'.store, s'.running)
  {
  }

  lemma StopOnSend(s: State, r: Req, s': State)
    requires OwnInv(s) && StopInv(s) && SendMove(s, r, s')
    ensures StopInv(s')
  {
    if s.senders[r].pc.SPush? { TrackedPush(s, r, s'); } else { TrackedSends(s, r, s'); }
    AimSends(s, r, s');
  }

  lemma HeldOnPeer(s: State, p: Peer, s': State, c: Client, q: QRef)
    requires PeerMove(s, p, s') && Held(s.store, s.pump, c, q)
    ensures Held(s'.store, s'.pump, c, q)
  {
  }

  lemma StopOnPeer(s: State, p: Peer, s': State)
    requires StopInv(s) && PeerMove(s, p, s')
    ensures StopInv(s')
  {
    forall c, q | Held(s.store, s.pump, c, q) ensures Held(s'.store, s'.pump, c, q) { HeldOnPeer(s, p, s', c, q); }
    StopKeeps(s, s');
  }

  lemma StopOnReader(s: State, d: Reader, s': State)
    requires StopInv(s) && ReaderMove(s, d, s')
    ensures StopInv(s')
  {
    StopKeeps(s, s');
  }

  lemma StopOnBegin(s: State, r: Req, facade: bool, s': State)
    requires StopInv(s) && SendBegins(s, r, facade, s')
    ensures StopInv(s')
  {
    forall x | Counts(s'.accepted, s'.senders, s'.running, x) ensures Counts(s.accepted, s.senders, s.running, x) {}
  }

  lemma StopOnStop(s: State, s': State)
    requires StopInv(s) && PhaseInv(s) && StopMove(s, s')
    ensures StopInv(s')
  {
    forall x | Counts(s'.accepted, s'.senders, s'.running, x) ensures Counts(s.accepted, s.senders, s.running, x) {}
  }

  lemma StopOnStart(s: State, s': State)
    requires StopInv(s) && PhaseInv(s) && StartMove(s, s') && CleanStart(s)
    ensures StopInv(s')
  {
    forall x | Counts(s'.accepted, s'.senders, s'.running, x) ensures Tracked(s'.store, s'.ledger.claim, s'.pump, x) {
      if !Counts(s.accepted, s.senders, s.running, x) { assert CleanSend(s, x); }
    }
    forall r | r in s.senders && s.senders[r].pc.SPush? ensures s.senders[r].pc.q in s.store.removed { assert CleanSend(s, r); }
  }

  lemma StopOnPump(s: State, p: PumpStep, s': State)
    requires OwnInv(s) && PhaseInv(s) && StopInv(s) && PumpNext(s, p, s')
    ensures StopInv(s')
  {
    match p
    case Selects(arm) => StopOnArm(s, arm, s');
    case Route => StopOnRoute(s, s');
    case Complete => StopOnComplete(s, s');
    case Dispatch => StopOnDispatch(s, s');
    case Write(ok, ctx) => StopOnWrite(s, ok, ctx, s');
    case DrainOn => StopOnDrain(s, s');
    case Takes(c) => StopOnTakes(s, c, s');
  }

  lemma StopOnWorld(s: State, w: WorldStep, s': State)
    requires OwnInv(s) && PhaseInv(s) && StopInv(s) && WorldNext(s, w, s') && Clean(s, w)
    ensures StopInv(s')
  {
    match w
    case SendStart(r, f) => StopOnBegin(s, r, f, s');
    case SendStep(r) => StopOnSend(s, r, s');
    case PeerStep(p) => StopOnPeer(s, p, s');
    case ReaderStep(d) => StopOnReader(s, d, s');
    case Dequeue(r) => StopKeeps(s, s');
    case StopStep => StopOnStop(s, s');
    case StartStep => StopOnStart(s, s');
    case _ =>
  }

  // ---- what the invariants say ----

  predicate InLiveQueue(s: State, r: Req) {
    r !in s.ledger.claim && r in s.store.home && Lookup(s.store.live, r.client) == Some(s.store.home[r].q)
  }

  /** One goroutine took `r` and has not called Dequeue yet. */
  predicate HasOwner(s: State, r: Req) { r in s.ledger.claim && !s.ledger.claim[r].Settled? }

  predicate InDisconnect(s: State, r: Req) {
    r !in s.ledger.claim && r in s.store.home && s.store.home[r].q in s.store.removed && PastRemove(s.discs, r.client)
  }

  predicate InStopDrain(s: State, r: Req) {
    r !in s.ledger.claim && r in s.store.home && Lookup(Todo(s.pump), r.client) == Some(s.store.home[r].q)
  }

  /** No registered callback is stranded, and none was called. */
  lemma NoCallbackStranded(s: State, r: Req)
    requires FacadeInv(s) && StopInv(s) && r in s.facade.registered
    ensures InLiveQueue(s, r) || HasOwner(s, r) || InDisconnect(s, r) || InStopDrain(s, r)
    ensures s.facade.calls[r] == 0
  {
    assert Counts(s.accepted, s.senders, s.running, r);
    assert Awaits(s.senders, s.facade, r);
  }

  /** Once the pump has gone and every owner and disconnect is done, every
      callback that was ever registered has been called, once. */
  lemma QuiescentMeansCalled(s: State, r: Req)
    requires FacadeInv(s) && StopInv(s) && PhaseInv(s) && s.pump.Exited? && s.discs == map[]
    requires forall x :: x in s.ledger.claim ==> s.ledger.claim[x].Settled?
    ensures s.facade.calls[r] == if r in s.facade.ever then 1 else 0
  {
    if r in s.facade.registered { NoCallbackStranded(s, r); }
  }

  /** When Stop returns, every accepted request of a client that was not
      deleted has left its queue into the hands of one response handler or one
      fired cancel, and the queue map is empty. */
  lemma StopAccounts(s: State, r: Req)
    requires OwnInv(s) && PhaseInv(s) && StopInv(s) && s.stop.Returned? && r in s.accepted
    ensures s.store.live == map[] && s.pending == map[]
    ensures r in s.ledger.claim || (r in s.store.home && s.store.home[r].q in s.store.removed)
    ensures r in s.ledger.claim ==>
      && !s.ledger.claim[r].PumpHeld? && !s.ledger.claim[r].Drained?
      && s.ledger.notes[r] == (if s.ledger.claim[r].RespPopped? || s.ledger.claim[r].RespDeleted? then 0 else 1)
  {
    assert Counts(s.accepted, s.senders, s.running, r);
    assert !Holds(s.pump, r) && !Owes(s.pump, r);
  }

  /** ... and it stays empty: the pump is gone, and nobody else takes Stop back
      or refills the map. */
  lemma PumpIsGone(s: State, p: PumpStep, s': State)
    requires PhaseInv(s) && s.stop.Returned?
    ensures !PumpNext(s, p, s')
  {
  }

  lemma PeerKeepsStop(s: State, p: Peer, s': State)
    requires PeerMove(s, p, s')
    ensures s'.stop == s.stop
  {
  }

  lemma ReaderKeepsStop(s: State, d: Reader, s': State)
    requires ReaderMove(s, d, s')
    ensures s'.stop == s.stop
  {
  }

  lemma WorldKeepsStop(s: State, w: WorldStep, s': State)
    requires WorldNext(s, w, s') && s.stop.Returned? && !w.StartStep?
    ensures s'.stop.Returned?
  {
    match w
    case PeerStep(p) => PeerKeepsStop(s, p, s');
    case ReaderStep(d) => ReaderKeepsStop(s, d, s');
    case _ =>
  }

  /** No step but the next Start ends this, and that Start finds the map empty. */
  lemma WorldKeepsMapEmpty(s: State, w: WorldStep, s': State)
    requires PhaseInv(s) && s.stop.Returned? && WorldNext(s, w, s')
    ensures s'.store.live == map[] && (s'.stop.Returned? || w.StartStep?)
  {
    if !w.StartStep? {
      WorldKeepsStop(s, w, s');
      PhaseOnWorld(s, w, s');
    }
  }

  lemma StillEmpty(s: State, l: Step, s': State)
    requires PhaseInv(s) && s.stop.Returned? && Next(s, l, s')
    ensures s'.store.live == map[] && (s'.stop.Returned? || l == World(StartStep))
  {
    match l
    case Pumps(p) => PumpIsGone(s, p, s');
    case World(w) => WorldKeepsMapEmpty(s, w, s');
  }

  // ---- over runs ----

  ghost predicate TrackedInv(s: State) { SafeInv(s) && StopInv(s) }

  lemma TrackedStep(s: State, l: Step, s': State)
    requires TrackedInv(s) && Next(s, l, s') && CleanStep(s, l)
    ensures TrackedInv(s')
  {
    SafeStep(s, l, s');
    match l
    case Pumps(p) => StopOnPump(s, p, s');
    case World(w) => StopOnWorld(s, w, s');
  }

  /** Holds in every state of every clean run. */
  lemma {:induction false} TrackedRun(run: Run, i: nat)
    requires IsCleanRun(run) && i < |run.states|
    ensures TrackedInv(run.states[i])
  {
    if i > 0 {
      TrackedRun(run, i - 1);
      TrackedStep(run.states[i - 1], run.steps[i - 1], run.states[i]);
    }
  }

  /** A registered callback has its request queued for a connected client, or
      one owner that will dequeue it, or a drain in progress that will. */
  lemma CallbacksNeverStranded(run: Run, i: nat, r: Req)
    requires IsCleanRun(run) && i < |run.states| && r in run.states[i].facade.registered
    ensures var s := run.states[i]; InLiveQueue(s, r) || HasOwner(s, r) || InDisconnect(s, r) || InStopDrain(s, r)
  {
    AccountRun(run, i);
    TrackedRun(run, i);
    NoCallbackStranded(run.states[i], r);
  }

  lemma StopAccountsInRun(run: Run, i: nat, r: Req)
    requires IsCleanRun(run) && i < |run.states| && run.states[i].stop.Returned? && r in run.states[i].accepted
    ensures var s := run.states[i];
            (r in s.store.home && s.store.home[r].q in s.store.removed) ||
            (r in s.ledger.claim && !s.ledger.claim[r].PumpHeld? && !s.ledger.claim[r].Drained?)
  {
    TrackedRun(run, i);
    StopAccounts(run.states[i], r);
  }

  lemma StillEmptyInRun(run: Run, j: nat)
    requires IsRun(run) && 0 < j < |run.states| && run.states[j - 1].stop.Returned?
    ensures run.states[j].store.live == map[]
    ensures run.states[j].epoch.gen == run.states[j - 1].epoch.gen ==> run.states[j].stop.Returned?
  {
    SafeRun(run, j - 1);
    StillEmpty(run.states[j - 1], run.steps[j - 1], run.states[j]);
    GenGrows(run.states[j - 1], run.steps[j - 1], run.states[j]);
  }

  /** From the moment Stop returns until the next Start the queue map is empty. */
  lemma {:induction false} EmptyAfterStop(run: Run, i: nat, j: nat)
    requires IsRun(run) && i <= j < |run.states| && run.states[i].stop.Returned?
    requires run.states[i].epoch.gen == run.states[j].epoch.gen
    ensures run.states[j].stop.Returned? && run.states[j].store.live == map[]
  {
    if i < j {
      SameGen(run, i, j);
      EmptyAfterStop(run, i, j - 1);
      StillEmptyInRun(run, j);
    } else {
      SafeRun(run, j);
    }
  }
}
