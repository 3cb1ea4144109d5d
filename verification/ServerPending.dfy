/**
 The pending slot never outlives its request, in every ordered run: what a
 live client has pending is in its live queue or in the hands of a completer
 that clears the slot next, and a leftover slot belongs to a disconnect that
 has still to clear it.
 */
module ServerPending {
  import opened Basics
  import opened QueueStore
  import opened ServerStack
  import opened ServerTrace
  import opened ServerOwnership
  import opened ServerPhase
  import opened ServerSection

  predicate SlotOk(st: Store, claim: map<Req, Stage>, discs: map<Client, Disc>, running: bool, c: Client, r: Req) {
    if c in st.live then
      && r in st.home && st.home[r].q == st.live[c] && r.client == c
      && (r in claim ==> claim[r].RespPopped? || claim[r].PumpHeld?)
    else InWindow(discs, c) || !running
  }

  predicate SlotsOk(pending: map<Client, Req>, st: Store, claim: map<Req, Stage>, discs: map<Client, Disc>, running: bool) {
    forall c :: c in pending ==> SlotOk(st, claim, discs, running, c, pending[c])
  }

  /** A completion that won on the pump has cleared the slot. */
  predicate WonOk(p: Pump, pending: map<Client, Req>) {
    p.WonGet? ==> Lookup(pending, p.r.client) != Some(p.r)
  }

  predicate PendingInv(s: State) {
    SlotsOk(s.pending, s.store, s.ledger.claim, s.discs, s.running) && WonOk(s.pump, s.pending)
  }

  lemma PendingOnRoute(s: State, s': State)
    requires OwnInv(s) && PendingInv(s) && PumpRoutes(s, s')
    ensures PendingInv(s')
  {
  }

  lemma SlotsPop(s: State, q: QRef, r: Req, stage: Stage)
    requires SlotsOk(s.pending, s.store, s.ledger.claim, s.discs, s.running) && (stage.RespPopped? || stage.PumpHeld?)
    ensures SlotsOk(s.pending, Pop(s.store, q), s.ledger.claim[r := stage], s.discs, s.running)
  {
  }

  lemma SlotsUnpend(s: State, r: Req, stage: Stage)
    requires SlotsOk(s.pending, s.store, s.ledger.claim, s.discs, s.running) && r in s.ledger.claim
    ensures SlotsOk(WithoutPending(s.pending, r), s.store, s.ledger.claim[r := stage], s.discs, s.running)
  {
  }

  lemma SlotsRelease(s: State, r: Req)
    requires SlotsOk(s.pending, s.store, s.ledger.claim, s.discs, s.running)
    ensures SlotsOk(WithoutPending(s.pending, r), s.store, s.ledger.claim, s.discs, s.running)
  {
  }

  lemma PendingOnComplete(s: State, s': State)
    requires LedgerOk(s.store, s.pump, s.ledger) && PendingInv(s) && PumpCompletes(s, s')
    ensures PendingInv(s')
  {
    match s.pump
    case CompPop(_, q, rid, _) => if rid.Some? { SlotsPop(s, q, rid.value, PumpHeld); }
    case CompDelete(_, r, why) =>
      assert Holds(s.pump, r);
      if NoWrite(why) { SlotsUnpend(s, r, Cancelled); } else { SlotsRelease(s, r); }
    case _ =>
  }

  lemma PendingOnDispatch(s: State, s': State)
    requires StoreInv(s) && SecOk(s.pump, Sees(s)) && ClaimOk(s.store, s.ledger.claim) && PendingInv(s) && PumpDispatches(s, s')
    ensures PendingInv(s')
  {
    if s.pump.DispAdd? { assert QueueOk(s.store, s.pump.q); }
  }

  lemma PendingOnWrite(s: State, ok: bool, ctx: Option<Ctx>, s': State)
    requires PendingInv(s) && WriteMove(s, ok, ctx, s')
    ensures PendingInv(s')
  {
  }

  lemma PendingOnDrain(s: State, s': State)
    requires PhaseInv(s) && PendingInv(s) && PumpDrains(s, s')
    ensures PendingInv(s')
  {
  }

  lemma PendingOnTakes(s: State, c: Client, s': State)
    requires PhaseInv(s) && PendingInv(s) && DrainMove(s, c, s')
    ensures PendingInv(s')
  {
  }

  lemma PendingOnSend(s: State, r: Req, s': State)
    requires StoreInv(s) && PendingInv(s) && SendMove(s, r, s')
    ensures PendingInv(s')
  {
  }

  lemma SlotsDisc(s: State, c: Client, d: Disc)
    requires SlotsOk(s.pending, s.store, s.ledger.claim, s.discs, s.running)
    requires !InWindow(s.discs, c) || d.DLock? || d.DSend? || d.DWait? || d.DClear?
    ensures SlotsOk(s.pending, s.store, s.ledger.claim, s.discs[c := d], s.running)
  {
  }

  lemma SlotsRemove(s: State, c: Client)
    requires SlotsOk(s.pending, s.store, s.ledger.claim, s.discs, s.running)
    ensures SlotsOk(s.pending, Remove(s.store, c), s.ledger.claim, s.discs[c := DLock], s.running)
  {
  }

  lemma SlotsClear(s: State, c: Client)
    requires SlotsOk(s.pending, s.store, s.ledger.claim, s.discs, s.running)
    ensures SlotsOk(s.pending - {c}, s.store, s.ledger.claim, s.discs[c := DDrain], s.running)
  {
  }

  lemma PendingOnDisc(s: State, c: Client, s': State)
    requires PhaseInv(s) && PendingInv(s) && DiscMove(s, c, s')
    ensures PendingInv(s')
  {
    match s.discs[c]
    case DRemove => SlotsRemove(s, c);
    case DClear => SlotsClear(s, c);
    case DDrain =>
    case _ => SlotsDisc(s, c, s'.discs[c]);
  }

  lemma PendingOnStop(s: State, s': State)
    requires PendingInv(s) && StopMove(s, s')
    ensures PendingInv(s')
  {
  }

  lemma PendingOnDequeue(s: State, r: Req, s': State)
    requires PendingInv(s) && Dequeues(s, r, s')
    ensures PendingInv(s')
  {
  }

  lemma PendingOnStart(s: State, s': State)
    requires PhaseInv(s) && PendingInv(s) && StartMove(s, s')
    ensures PendingInv(s')
  {
  }

  lemma PendingOnPeer(s: State, p: Peer, s': State)
    requires PhaseInv(s) && PendingInv(s) && PeerMove(s, p, s') && Ordered(s, PeerStep(p))
    ensures PendingInv(s')
  {
    match p
    case Disconnect(c) => SlotsDisc(s, c, DRemove);
    case DiscStep(c) => PendingOnDisc(s, c, s');
    case _ =>
  }

  lemma PendingOnReader(s: State, d: Reader, s': State)
    requires PendingInv(s) && ReaderMove(s, d, s')
    ensures PendingInv(s')
  {
    match d
    case CompStep(t) => if s.completers[t].q.Some? { SlotsPop(s, s.completers[t].q.value, s.completers[t].r, RespPopped); }
    case RespDelete(r) => SlotsUnpend(s, r, RespDeleted);
    case _ =>
  }

  lemma PendingOnPump(s: State, p: PumpStep, s': State)
    requires OwnInv(s) && PhaseInv(s) && SecInv(s) && PendingInv(s) && PumpNext(s, p, s')
    ensures PendingInv(s')
  {
    match p
    case Selects(_) =>
    case Route => PendingOnRoute(s, s');
    case Complete => PendingOnComplete(s, s');
    case Dispatch => PendingOnDispatch(s, s');
    case Write(ok, ctx) => PendingOnWrite(s, ok, ctx, s');
    case DrainOn => PendingOnDrain(s, s');
    case Takes(c) => PendingOnTakes(s, c, s');
  }

  lemma PendingOnWorld(s: State, w: WorldStep, s': State)
    requires OwnInv(s) && PhaseInv(s) && PendingInv(s) && WorldNext(s, w, s') && Ordered(s, w)
    ensures PendingInv(s')
  {
    match w
    case SendStep(r) => PendingOnSend(s, r, s');
    case PeerStep(p) => PendingOnPeer(s, p, s');
    case ReaderStep(d) => PendingOnReader(s, d, s');
    case Dequeue(r) => PendingOnDequeue(s, r, s');
    case StopStep => PendingOnStop(s, s');
    case StartStep => PendingOnStart(s, s');
    case _ =>
  }

  // ---- over runs ----

  ghost predicate SlotInv(s: State) { ExclusiveInv(s) && PendingInv(s) }

  lemma SlotStep(s: State, l: Step, s': State)
    requires SlotInv(s) && Next(s, l, s') && OrderedStep(s, l)
    ensures SlotInv(s')
  {
    ExclusiveStep(s, l, s');
    match l
    case Pumps(p) => PendingOnPump(s, p, s');
    case World(w) => PendingOnWorld(s, w, s');
  }

  /** Holds in every state of every ordered run. */
  lemma {:induction false} SlotRun(run: Run, i: nat)
    requires IsOrderedRun(run) && i < |run.states|
    ensures SlotInv(run.states[i])
  {
    if i > 0 {
      SlotRun(run, i - 1);
      SlotStep(run.states[i - 1], run.steps[i - 1], run.states[i]);
    }
  }

  /** What a live client has pending is queued, or its completer clears the slot next. */
  lemma PendingInRun(run: Run, i: nat, c: Client)
    requires IsOrderedRun(run) && i < |run.states| && c in run.states[i].pending && c in run.states[i].store.live
    ensures var s := run.states[i]; var r := s.pending[c];
            && r in s.store.home && s.store.home[r].q == s.store.live[c]
            && (r in s.ledger.claim ==> s.ledger.claim[r].RespPopped? || s.ledger.claim[r].PumpHeld?)
  {
    SlotRun(run, i);
  }
}
