/**
 How far Stop and the disconnects have got, kept by every step of every run:
 which goroutines can still hold the dispatcher lock, and when the queue map
 is empty for good.
 */
module ServerPhase {
  import opened Basics
  import opened QueueStore
  import opened ServerStack
  import opened ServerTrace

  /** The stop drain has detached the queue map. */
  predicate Detached(p: Pump) { Draining(p) && !p.DrainMap? }

  /** Stop, the running flag and the pump agree on how far the shutdown is. */
  predicate PhaseOk(running: bool, stop: StopPc, pump: Pump, live: map<Client, QRef>) {
    && (running <==> stop.NotCalled? || stop.Locking?)
    && (Draining(pump) ==> !running)
    && (Detached(pump) ==> live == map[])
    && (stop.Returned? ==> pump.Exited?)
  }

  /** The stop drain clears the pending slots before it fires a cancel. */
  predicate ClearedOk(pump: Pump, pending: map<Client, Req>) {
    pump.DrainQueues? || pump.Firing? || pump.Exited? ==> pending == map[]
  }

  /** Nobody still holds the read lock across a send once Stop has the write lock. */
  predicate SendersLock(senders: map<Req, Sender>, running: bool) {
    forall r :: r in senders && senders[r].pc.SSend? ==> running
  }

  predicate DiscsLock(discs: map<Client, Disc>, running: bool) {
    forall c :: c in discs && discs[c].DSend? ==> running
  }

  /** A disconnect runs while the id is still out of the websocket registry. */
  predicate DiscsOut(discs: map<Client, Disc>, connected: set<Client>) { forall c :: c in discs ==> c !in connected }

  predicate PhaseInv(s: State) {
    && PhaseOk(s.running, s.stop, s.pump, s.store.live)
    && SendersLock(s.senders, s.running) && DiscsLock(s.discs, s.running)
    && DiscsOut(s.discs, s.connected) && ClearedOk(s.pump, s.pending)
  }

  lemma PhaseOnArm(s: State, arm: Arm, s': State)
    requires PhaseInv(s) && ArmMove(s, arm, s')
    ensures PhaseInv(s')
  {
  }

  lemma PhaseOnRoute(s: State, s': State)
    requires PhaseInv(s) && PumpRoutes(s, s')
    ensures PhaseInv(s')
  {
  }

  lemma PhaseOnDrain(s: State, s': State)
    requires PhaseInv(s) && PumpDrains(s, s')
    ensures PhaseInv(s')
  {
  }

  lemma PhaseOnSend(s: State, r: Req, s': State)
    requires PhaseInv(s) && SendMove(s, r, s')
    ensures PhaseInv(s')
  {
  }

  lemma PhaseOnBegin(s: State, r: Req, facade: bool, s': State)
    requires PhaseInv(s) && SendBegins(s, r, facade, s')
    ensures PhaseInv(s')
  {
  }

  lemma PhaseOnReader(s: State, d: Reader, s': State)
    requires PhaseInv(s) && ReaderMove(s, d, s')
    ensures PhaseInv(s')
  {
  }

  lemma PhaseOnPeer(s: State, p: Peer, s': State)
    requires PhaseInv(s) && PeerMove(s, p, s')
    ensures PhaseInv(s')
  {
  }

  lemma PhaseOnStop(s: State, s': State)
    requires PhaseInv(s) && StopMove(s, s')
    ensures PhaseInv(s')
  {
  }

  lemma PhaseOnStart(s: State, s': State)
    requires PhaseInv(s) && StartMove(s, s')
    ensures PhaseInv(s')
  {
  }

  lemma PhaseOnPump(s: State, p: PumpStep, s': State)
    requires PhaseInv(s) && PumpNext(s, p, s')
    ensures PhaseInv(s')
  {
    match p
    case Selects(arm) => PhaseOnArm(s, arm, s');
    case Route => PhaseOnRoute(s, s');
    case DrainOn => PhaseOnDrain(s, s');
    case _ =>
  }

  lemma PhaseOnWorld(s: State, w: WorldStep, s': State)
    requires PhaseInv(s) && WorldNext(s, w, s')
    ensures PhaseInv(s')
  {
    match w
    case SendStart(r, f) => PhaseOnBegin(s, r, f, s');
    case ReaderStep(d) => PhaseOnReader(s, d, s');
    case SendStep(r) => PhaseOnSend(s, r, s');
    case PeerStep(p) => PhaseOnPeer(s, p, s');
    case StopStep => PhaseOnStop(s, s');
    case StartStep => PhaseOnStart(s, s');
    case _ =>
  }

  lemma PhaseStep(s: State, l: Step, s': State)
    requires PhaseInv(s) && Next(s, l, s')
    ensures PhaseInv(s')
  {
    match l
    case Pumps(p) => PhaseOnPump(s, p, s');
    case World(w) => PhaseOnWorld(s, w, s');
  }
}
