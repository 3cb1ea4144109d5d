/**
 Runs of the server stack: they start in the empty state and take any
 interleaving of the steps, with any number of restarts. And what single steps
 leave alone: generations only grow, a registration is never forgotten, and only
 the pump writes. Ordered and clean runs are those whose steps meet a condition
 at the moment they are taken.
 */
module ServerTrace {
  import opened Basics
  import opened QueueStore
  import opened ServerStack

  datatype Run = Run(capacity: nat, states: seq<State>, steps: seq<Step>)

  predicate IsRun(run: Run) {
    IsChain(run.states, run.steps, Next) && run.states[0] == Init(run.capacity)
  }

  lemma GenGrows(s: State, l: Step, s': State)
    requires Next(s, l, s')
    ensures s'.epoch.gen == s.epoch.gen + (if l == World(StartStep) then 1 else 0)
  {
    match l
    case Pumps(p) => GenOnPumpStep(s, p, s');
    case World(w) => GenOnStep(s, w, s');
  }

  lemma GenOnPumpStep(s: State, p: PumpStep, s': State)
    requires PumpNext(s, p, s')
    ensures s'.epoch == s.epoch
  {
  }

  lemma GenOnStep(s: State, w: WorldStep, s': State)
    requires WorldNext(s, w, s')
    ensures s'.epoch.gen == s.epoch.gen + (if w.StartStep? then 1 else 0)
  {
    match w
    case PeerStep(p) => GenOnPeerStep(s, p, s');
    case ReaderStep(d) => GenOnReaderStep(s, d, s');
    case _ =>
  }

  lemma GenOnPeerStep(s: State, p: Peer, s': State)
    requires PeerMove(s, p, s')
    ensures s'.epoch == s.epoch
  {
  }

  lemma GenOnReaderStep(s: State, d: Reader, s': State)
    requires ReaderMove(s, d, s')
    ensures s'.epoch == s.epoch
  {
  }

  lemma {:induction false} GenAscends(run: Run, i: nat, j: nat)
    requires IsRun(run) && i <= j < |run.states|
    ensures run.states[i].epoch.gen <= run.states[j].epoch.gen
  {
    if i < j {
      GenAscends(run, i, j - 1);
      GenGrows(run.states[j - 1], run.steps[j - 1], run.states[j]);
    }
  }

  lemma SameGen(run: Run, i: nat, j: nat)
    requires IsRun(run) && i < j < |run.states| && run.states[i].epoch.gen == run.states[j].epoch.gen
    ensures run.states[j - 1].epoch.gen == run.states[j].epoch.gen
  {
    GenAscends(run, i, j - 1);
    GenAscends(run, j - 1, j);
  }

  /** A callback once registered stays accounted for through the rest of the run. */
  lemma {:induction false} RegistrationIsForGood(run: Run, i: nat, j: nat, r: Req)
    requires IsRun(run) && i <= j < |run.states| && r in run.states[i].facade.ever
    ensures r in run.states[j].facade.ever
  {
    if i < j {
      RegistrationIsForGood(run, i, j - 1, r);
      EverGrows(run.states[j - 1], run.steps[j - 1], run.states[j], r);
    }
  }

  lemma EverGrows(s: State, l: Step, s': State, r: Req)
    requires Next(s, l, s') && r in s.facade.ever
    ensures r in s'.facade.ever
  {
    match l
    case Pumps(p) => EverOnPump(s, p, s', r);
    case World(w) => EverOnWorld(s, w, s', r);
  }

  lemma EverOnPump(s: State, p: PumpStep, s': State, r: Req)
    requires PumpNext(s, p, s') && r in s.facade.ever
    ensures r in s'.facade.ever
  {
  }

  lemma EverOnWorld(s: State, w: WorldStep, s': State, r: Req)
    requires WorldNext(s, w, s') && r in s.facade.ever
    ensures r in s'.facade.ever
  {
    match w
    case PeerStep(p) => EverOnPeer(s, p, s', r);
    case ReaderStep(d) => EverOnReader(s, d, s', r);
    case _ =>
  }

  lemma EverOnPeer(s: State, p: Peer, s': State, r: Req)
    requires PeerMove(s, p, s') && r in s.facade.ever
    ensures r in s'.facade.ever
  {
  }

  lemma EverOnReader(s: State, d: Reader, s': State, r: Req)
    requires ReaderMove(s, d, s') && r in s.facade.ever
    ensures r in s'.facade.ever
  {
  }

  lemma WiredOnWorld(s: State, w: WorldStep, s': State)
    requires WorldNext(s, w, s')
    ensures s'.wired == s.wired
  {
    match w
    case PeerStep(p) => WiredOnPeer(s, p, s');
    case ReaderStep(d) => WiredOnReader(s, d, s');
    case _ =>
  }

  lemma WiredOnPeer(s: State, p: Peer, s': State)
    requires PeerMove(s, p, s')
    ensures s'.wired == s.wired
  {
  }

  lemma WiredOnReader(s: State, d: Reader, s': State)
    requires ReaderMove(s, d, s')
    ensures s'.wired == s.wired
  {
  }

  lemma CompletesFrame(s: State, s': State)
    requires PumpCompletes(s, s')
    ensures s' == s.(pump := s'.pump, loop := s'.loop, store := s'.store, ledger := s'.ledger, pending := s'.pending)
    ensures s'.store.live == s.store.live && s'.store.home == s.store.home && s.ledger.claim.Keys <= s'.ledger.claim.Keys
  {
  }

  // ---- who took a request ----

  /** A claim moves forward only, and until it is settled it stays with the
      response handler or the cancel that made it. */
  predicate SameWinner(a: Stage, b: Stage) {
    Rank(a) <= Rank(b) && (b.Settled? || ByResponse(a) == ByResponse(b))
  }

  function Rank(stage: Stage): nat {
    match stage
    case PumpHeld => 1 case Drained => 1 case RespPopped => 1
    case RespDeleted => 2
    case RespWon => 3 case Cancelled => 3
    case Settled => 4
  }

  /** The winner is a response handler, not a cancel. */
  predicate ByResponse(stage: Stage) { stage.RespPopped? || stage.RespDeleted? || stage.RespWon? }

  // ---- ordered runs ----

  predicate RemovedPhase(discs: map<Client, Disc>, c: Client) {
    c in discs && (discs[c].DLock? || discs[c].DSend? || discs[c].DWait?)
  }

  /** The client's disconnect has removed the queue and not yet cleared the pending slot. */
  predicate InWindow(discs: map<Client, Disc>, c: Client) {
    RemovedPhase(discs, c) || Lookup(discs, c) == Some(DClear)
  }

  /** The pump holds a queue reference or a request of `c` that it has still to
      dispatch, write or complete. */
  predicate Working(p: Pump, c: Client) {
    match p
    case DispPeek(x, _) => x == c
    case DispAdd(x, _, _) => x == c
    case DispWrite(x, _, _) => x == c
    case Record(x, _, _) => x == c
    case LoopEmpty(x, _) => x == c
    case CompGet(x, _, why) => x == c && NoWrite(why)
    case CompPop(x, _, _, why) => x == c && NoWrite(why)
    case CompDelete(x, _, why) => x == c && NoWrite(why)
    case _ => false
  }

  /** The orderings the source leaves open and the dispatcher relies on, at the
      moment of the step: no queue is created for a client inside that window
      of its disconnect, its delete wait does not time out while the pump is in
      the middle of dispatching for it, and Start finds no CALL outstanding. */
  predicate Ordered(s: State, w: WorldStep) {
    match w
    case PeerStep(CreateClient(c, _)) => s.running ==> !InWindow(s.discs, c)
    case PeerStep(DiscStep(c)) => c in s.discs && OnlyTimeout(s, s.discs[c]) ==> !Working(s.pump, c)
    case StartStep => forall r :: r in s.sent ==> r in s.ledger.claim
    case _ => true
  }

  predicate OrderedStep(s: State, l: Step) { l.World? ==> Ordered(s, l.w) }

  /** A run all of whose steps are ordered. */
  predicate IsOrderedRun(run: Run) {
    IsRun(run) && forall i :: 0 <= i < |run.steps| ==> OrderedStep(run.states[i], run.steps[i])
  }

  /** At most one request per client was written over its current connection
      and not yet answered, timed out or cancelled. */
  predicate OneOutstanding(sent: set<Req>, claim: map<Req, Stage>) {
    forall x, y :: x in sent && y in sent && x !in claim && y !in claim && x.client == y.client ==> x == y
  }

  // ---- clean runs ----

  /** The queue a send is about to be accepted into still has somebody to answer for it. */
  predicate CleanSend(s: State, r: Req)
    requires r in s.senders
  {
    match s.senders[r].pc
    case SPush(q) => q in s.store.removed
    case SLock => r in s.ledger.claim || (r in s.store.home && s.store.home[r].q in s.store.removed)
    case _ => true
  }

  predicate CleanStart(s: State) { forall r :: r in s.senders ==> CleanSend(s, r) }

  /** The condition on Start, at the moment of the call. */
  predicate Clean(s: State, w: WorldStep) { w.StartStep? ==> CleanStart(s) }

  predicate CleanStep(s: State, l: Step) { l.World? ==> Clean(s, l.w) }

  /** A run all of whose restarts are clean. */
  predicate IsCleanRun(run: Run) {
    IsRun(run) && forall i :: 0 <= i < |run.steps| ==> CleanStep(run.states[i], run.steps[i])
  }
}
