/**
 Who can block whom in the server stack, in every run. The dispatcher's
 read-write lock prefers writers, the callbacks mutex is held across a whole
 send, and the pump takes neither: every blocked goroutine waits for one of
 lower rank, and at the bottom somebody can move, without the help of any
 timer. The one exception is exact: a response that wants to post its ready
 token after the pump has exited, while an earlier token is still buffered.
 */
module ServerProgress {
  import opened Basics
  import opened QueueStore
  import opened ServerStack
  import opened ServerTrace
  import opened ServerMoves
  import opened ServerOwnership
  import opened ServerPhase
  import opened ServerDelete
  import opened ServerFacade

  datatype Thread =
    | ThePump
    | TheStopper
    | ASender(r: Req)
    | ADisconnect(c: Client)
    | AResponder(r: Req)   // a read goroutine between PopIf and its ready token
    | AnOwner(r: Req)      // a handler about to dequeue the callback
    | ACaller(r: Req)      // a facade send about to take the callbacks mutex
    | AConnector(c: Client) // a connect handler about to call CreateClient

  predicate Active(s: State, t: Thread) {
    match t
    case ThePump => !s.pump.Exited?
    case TheStopper => s.stop.Locking? || s.stop.Joining?
    case ASender(r) => r in s.senders
    case ADisconnect(c) => c in s.discs
    case AResponder(r) => StageIs(s, r, RespPopped) || StageIs(s, r, RespDeleted)
    case AnOwner(r) => StageIs(s, r, RespWon) || StageIs(s, r, Cancelled)
    case ACaller(r) => r !in s.senders && r !in s.store.home
    case AConnector(c) => c in s.owed
  }

  predicate Crowded(s: State) { |s.reqC| >= REQUEST_CHANNEL_CAPACITY }

  /** The wait-for graph: `t` cannot move before `u` does. */
  predicate Waits(s: State, t: Thread, u: Thread) {
    match t
    case ThePump => false
    case TheStopper =>
      || (s.stop.Joining? && u == ThePump && !s.pump.Exited?)
      || (s.stop.Locking? && u.ASender? && u.r in s.senders && s.senders[u.r].pc.SSend?)
      || (s.stop.Locking? && u.ADisconnect? && u.c in s.discs && s.discs[u.c].DSend?)
    case ASender(r) =>
      && r in s.senders
      && (match s.senders[r].pc
          case SRun => s.stop.Locking? && u == TheStopper
          case SLock => s.stop.Locking? && u == TheStopper
          case SSend => Crowded(s) && u == ThePump
          case _ => false)
    case ADisconnect(c) =>
      && c in s.discs
      && (match s.discs[c]
          case DLock => s.stop.Locking? && u == TheStopper
          case DSend => Crowded(s) && u == ThePump
          case DWait(_) => OnlyTimeout(s, s.discs[c]) && u == ThePump
          case DDrain => s.facade.mutexBy.Some? && u == ASender(s.facade.mutexBy.value)
          case _ => false)
    case AResponder(r) => StageIs(s, r, RespDeleted) && s.ready.Some? && u == ThePump
    case AnOwner(r) => s.facade.mutexBy.Some? && u == ASender(s.facade.mutexBy.value)
    case ACaller(r) => s.facade.mutexBy.Some? && u == ASender(s.facade.mutexBy.value)
    case AConnector(_) => s.stop.Locking? && u == TheStopper
  }

  function Level(s: State, t: Thread): nat {
    match t
    case ThePump => 0
    case TheStopper => if s.stop.Locking? then 2 else 1
    case ASender(r) => if r in s.senders && (s.senders[r].pc.SRun? || s.senders[r].pc.SLock?) then 3 else 1
    case ADisconnect(c) =>
      if c in s.discs && s.discs[c].DLock? then 3 else if c in s.discs && s.discs[c].DDrain? then 4 else 1
    case AResponder(_) => 1
    case AnOwner(_) => 4
    case ACaller(_) => 4
    case AConnector(_) => 3
  }

  lemma WaitsDescend(s: State, t: Thread, u: Thread)
    requires Waits(s, t, u)
    ensures Level(s, u) < Level(s, t)
  {
  }

  predicate IsWaitChain(s: State, ts: seq<Thread>) {
    forall i :: 0 < i < |ts| ==> Waits(s, ts[i - 1], ts[i])
  }

  /** The wait-for graph has no cycle. */
  lemma {:induction false} NoWaitCycle(s: State, ts: seq<Thread>, i: nat, j: nat)
    requires IsWaitChain(s, ts) && i < j < |ts|
    ensures ts[i] != ts[j] && Level(s, ts[j]) < Level(s, ts[i])
  {
    WaitsDescend(s, ts[j - 1], ts[j]);
    if i < j - 1 { NoWaitCycle(s, ts, i, j - 1); }
  }

  /** The goroutine has an enabled step. */
  ghost predicate CanMove(s: State, t: Thread) {
    match t
    case ThePump => exists p, s' :: PumpNext(s, p, s')
    case TheStopper => exists s' :: StopMove(s, s')
    case ASender(r) => exists s' :: SendMove(s, r, s')
    case ADisconnect(c) => c in s.discs && !OnlyTimeout(s, s.discs[c]) && exists s' :: DiscMove(s, c, s')
    case AResponder(r) => (exists s' :: RespDeletes(s, r, s')) || (exists s' :: RespSignals(s, r, s'))
    case AnOwner(r) => exists s' :: Dequeues(s, r, s')
    case ACaller(r) => exists s' :: SendBegins(s, r, true, s')
    case AConnector(c) => exists q, s' :: Creates(s, c, q, s')
  }

  // ---- whoever waits for nobody can move ----

  lemma SenderMoves(s: State, r: Req) returns (s': State)
    requires r in s.senders && forall u :: !Waits(s, ASender(r), u)
    ensures SendMove(s, r, s')
  {
    assert !Waits(s, ASender(r), TheStopper) && !Waits(s, ASender(r), ThePump);
    s' := SendMoves(s, r);
  }

  lemma DisconnectMoves(s: State, c: Client) returns (s': State)
    requires c in s.discs && forall u :: !Waits(s, ADisconnect(c), u)
    ensures DiscMove(s, c, s') && !OnlyTimeout(s, s.discs[c])
  {
    assert !Waits(s, ADisconnect(c), TheStopper) && !Waits(s, ADisconnect(c), ThePump);
    assert s.facade.mutexBy.Some? ==> !Waits(s, ADisconnect(c), ASender(s.facade.mutexBy.value));
    match s.discs[c]
    case DRemove => s' := s.(discs := s.discs[c := DLock], store := Remove(s.store, c));
    case DLock => s' := s.(discs := s.discs[c := if s.running then DSend else DClear]);
    case DSend => s' := s.(discs := s.discs[c := DWait(s.epoch.gen)], reqC := s.reqC + [ReqTok(c, true)]);
    case DWait(_) => s' := s.(discs := s.discs[c := DClear]);
    case DClear => s' := s.(discs := s.discs[c := DDrain], pending := s.pending - {c});
    case DDrain => s' := s.(discs := s.discs - {c}, facade := DrainCallbacks(s.facade, c));
  }

  lemma StopperMoves(s: State) returns (s': State)
    requires Active(s, TheStopper) && forall u :: !Waits(s, TheStopper, u)
    ensures StopMove(s, s')
  {
    assert !Waits(s, TheStopper, ThePump);
    if s.stop.Joining? { s' := s.(stop := Returned); }
    else {
      forall r | r in s.senders ensures !s.senders[r].pc.SSend? { assert !Waits(s, TheStopper, ASender(r)); }
      forall c | c in s.discs ensures !s.discs[c].DSend? { assert !Waits(s, TheStopper, ADisconnect(c)); }
      s' := s.(stop := Joining, running := false);
    }
  }

  lemma ReaderMoves(s: State, r: Req) returns (d: Reader, s': State)
    requires Active(s, AResponder(r)) && !Waits(s, AResponder(r), ThePump)
    ensures ReaderMove(s, d, s') && (d == RespDelete(r) || d == RespSignal(r))
  {
    if StageIs(s, r, RespPopped) {
      d, s' := RespDelete(r), s.(pending := WithoutPending(s.pending, r), ledger := Claimed(s.ledger, r, RespDeleted));
    } else {
      d, s' := RespSignal(r), s.(ready := Some(r), ledger := Notified(s.ledger, r, RespWon));
    }
  }

  lemma OwnerMoves(s: State, r: Req) returns (s': State)
    requires Active(s, AnOwner(r)) && forall u :: !Waits(s, AnOwner(r), u)
    ensures Dequeues(s, r, s')
  {
    assert s.facade.mutexBy.Some? ==> !Waits(s, AnOwner(r), ASender(s.facade.mutexBy.value));
    s' := s.(ledger := Claimed(s.ledger, r, Settled), facade := Dequeued(s.facade, r));
  }

  lemma CallerMoves(s: State, r: Req) returns (s': State)
    requires Active(s, ACaller(r)) && forall u :: !Waits(s, ACaller(r), u)
    ensures SendBegins(s, r, true, s')
  {
    assert s.facade.mutexBy.Some? ==> !Waits(s, ACaller(r), ASender(s.facade.mutexBy.value));
    s' := s.(senders := s.senders[r := Sender(SRun, true)], facade := s.facade.(mutexBy := Some(r)));
  }

  /** There is always a queue reference not in use. */
  lemma FreshQueue(st: Store) returns (q: QRef)
    ensures q !in st.queues
  {
    q := Above(st.queues.Keys);
  }

  lemma ConnectorMoves(s: State, c: Client) returns (q: QRef, s': State)
    requires Active(s, AConnector(c)) && forall u :: !Waits(s, AConnector(c), u)
    ensures Creates(s, c, q, s')
  {
    assert !Waits(s, AConnector(c), TheStopper);
    q := FreshQueue(s.store);
    s' := s.(owed := s.owed - multiset{c}, store := if s.running then GetOrCreate(s.store, c, q) else s.store);
  }

  /** `t` posts to readyForDispatch, which is full, and nobody receives from it any more. */
  predicate Stuck(s: State, t: Thread) {
    t.AResponder? && StageIs(s, t.r, RespDeleted) && s.ready.Some? && s.pump.Exited?
  }

  /** Whoever waits for the pump, and is not stuck, has given it something to do. */
  lemma PumpServes(s: State, t: Thread)
    requires PhaseInv(s) && DeleteOk(s) && Waits(s, t, ThePump) && !Stuck(s, t)
    ensures PumpCalled(s)
  {
    if t.ADisconnect? && s.discs[t.c].DWait? { assert TokenOnWay(s.reqC, s.pump, t.c); }
  }

  lemma MovesAlone(s: State, t: Thread)
    requires Active(s, t) && t != ThePump && forall u :: !Waits(s, t, u)
    ensures CanMove(s, t)
  {
    match t
    case TheStopper => var _ := StopperMoves(s);
    case ASender(r) => var _ := SenderMoves(s, r);
    case ADisconnect(c) => var _ := DisconnectMoves(s, c);
    case AResponder(r) =>
      assert !Waits(s, t, ThePump);
      var _, _ := ReaderMoves(s, r);
    case AnOwner(r) => var _ := OwnerMoves(s, r);
    case ACaller(r) => var _ := CallerMoves(s, r);
    case AConnector(c) => var _, _ := ConnectorMoves(s, c);
  }

  /** The wait-for graph leads from `t` to a goroutine that can move. */
  ghost predicate Served(s: State, t: Thread) {
    exists ts: seq<Thread> :: |ts| > 0 && ts[0] == t && IsWaitChain(s, ts) && CanMove(s, ts[|ts| - 1])
  }

  lemma ServedBy(s: State, t: Thread, u: Thread)
    requires Waits(s, t, u) && Served(s, u)
    ensures Served(s, t)
  {
    var rest: seq<Thread> :| |rest| > 0 && rest[0] == u && IsWaitChain(s, rest) && CanMove(s, rest[|rest| - 1]);
    var ts := [t] + rest;
    assert forall i :: 0 < i < |ts| ==> ts[i] == rest[i - 1];
    assert ts[|ts| - 1] == rest[|rest| - 1];
  }

  lemma ServedAlone(s: State, t: Thread)
    requires CanMove(s, t)
    ensures Served(s, t)
  {
    assert [t][0] == t && IsWaitChain(s, [t]);
  }

  /** Nobody waits for a responder, so being stuck does not spread. */
  lemma {:induction false} ServedUnlessStuck(s: State, t: Thread)
    requires PhaseInv(s) && DeleteOk(s) && MutexOk(s.senders, s.facade)
    requires Active(s, t) && t != ThePump && !Stuck(s, t)
    ensures Served(s, t)
    decreases Level(s, t)
  {
    if u :| Waits(s, t, u) {
      WaitsDescend(s, t, u);
      if u == ThePump {
        PumpServes(s, t);
        var _, _ := PumpMoves(s);
        ServedAlone(s, u);
      } else {
        ServedUnlessStuck(s, u);
      }
      ServedBy(s, t, u);
    } else {
      MovesAlone(s, t);
      ServedAlone(s, t);
    }
  }

  lemma StuckIsUnserved(s: State, t: Thread)
    requires Stuck(s, t)
    ensures !Served(s, t)
  {
    forall ts: seq<Thread> | |ts| > 0 && ts[0] == t && IsWaitChain(s, ts) ensures !CanMove(s, ts[|ts| - 1]) {
      StuckChain(s, t, ts);
      NoPumpStep(s);
    }
  }

  /** A stuck responder waits for the pump, and the pump for nobody. */
  lemma StuckChain(s: State, t: Thread, ts: seq<Thread>)
    requires Stuck(s, t) && |ts| > 0 && ts[0] == t && IsWaitChain(s, ts)
    ensures ts == [t] || ts == [t, ThePump]
  {
    assert |ts| > 1 ==> Waits(s, ts[0], ts[1]);
    assert |ts| > 2 ==> Waits(s, ts[1], ts[2]);
  }

  lemma NoPumpStep(s: State)
    requires s.pump.Exited?
    ensures !CanMove(s, ThePump)
  {
  }

  /** An active goroutine is served exactly when it is not stuck. */
  lemma Progress(s: State, t: Thread)
    requires PhaseInv(s) && DeleteOk(s) && MutexOk(s.senders, s.facade) && Active(s, t) && t != ThePump
    ensures Served(s, t) <==> !Stuck(s, t)
  {
    if Stuck(s, t) { StuckIsUnserved(s, t); } else { ServedUnlessStuck(s, t); }
  }

  // ---- nothing but the next Start helps a stuck responder ----

  lemma StuckOnReader(s: State, d: Reader, s': State, t: Thread)
    requires OwnInv(s) && Stuck(s, t) && ReaderMove(s, d, s')
    ensures Stuck(s', t)
  {
    PathOnReader(s, d, s', t.r);
  }

  lemma StuckOnPeer(s: State, p: Peer, s': State, t: Thread)
    requires Stuck(s, t) && PeerMove(s, p, s')
    ensures Stuck(s', t)
  {
  }

  /** Once the pump has exited no step empties readyForDispatch before the next Start. */
  lemma StuckStays(s: State, l: Step, s': State, t: Thread)
    requires OwnInv(s) && Stuck(s, t) && Next(s, l, s') && l != World(StartStep)
    ensures Stuck(s', t)
  {
    match l
    case Pumps(p) =>
      NoPumpStep(s);
      assert false;
    case World(w) => StuckOnWorld(s, w, s', t);
  }

  lemma StuckOnWorld(s: State, w: WorldStep, s': State, t: Thread)
    requires OwnInv(s) && Stuck(s, t) && WorldNext(s, w, s') && !w.StartStep?
    ensures Stuck(s', t)
  {
    match w
    case PeerStep(p) => StuckOnPeer(s, p, s', t);
    case ReaderStep(d) => StuckOnReader(s, d, s', t);
    case _ =>
  }

  // ---- over runs ----

  /** Every goroutine in the middle of a Stop, send, disconnect, connect or
      completion waits, through a chain without circle, for one that can move;
      the only exception is a response that finds readyForDispatch full after
      the pump has exited. */
  lemma NeverDeadlocks(run: Run, i: nat, t: Thread)
    requires IsRun(run) && i < |run.states| && Active(run.states[i], t) && t != ThePump
    ensures Served(run.states[i], t) <==> !Stuck(run.states[i], t)
  {
    DeletionRun(run, i);
    AccountRun(run, i);
    Progress(run.states[i], t);
  }

  lemma StuckInRun(run: Run, j: nat, t: Thread)
    requires IsRun(run) && 0 < j < |run.states| && Stuck(run.states[j - 1], t)
    requires run.states[j].epoch.gen == run.states[j - 1].epoch.gen
    ensures Stuck(run.states[j], t)
  {
    SafeRun(run, j - 1);
    var s, l, s' := run.states[j - 1], run.steps[j - 1], run.states[j];
    assert Next(s, l, s');
    GenGrows(s, l, s');
    StuckStays(s, l, s', t);
  }

  /** ... and that response stays blocked until the next Start. */
  lemma {:induction false} StuckUntilStart(run: Run, i: nat, j: nat, t: Thread)
    requires IsRun(run) && i <= j < |run.states| && Stuck(run.states[i], t)
    requires run.states[i].epoch.gen == run.states[j].epoch.gen
    ensures Stuck(run.states[j], t)
  {
    if i < j {
      SameGen(run, i, j);
      StuckUntilStart(run, i, j - 1, t);
      StuckInRun(run, j, t);
    } else {
      assert run.states[i] == run.states[j];
    }
  }
}
