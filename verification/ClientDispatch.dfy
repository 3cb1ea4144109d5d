/**
 Dispatching in the client, kept by every step of every run: one request in
 flight, written in push order, and a wake-up whenever the queue has work,
 despite coalesced ready flags and Pause/Resume.
 */
module ClientDispatch {
  import opened Basics
  import opened ClientStack
  import opened ClientOwnership

  predicate NextUp(q: Queue, wired: set<Id>, r: Id) { Front(q) == Some(r) && r !in wired }

  /** What the pump may rely on at each point of a dispatch. */
  predicate SecOk(p: Pump, q: Queue, pending: Option<Id>, wired: set<Id>) {
    match p
    case Peek => pending.None? && (Front(q).Some? ==> Front(q).value !in wired)
    case Add(r) => pending.None? && NextUp(q, wired, r)
    case Write(r) => pending == Some(r) && NextUp(q, wired, r)
    case CompPop(r, k) => k.AfterDrop? || k.AfterWriteError? ==> NextUp(q, wired, r)
    case _ => true
  }

  predicate Emptied(p: Pump) { Draining(p) && !p.DrainQueue? }

  /** A written request that was not completed holds the pending slot. */
  predicate WireOk(q: Queue, wired: set<Id>, pending: Option<Id>, owner: map<Id, Owner>, p: Pump) {
    forall r :: r in wired ==> r in q.log.pushed && (r in owner || (pending == Some(r) && !Emptied(p)))
  }

  predicate CompletersOk(completers: map<nat, Id>, wired: set<Id>) { forall t :: t in completers ==> completers[t] in wired }

  /** Written positions ascend and never pass the front. */
  predicate FifoOk(q: Queue, wired: set<Id>) {
    && (forall j :: 0 <= j < |q.log.wire| ==> q.log.wire[j] <= q.log.taken && q.log.wire[j] < |q.log.pushed| && q.log.pushed[q.log.wire[j]] in wired)
    && (forall j :: 0 < j < |q.log.wire| ==> q.log.wire[j - 1] < q.log.wire[j])
  }

  ghost predicate DispatchInv(s: State) {
    && SecOk(s.pump, s.queue, s.pending, s.wired) && WireOk(s.queue, s.wired, s.pending, s.ledger.owner, s.pump)
    && CompletersOk(s.completers, s.wired) && FifoOk(s.queue, s.wired)
  }

  lemma DispatchOnComplete(s: State, s': State)
    requires OwnInv(s) && DispatchInv(s) && CompleteMove(s, s')
    ensures DispatchInv(s')
  {
    if s.pump.CompDelete? { assert Holds(s.pump, s.pump.r); }
  }

  lemma DispatchOnCheck(s: State, s': State)
    requires OwnInv(s) && DispatchInv(s) && (CheckMove(s, s') || DispatchMove(s, s'))
    ensures DispatchInv(s')
  {
  }

  lemma DispatchOnWrite(s: State, ok: bool, s': State)
    requires OwnInv(s) && DispatchInv(s) && WriteMove(s, ok, s')
    ensures DispatchInv(s')
  {
  }

  lemma DispatchOnDrain(s: State, s': State)
    requires OwnInv(s) && DispatchInv(s) && DrainMove(s, s')
    ensures DispatchInv(s')
  {
    if s.pump.DrainQueue? { QueueTake(s.queue, s.ledger, DrainHas); }
    if s.pump.InitQueue? { QueueTake(s.queue, s.ledger, Refused); }
  }

  lemma DispatchOnPump(s: State, p: PumpStep, s': State)
    requires OwnInv(s) && DispatchInv(s) && PumpNext(s, p, s')
    ensures DispatchInv(s')
  {
    match p
    case Reconcile =>
    case Selects(_) =>
    case Checks => DispatchOnCheck(s, s');
    case Dispatches => DispatchOnCheck(s, s');
    case Writes(ok) => DispatchOnWrite(s, ok, s');
    case Completes => DispatchOnComplete(s, s');
    case Drains => DispatchOnDrain(s, s');
  }

  lemma DispatchOnSend(s: State, r: Id, s': State)
    requires OwnInv(s) && DispatchInv(s) && SendMove(s, r, s')
    ensures DispatchInv(s')
  {
  }

  lemma DispatchOnCompleter(s: State, t: nat, s': State)
    requires OwnInv(s) && DispatchInv(s) && CompleterMove(s, t, s')
    ensures DispatchInv(s')
  {
  }

  lemma DispatchOnFree(s: State, r: Id, s': State)
    requires OwnInv(s) && DispatchInv(s) && ReaderFrees(s, r, s')
    ensures DispatchInv(s')
  {
  }

  lemma DispatchOnWorld(s: State, w: WorldStep, s': State)
    requires OwnInv(s) && DispatchInv(s) && WorldNext(s, w, s')
    ensures DispatchInv(s')
  {
    match w
    case SendStep(r) => DispatchOnSend(s, r, s');
    case CompStep(t) => DispatchOnCompleter(s, t, s');
    case FreeStep(r) => DispatchOnFree(s, r, s');
    case _ =>
  }

  // ---- wake-ups ----

  predicate Freed(owner: map<Id, Owner>, r: Id) { Lookup(owner, r) == Some(ReaderFreed) }

  /** The ready flag is up, or somebody is about to raise it after a completion. */
  ghost predicate Signalled(p: Pump, ready: bool, owner: map<Id, Owner>) {
    ready || p.CompDelete? || p.CompSignal? || exists r :: Freed(owner, r)
  }

  /** The pump will reach its dispatch guard before it sleeps. */
  predicate WillLook(p: Pump) {
    || p.TimerHas? || p.TimerPeek? || p.DoneGet? || p.PausedCheck? || p.GuardEmpty? || p.GuardPending? || p.Peek? || p.Add?
    || p.CompPop?
  }

  /** When the pump is not ready to send, a request is in flight or the flag comes. */
  ghost predicate ReadyOk(s: State) {
    s.running && (!s.rdy || s.pump.Wrote?) ==> s.pending.Some? || Signalled(s.pump, s.sig.ready, s.ledger.owner)
  }

  predicate SenderDue(senders: map<Id, SendPc>, r: Id) { r in senders && (senders[r].SLock? || senders[r].SSend?) }

  /** A queue with work and nothing in flight has a wake-up. */
  ghost predicate WakeOk(s: State) {
    s.running && !s.paused && s.pending.None? && Front(s.queue).Some? ==>
      || Signalled(s.pump, s.sig.ready, s.ledger.owner)
      || s.sig.checking > 0 || s.sig.signalling > 0
      || (s.rdy && (WillLook(s.pump) || s.sig.token || exists r :: SenderDue(s.senders, r)))
  }

  ghost predicate WakeInv(s: State) { ReadyOk(s) && WakeOk(s) }

  lemma WakeOnComplete(s: State, s': State)
    requires OwnInv(s) && DispatchInv(s) && WakeInv(s) && CompleteMove(s, s')
    ensures WakeInv(s')
  {
    if r :| Freed(s.ledger.owner, r) {
      if s.pump.CompPop? && Front(s.queue) == Some(s.pump.r) { QueuePop(s.queue, s.ledger.owner, s.pump.r, PumpHas); }
      if s.pump.CompSignal? { assert Holds(s.pump, s.pump.r); }
      assert Freed(s'.ledger.owner, r);
    }
  }

  lemma WakeOnPump(s: State, p: PumpStep, s': State)
    requires OwnInv(s) && DispatchInv(s) && WakeInv(s) && PumpNext(s, p, s')
    ensures WakeInv(s')
  {
    match p
    case Completes => WakeOnComplete(s, s');
    case _ => 
  }

  lemma WakeOnSend(s: State, r: Id, s': State)
    requires OwnInv(s) && WakeInv(s) && SendMove(s, r, s')
    ensures WakeInv(s')
  {
    if x :| SenderDue(s.senders, x) && x != r { assert SenderDue(s'.senders, x); }
    assert !s.senders[r].SRun? && r in s'.senders ==> SenderDue(s'.senders, r);
  }

  lemma WakeOnCompleter(s: State, t: nat, s': State)
    requires OwnInv(s) && DispatchInv(s) && WakeInv(s) && CompleterMove(s, t, s')
    ensures WakeInv(s')
  {
    if r :| Freed(s.ledger.owner, r) {
      if Front(s.queue) == Some(s.completers[t]) { QueuePop(s.queue, s.ledger.owner, s.completers[t], ReaderHas); }
      assert Freed(s'.ledger.owner, r);
    }
  }

  lemma WakeOnFree(s: State, r: Id, s': State)
    requires WakeInv(s) && ReaderFrees(s, r, s')
    ensures WakeInv(s')
  {
    assert Freed(s'.ledger.owner, r);
  }

  lemma WakeOnWorld(s: State, w: WorldStep, s': State)
    requires OwnInv(s) && DispatchInv(s) && WakeInv(s) && WorldNext(s, w, s')
    ensures WakeInv(s')
  {
    match w
    case SendStart(r) => if x :| SenderDue(s.senders, x) { assert SenderDue(s'.senders, x); }
    case SendStep(r) => WakeOnSend(s, r, s');
    case CompStep(t) => WakeOnCompleter(s, t, s');
    case FreeStep(r) => WakeOnFree(s, r, s');
    case _ =>
  }

  // ---- the pending slot and Stop ----

  /** The slot is held by a queued request, or its completer clears it next. */
  predicate SlotOk(s: State) {
    s.running && s.pending.Some? ==>
      && s.pending.value in s.queue.log.pushed
      && (s.pending.value in s.ledger.owner ==>
            || s.ledger.owner[s.pending.value].ReaderHas?
            || (s.pump.CompDelete? && s.pump.r == s.pending.value))
  }

  /** Accepted requests are never thrown away, and the stop drain misses none. */
  predicate AcceptedOk(accepted: set<Id>, q: Queue, owner: map<Id, Owner>, p: Pump) {
    && (forall r :: r in accepted ==> r in q.log.pushed && (r in owner ==> !owner[r].Refused?) && (Emptied(p) ==> r in owner))
    && (forall r :: r in owner && owner[r].Refused? ==> p.Exiting? || p.Exited?)
  }

  ghost predicate StopInv(s: State) { SlotOk(s) && AcceptedOk(s.accepted, s.queue, s.ledger.owner, s.pump) }

  lemma StopOnComplete(s: State, s': State)
    requires OwnInv(s) && StopInv(s) && CompleteMove(s, s')
    ensures StopInv(s')
  {
    if s.pump.CompSignal? { assert Holds(s.pump, s.pump.r); }
  }

  lemma StopOnDrain(s: State, s': State)
    requires OwnInv(s) && StopInv(s) && DrainMove(s, s')
    ensures StopInv(s')
  {
    match s.pump
    case DrainQueue => QueueTake(s.queue, s.ledger, DrainHas);
    case InitQueue => QueueTake(s.queue, s.ledger, Refused);
    case Firing(rest) => if rest != [] { HeldFire(s.pump, s.ledger.owner); }
    case _ =>
  }

  lemma StopOnPump(s: State, p: PumpStep, s': State)
    requires OwnInv(s) && DispatchInv(s) && StopInv(s) && PumpNext(s, p, s')
    ensures StopInv(s')
  {
    match p
    case Completes => StopOnComplete(s, s');
    case Drains => StopOnDrain(s, s');
    case _ =>
  }

  lemma StopOnSend(s: State, r: Id, s': State)
    requires OwnInv(s) && StopInv(s) && SendMove(s, r, s')
    ensures StopInv(s')
  {
  }

  lemma StopOnCompleter(s: State, t: nat, s': State)
    requires OwnInv(s) && StopInv(s) && CompleterMove(s, t, s')
    ensures StopInv(s')
  {
    if Front(s.queue) == Some(s.completers[t]) { QueuePop(s.queue, s.ledger.owner, s.completers[t], ReaderHas); }
  }

  lemma StopOnFree(s: State, r: Id, s': State)
    requires StopInv(s) && ReaderFrees(s, r, s')
    ensures StopInv(s')
  {
  }

  lemma StopOnSignal(s: State, r: Id, s': State)
    requires StopInv(s) && ReaderSignals(s, r, s')
    ensures StopInv(s')
  {
  }

  lemma StopOnStop(s: State, s': State)
    requires StopInv(s) && StopMove(s, s')
    ensures StopInv(s')
  {
  }

  lemma StopOnWorld(s: State, w: WorldStep, s': State)
    requires OwnInv(s) && StopInv(s) && WorldNext(s, w, s')
    ensures StopInv(s')
  {
    match w
    case SendStep(r) => StopOnSend(s, r, s');
    case CompStep(t) => StopOnCompleter(s, t, s');
    case FreeStep(r) => StopOnFree(s, r, s');
    case SignalStep(r) => StopOnSignal(s, r, s');
    case StopStep => StopOnStop(s, s');
    case _ =>
  }
}
