/**
 Ownership in the client dispatcher, kept by every step of every run: a request
 that left the queue has one owner, and that owner notifies once.
 */
module ClientOwnership {
  import opened Basics
  import opened ClientStack

  // ---- ownership ----

  /** A request is owned exactly when it left the queue. */
  ghost predicate QueueOk(q: Queue, owner: map<Id, Owner>) {
    && q.log.taken <= |q.log.pushed| && Distinct(q.log.pushed)
    && (forall i :: 0 <= i < |q.log.pushed| ==> (q.log.pushed[i] in owner <==> i < q.log.taken))
    && (forall r :: r in owner ==> r in q.log.pushed)
  }

  predicate SendersOk(senders: map<Id, SendPc>, q: Queue, running: bool) {
    forall r :: r in senders ==>
      && (senders[r].SRun? || senders[r].SPush? <==> r !in q.log.pushed)
      && (senders[r].SSend? ==> running)
  }

  /** The pump popped `r` and has not fired its cancel yet. */
  predicate Holds(p: Pump, r: Id) { (p.CompDelete? || p.CompSignal?) && p.r == r }

  predicate Owes(p: Pump, r: Id) { (p.DrainPending? || p.Firing?) && r in p.rest }

  ghost predicate HeldOk(p: Pump, owner: map<Id, Owner>) {
    && (forall r :: r in owner && owner[r] == PumpHas <==> Holds(p, r))
    && (forall r :: r in owner && owner[r] == DrainHas <==> Owes(p, r))
    && (p.DrainPending? || p.Firing? ==> Distinct(p.rest))
  }

  predicate Told(o: Owner) { o.Answered? || o.Cancelled? }

  ghost predicate NotesOk(g: Ledger) { forall r :: g.notes[r] == if r in g.owner && Told(g.owner[r]) then 1 else 0 }

  predicate PhaseOk(running: bool, stop: StopPc, pump: Pump, pending: Option<Id>) {
    && (running <==> stop.NotCalled? || stop.Locking?)
    && (Draining(pump) ==> !running)
    && (stop.Returned? ==> pump.Exited?)
    && (pump.Firing? || pump.InitQueue? || pump.Exiting? || pump.Exited? ==> pending.None?)
  }

  ghost predicate OwnInv(s: State) {
    && QueueOk(s.queue, s.ledger.owner) && SendersOk(s.senders, s.queue, s.running)
    && HeldOk(s.pump, s.ledger.owner) && NotesOk(s.ledger) && PhaseOk(s.running, s.stop, s.pump, s.pending)
  }

  lemma QueuePop(q: Queue, owner: map<Id, Owner>, r: Id, o: Owner)
    requires QueueOk(q, owner) && Front(q) == Some(r)
    ensures r !in owner && QueueOk(Pop(q), owner[r := o])
  {
  }

  lemma QueueKeep(q: Queue, owner: map<Id, Owner>, r: Id, o: Owner)
    requires QueueOk(q, owner) && r in owner
    ensures QueueOk(q, owner[r := o])
  {
  }

  lemma QueuePush(q: Queue, owner: map<Id, Owner>, r: Id)
    requires QueueOk(q, owner) && r !in q.log.pushed
    ensures QueueOk(Push(q, r), owner)
  {
  }

  lemma QueueTake(q: Queue, g: Ledger, o: Owner)
    requires QueueOk(q, g.owner)
    ensures forall r :: r in Contents(q) ==> r !in g.owner
    ensures Distinct(Contents(q)) && QueueOk(DrainAll(q), OwnedAll(g, Contents(q), o).owner)
  {
    var xs := Contents(q);
    assert forall j :: 0 <= j < |xs| ==> xs[j] == q.log.pushed[q.log.taken + j];
    forall i | q.log.taken <= i < |q.log.pushed| ensures q.log.pushed[i] in xs { assert xs[i - q.log.taken] == q.log.pushed[i]; }
  }

  lemma NotesOwn(g: Ledger, r: Id, o: Owner)
    requires NotesOk(g) && Told(o) == (r in g.owner && Told(g.owner[r]))
    ensures NotesOk(Owned(g, r, o))
  {
  }

  lemma NotesTell(g: Ledger, r: Id, o: Owner)
    requires NotesOk(g) && r in g.owner && !Told(g.owner[r]) && Told(o)
    ensures NotesOk(Notified(g, r, o))
  {
  }

  lemma NotesTake(g: Ledger, rs: seq<Id>, o: Owner)
    requires NotesOk(g) && !Told(o) && forall r :: r in rs ==> r !in g.owner
    ensures NotesOk(OwnedAll(g, rs, o))
  {
  }

  predicate Idle(p: Pump) { !p.CompDelete? && !p.CompSignal? && !p.DrainPending? && (p.Firing? ==> p.rest == []) }

  predicate Off(o: Owner) { !o.PumpHas? && !o.DrainHas? }

  lemma HeldIdle(p: Pump, owner: map<Id, Owner>, p': Pump)
    requires HeldOk(p, owner) && Idle(p) && Idle(p')
    ensures HeldOk(p', owner)
  {
    assert forall r :: !Holds(p, r) && !Holds(p', r);
    assert forall r :: !Owes(p, r) && !Owes(p', r);
  }

  lemma HeldOff(p: Pump, owner: map<Id, Owner>, r: Id, o: Owner)
    requires HeldOk(p, owner) && (r in owner ==> Off(owner[r])) && Off(o)
    ensures HeldOk(p, owner[r := o])
  {
    assert !Holds(p, r) && !Owes(p, r);
  }

  lemma HeldPop(p: Pump, owner: map<Id, Owner>, r: Id, k: After)
    requires HeldOk(p, owner) && Idle(p) && r !in owner
    ensures HeldOk(CompDelete(r, k), owner[r := PumpHas])
  {
    assert forall x :: !Holds(p, x) && !Owes(p, x);
  }

  lemma HeldTell(p: Pump, owner: map<Id, Owner>, p': Pump)
    requires HeldOk(p, owner) && p.CompSignal? && Idle(p')
    ensures p.r in owner && owner[p.r] == PumpHas && HeldOk(p', owner[p.r := Cancelled])
  {
    assert forall x :: Holds(p, x) <==> x == p.r;
    assert forall x :: !Owes(p, x) && !Owes(p', x) && !Holds(p', x);
  }

  lemma HeldFire(p: Pump, owner: map<Id, Owner>)
    requires HeldOk(p, owner) && p.Firing? && p.rest != []
    ensures p.rest[0] in owner && owner[p.rest[0]] == DrainHas
    ensures HeldOk(Firing(p.rest[1..]), owner[p.rest[0] := Cancelled])
  {
    assert Owes(p, p.rest[0]);
    assert forall x :: Owes(p, x) <==> x == p.rest[0] || Owes(Firing(p.rest[1..]), x);
    assert forall x :: !Holds(p, x) && !Holds(Firing(p.rest[1..]), x);
  }

  lemma HeldTake(p: Pump, g: Ledger, rs: seq<Id>)
    requires HeldOk(p, g.owner) && Idle(p) && Distinct(rs) && forall r :: r in rs ==> r !in g.owner
    ensures HeldOk(DrainPending(rs), OwnedAll(g, rs, DrainHas).owner)
  {
    assert forall x :: !Holds(p, x) && !Holds(DrainPending(rs), x) && !Owes(p, x);
  }

  lemma HeldRefuse(p: Pump, g: Ledger, rs: seq<Id>, p': Pump)
    requires HeldOk(p, g.owner) && Idle(p) && Idle(p') && forall r :: r in rs ==> r !in g.owner
    ensures HeldOk(p', OwnedAll(g, rs, Refused).owner)
  {
    assert forall x :: !Holds(p, x) && !Holds(p', x) && !Owes(p, x) && !Owes(p', x);
  }

  lemma OwnOnPop(s: State, r: Id, k: After, s': State)
    requires OwnInv(s) && CompleteMove(s, s') && s.pump == CompPop(r, k)
    ensures OwnInv(s')
  {
    if Front(s.queue) == Some(r) {
      QueuePop(s.queue, s.ledger.owner, r, PumpHas);
      HeldPop(s.pump, s.ledger.owner, r, k);
      NotesOwn(s.ledger, r, PumpHas);
    } else {
      HeldIdle(s.pump, s.ledger.owner, s'.pump);
    }
  }

  lemma OwnOnComplete(s: State, s': State)
    requires OwnInv(s) && CompleteMove(s, s')
    ensures OwnInv(s')
  {
    match s.pump
    case CompPop(r, k) => OwnOnPop(s, r, k, s');
    case CompDelete(r, k) =>
      assert forall x :: Holds(s.pump, x) <==> Holds(s'.pump, x);
      assert forall x :: !Owes(s.pump, x) && !Owes(s'.pump, x);
    case CompSignal(r, k) =>
      HeldTell(s.pump, s.ledger.owner, s'.pump);
      QueueKeep(s.queue, s.ledger.owner, r, Cancelled);
      NotesTell(s.ledger, r, Cancelled);
    case _ =>
  }

  lemma OwnOnDrain(s: State, s': State)
    requires OwnInv(s) && DrainMove(s, s')
    ensures OwnInv(s')
  {
    match s.pump
    case DrainQueue =>
      QueueTake(s.queue, s.ledger, DrainHas);
      HeldTake(s.pump, s.ledger, Contents(s.queue));
      NotesTake(s.ledger, Contents(s.queue), DrainHas);
    case DrainPending(rest) =>
      assert forall x :: Owes(s.pump, x) <==> Owes(s'.pump, x);
      assert forall x :: !Holds(s.pump, x) && !Holds(s'.pump, x);
    case Firing(rest) =>
      if rest == [] { HeldIdle(s.pump, s.ledger.owner, s'.pump); }
      else {
        HeldFire(s.pump, s.ledger.owner);
        QueueKeep(s.queue, s.ledger.owner, rest[0], Cancelled);
        NotesTell(s.ledger, rest[0], Cancelled);
      }
    case InitQueue =>
      QueueTake(s.queue, s.ledger, Refused);
      HeldRefuse(s.pump, s.ledger, Contents(s.queue), s'.pump);
      NotesTake(s.ledger, Contents(s.queue), Refused);
    case Exiting => HeldIdle(s.pump, s.ledger.owner, s'.pump);
    case _ =>
  }

  lemma OwnOnWrite(s: State, ok: bool, s': State)
    requires OwnInv(s) && WriteMove(s, ok, s')
    ensures OwnInv(s')
  {
    HeldIdle(s.pump, s.ledger.owner, s'.pump);
  }

  lemma OwnOnPump(s: State, p: PumpStep, s': State)
    requires OwnInv(s) && PumpNext(s, p, s')
    ensures OwnInv(s')
  {
    match p
    case Completes => OwnOnComplete(s, s');
    case Drains => OwnOnDrain(s, s');
    case Writes(ok) => OwnOnWrite(s, ok, s');
    case _ => HeldIdle(s.pump, s.ledger.owner, s'.pump);
  }

  lemma OwnOnSend(s: State, r: Id, s': State)
    requires OwnInv(s) && SendMove(s, r, s')
    ensures OwnInv(s')
  {
    if s.senders[r].SPush? { QueuePush(s.queue, s.ledger.owner, r); }
  }

  lemma OwnOnCompleter(s: State, t: nat, s': State)
    requires OwnInv(s) && CompleterMove(s, t, s')
    ensures OwnInv(s')
  {
    var r := s.completers[t];
    if Front(s.queue) == Some(r) {
      QueuePop(s.queue, s.ledger.owner, r, ReaderHas);
      HeldOff(s.pump, s.ledger.owner, r, ReaderHas);
      NotesOwn(s.ledger, r, ReaderHas);
    }
  }

  lemma OwnOnFree(s: State, r: Id, s': State)
    requires OwnInv(s) && ReaderFrees(s, r, s')
    ensures OwnInv(s')
  {
    QueueKeep(s.queue, s.ledger.owner, r, ReaderFreed);
    HeldOff(s.pump, s.ledger.owner, r, ReaderFreed);
    NotesOwn(s.ledger, r, ReaderFreed);
  }

  lemma OwnOnSignal(s: State, r: Id, s': State)
    requires OwnInv(s) && ReaderSignals(s, r, s')
    ensures OwnInv(s')
  {
    QueueKeep(s.queue, s.ledger.owner, r, Answered);
    HeldOff(s.pump, s.ledger.owner, r, Answered);
    NotesTell(s.ledger, r, Answered);
  }

  lemma OwnOnWorld(s: State, w: WorldStep, s': State)
    requires OwnInv(s) && WorldNext(s, w, s')
    ensures OwnInv(s')
  {
    match w
    case SendStep(r) => OwnOnSend(s, r, s');
    case CompStep(t) => OwnOnCompleter(s, t, s');
    case FreeStep(r) => OwnOnFree(s, r, s');
    case SignalStep(r) => OwnOnSignal(s, r, s');
    case _ =>
  }

  // ---- one winner, one path ----

  /** The ways the owner of a request can move on in one step. */
  predicate Succeeds(a: Option<Owner>, b: Option<Owner>) {
    || a == b
    || (match a
        case None => b.Some? && (b.value.PumpHas? || b.value.DrainHas? || b.value.ReaderHas? || b.value.Refused?)
        case Some(PumpHas) => b == Some(Cancelled)
        case Some(DrainHas) => b == Some(Cancelled)
        case Some(ReaderHas) => b == Some(ReaderFreed)
        case Some(ReaderFreed) => b == Some(Answered)
        case Some(_) => false)
  }

  predicate Path(s: State, s': State, r: Id) { Succeeds(Lookup(s.ledger.owner, r), Lookup(s'.ledger.owner, r)) }

  lemma PathOnComplete(s: State, s': State, r: Id)
    requires OwnInv(s) && CompleteMove(s, s')
    ensures Path(s, s', r)
  {
    if s.pump.CompPop? && Front(s.queue) == Some(s.pump.r) { QueuePop(s.queue, s.ledger.owner, s.pump.r, PumpHas); }
    if s.pump.CompSignal? { assert Holds(s.pump, s.pump.r); }
  }

  lemma PathOnDrain(s: State, s': State, r: Id)
    requires OwnInv(s) && DrainMove(s, s')
    ensures Path(s, s', r)
  {
    match s.pump
    case DrainQueue => QueueTake(s.queue, s.ledger, DrainHas);
    case InitQueue => QueueTake(s.queue, s.ledger, Refused);
    case Firing(rest) => if rest != [] { HeldFire(s.pump, s.ledger.owner); }
    case _ =>
  }

  lemma PathOnPump(s: State, p: PumpStep, s': State, r: Id)
    requires OwnInv(s) && PumpNext(s, p, s')
    ensures Path(s, s', r)
  {
    match p
    case Completes => PathOnComplete(s, s', r);
    case Drains => PathOnDrain(s, s', r);
    case _ =>
  }

  lemma PathOnWorld(s: State, w: WorldStep, s': State, r: Id)
    requires OwnInv(s) && WorldNext(s, w, s')
    ensures Path(s, s', r)
  {
    match w
    case CompStep(t) =>
      if Front(s.queue) == Some(s.completers[t]) { QueuePop(s.queue, s.ledger.owner, s.completers[t], ReaderHas); }
    case _ =>
  }
}
