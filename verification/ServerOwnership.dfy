/**
 Ownership invariants of the server stack, kept by every step of every run: a
 request lives in one queue, a request that left its queue has one owner, and
 that owner notifies once.
 */
module ServerOwnership {
  import opened Basics
  import opened QueueStore
  import opened ServerStack
  import opened ServerPhase
  import opened ServerTrace

  predicate BeforePush(pc: SendPc) { pc.SRun? || pc.SGet? || pc.SPush? }

  predicate SenderOk(st: Store, r: Req, pc: SendPc) {
    && (BeforePush(pc) <==> r !in st.home)
    && (pc.SPush? ==> RefOk(st, pc.q, r.client))
  }

  predicate SendersOk(st: Store, senders: map<Req, Sender>) {
    forall r :: r in senders ==> SenderOk(st, r, senders[r].pc)
  }

  /** The queue reference the pump carries. */
  function PumpQueue(p: Pump): Option<QRef> {
    match p
    case CompPop(_, q, _, _) => Some(q)
    case DispPeek(_, q) => Some(q)
    case DispAdd(_, q, _) => Some(q)
    case DispWrite(_, q, _) => Some(q)
    case LoopEmpty(_, q) => Some(q)
    case _ => None
  }

  predicate PumpRefs(st: Store, p: Pump) {
    && (PumpQueue(p).Some? ==> PumpQueue(p).value in st.queues)
    && forall c :: c in Todo(p) ==> Todo(p)[c] in st.queues
  }

  /** The pump popped `r` and has not notified yet. */
  predicate Holds(p: Pump, r: Req) { (p.CompDelete? || p.WonGet?) && p.r == r }

  /** The stop drain took `r` and has not notified yet. */
  predicate Owes(p: Pump, r: Req) { p.Firing? && r in p.rest }

  ghost predicate HeldOk(p: Pump, claim: map<Req, Stage>) {
    && (forall r :: r in claim && claim[r] == PumpHeld <==> Holds(p, r))
    && (forall r :: r in claim && claim[r] == Drained <==> Owes(p, r))
    && (p.Firing? ==> Distinct(p.rest))
  }

  ghost predicate ClaimOk(st: Store, claim: map<Req, Stage>) {
    forall r :: r in claim <==> Taken(st, r)
  }

  predicate Told(stage: Stage) { stage.RespWon? || stage.Cancelled? || stage.Settled? }

  ghost predicate NotesOk(g: Ledger) {
    forall r :: g.notes[r] == if r in g.claim && Told(g.claim[r]) then 1 else 0
  }

  ghost predicate StoreInv(s: State) {
    StoreOk(s.store) && SendersOk(s.store, s.senders) && PumpRefs(s.store, s.pump)
  }

  ghost predicate LedgerOk(st: Store, p: Pump, g: Ledger) {
    ClaimOk(st, g.claim) && NotesOk(g) && HeldOk(p, g.claim)
  }

  /** Every request lives in one queue, and a request that left has one owner. */
  ghost predicate OwnInv(s: State) { StoreInv(s) && LedgerOk(s.store, s.pump, s.ledger) }

  // ---- the heap and the references into it ----

  lemma RefsGrow(a: Store, b: Store, senders: map<Req, Sender>, p: Pump)
    requires Grows(a, b) && a.home == b.home && SendersOk(a, senders) && PumpRefs(a, p)
    ensures SendersOk(b, senders) && PumpRefs(b, p)
  {
  }

  /** A pump move that leaves the heap and the senders alone. */
  lemma StoreOnPumpMove(s: State, s': State)
    requires StoreInv(s) && s'.store == s.store && s'.senders == s.senders && Todo(s'.pump) == map[]
    requires PumpQueue(s'.pump).Some? ==> PumpQueue(s'.pump).value in s.store.queues
    ensures StoreInv(s')
  {
  }

  lemma StoreOnDispatch(s: State, s': State)
    requires StoreInv(s) && PumpDispatches(s, s')
    ensures StoreInv(s')
  {
    StoreOnPumpMove(s, s');
  }

  lemma StoreOnPop(s: State, q: QRef, p: Pump, s': State)
    requires StoreInv(s) && Front(s.store, q).Some? && s'.store == Pop(s.store, q) && s'.senders == s.senders
    requires s'.pump == p && PumpQueue(p).None? && Todo(p) == map[]
    ensures StoreInv(s')
  {
    PopOk(s.store, q);
    RefsGrow(s.store, Pop(s.store, q), s.senders, Select);
  }

  lemma StoreOnComplete(s: State, s': State)
    requires StoreInv(s) && PumpCompletes(s, s')
    ensures StoreInv(s')
  {
    assert Todo(s'.pump) == map[];
    if s'.pump.CompDelete? { StoreOnPop(s, s.pump.q, s'.pump, s'); } else { StoreOnPumpMove(s, s'); }
  }

  lemma StoreOnWrite(s: State, ok: bool, ctx: Option<Ctx>, s': State)
    requires StoreInv(s) && WriteMove(s, ok, ctx, s')
    ensures StoreInv(s')
  {
    WroteOk(s.store, s.pump.q, s.pump.r);
    RefsGrow(s.store, s'.store, s.senders, s'.pump);
  }

  lemma StoreOnDetach(s: State, s': State)
    requires StoreInv(s) && PumpDrains(s, s') && s.pump.DrainMap?
    ensures StoreInv(s')
  {
    RemoveOk(s.store, 0);
    assert Todo(s'.pump) == s.store.live;
    RefsGrow(s.store, s'.store, s.senders, Select);
  }

  lemma StoreOnDrain(s: State, s': State)
    requires StoreInv(s) && PumpDrains(s, s')
    ensures StoreInv(s')
  {
    if s.pump.DrainMap? {
      StoreOnDetach(s, s');
    } else {
      assert PumpQueue(s'.pump).None? && (Todo(s'.pump) == Todo(s.pump) || Todo(s'.pump) == map[]);
    }
  }

  lemma StoreOnTakes(s: State, c: Client, s': State)
    requires StoreInv(s) && DrainMove(s, c, s')
    ensures StoreInv(s')
  {
    assert Todo(s.pump) == s.pump.todo;
    DrainOk(s.store, s.pump.todo[c]);
    RefsGrow(s.store, s'.store, s.senders, s.pump);
  }

  lemma StoreOnPush(s: State, r: Req, s': State)
    requires StoreInv(s) && SendMove(s, r, s') && s.senders[r].pc.SPush?
    ensures StoreInv(s')
  {
    PushOk(s.store, s.senders[r].pc.q, r);
  }

  lemma StoreOnSend(s: State, r: Req, s': State)
    requires StoreInv(s) && SendMove(s, r, s')
    ensures StoreInv(s')
  {
    if s.senders[r].pc.SPush? { StoreOnPush(s, r, s'); }
  }

  lemma StoreOnPeer(s: State, p: Peer, s': State)
    requires StoreInv(s) && PeerMove(s, p, s')
    ensures StoreInv(s')
  {
    RemoveOk(s.store, p.c);
    if p.CreateClient? { CreateOk(s.store, p.c, p.q); }
    RefsGrow(s.store, s'.store, s.senders, s.pump);
  }

  lemma StoreOnCompleter(s: State, t: nat, s': State)
    requires StoreInv(s) && CompleterMove(s, t, s')
    ensures StoreInv(s')
  {
    var q := s.completers[t].q;
    if q.Some? && Front(s.store, q.value).Some? {
      PopOk(s.store, q.value);
      RefsGrow(s.store, Pop(s.store, q.value), s.senders, s.pump);
    }
  }

  lemma StoreOnReader(s: State, d: Reader, s': State)
    requires StoreInv(s) && ReaderMove(s, d, s')
    ensures StoreInv(s')
  {
    if d.CompStep? { StoreOnCompleter(s, d.t, s'); }
  }

  // ---- the ledger: one operation, one clause ----

  predicate Idle(p: Pump) { !p.CompDelete? && !p.WonGet? && (p.Firing? ==> p.rest == []) }

  /** Stages that belong to a goroutine other than the pump. */
  predicate Off(stage: Stage) { !stage.PumpHeld? && !stage.Drained? }

  lemma NotesClaim(g: Ledger, r: Req, stage: Stage)
    requires NotesOk(g) && Told(stage) == (r in g.claim && Told(g.claim[r]))
    ensures NotesOk(Claimed(g, r, stage))
  {
  }

  lemma NotesTell(g: Ledger, r: Req, stage: Stage)
    requires NotesOk(g) && r in g.claim && !Told(g.claim[r]) && Told(stage)
    ensures NotesOk(Notified(g, r, stage))
  {
  }

  lemma NotesTake(g: Ledger, rs: seq<Req>)
    requires NotesOk(g) && forall r :: r in rs ==> r !in g.claim
    ensures NotesOk(ClaimedAll(g, rs))
  {
  }

  lemma ClaimPop(st: Store, q: QRef, claim: map<Req, Stage>, r: Req, stage: Stage)
    requires StoreOk(st) && Front(st, q) == Some(r) && ClaimOk(st, claim)
    ensures r !in claim && ClaimOk(Pop(st, q), claim[r := stage])
  {
    PopOk(st, q);
  }

  lemma ClaimKeep(st: Store, claim: map<Req, Stage>, r: Req, stage: Stage)
    requires ClaimOk(st, claim) && r in claim
    ensures ClaimOk(st, claim[r := stage])
  {
  }

  lemma ClaimTake(st: Store, q: QRef, g: Ledger)
    requires StoreOk(st) && q in st.queues && ClaimOk(st, g.claim)
    ensures forall r :: r in Contents(st, q) ==> r !in g.claim
    ensures ClaimOk(Drain(st, q), ClaimedAll(g, Contents(st, q)).claim)
  {
    DrainOk(st, q);
  }

  lemma HeldIdle(p: Pump, claim: map<Req, Stage>, p': Pump)
    requires HeldOk(p, claim) && Idle(p) && Idle(p')
    ensures HeldOk(p', claim)
  {
    assert forall r :: !Holds(p, r) && !Holds(p', r);
    assert forall r :: !Owes(p, r) && !Owes(p', r);
  }

  lemma HeldPop(p: Pump, claim: map<Req, Stage>, c: Client, r: Req, why: Why)
    requires HeldOk(p, claim) && Idle(p) && r !in claim
    ensures HeldOk(CompDelete(c, r, why), claim[r := PumpHeld])
  {
    assert forall x :: !Holds(p, x);
    assert forall x :: !Owes(p, x);
  }

  lemma HeldOff(p: Pump, claim: map<Req, Stage>, r: Req, stage: Stage)
    requires HeldOk(p, claim) && (r in claim ==> Off(claim[r])) && Off(stage)
    ensures HeldOk(p, claim[r := stage])
  {
    assert !Holds(p, r) && !Owes(p, r);
  }

  lemma HeldTell(p: Pump, claim: map<Req, Stage>, r: Req, p': Pump)
    requires HeldOk(p, claim) && Holds(p, r) && Idle(p')
    ensures r in claim && claim[r] == PumpHeld && HeldOk(p', claim[r := Cancelled])
  {
    assert forall x :: Holds(p, x) <==> x == r;
    assert forall x :: !Owes(p, x) && !Owes(p', x);
    assert forall x :: !Holds(p', x);
  }

  lemma HeldFire(p: Pump, claim: map<Req, Stage>)
    requires HeldOk(p, claim) && p.Firing? && p.rest != []
    ensures p.rest[0] in claim && claim[p.rest[0]] == Drained
    ensures HeldOk(Firing(p.todo, p.rest[1..]), claim[p.rest[0] := Cancelled])
  {
    var p' := Firing(p.todo, p.rest[1..]);
    assert Owes(p, p.rest[0]);
    assert forall x :: Owes(p, x) <==> x == p.rest[0] || Owes(p', x);
    assert forall x :: !Holds(p, x) && !Holds(p', x);
  }

  lemma HeldTake(p: Pump, g: Ledger, rs: seq<Req>, todo: map<Client, QRef>)
    requires HeldOk(p, g.claim) && Idle(p) && Distinct(rs) && forall r :: r in rs ==> r !in g.claim
    ensures HeldOk(Firing(todo, rs), ClaimedAll(g, rs).claim)
  {
    assert forall x :: !Holds(p, x) && !Holds(Firing(todo, rs), x);
    assert forall x :: !Owes(p, x);
  }

  // ---- the ledger: one step ----

  lemma LedgerSameTaken(st: Store, st': Store, p: Pump, g: Ledger)
    requires LedgerOk(st, p, g) && forall x :: Taken(st', x) <==> Taken(st, x)
    ensures LedgerOk(st', p, g)
  {
  }

  lemma LedgerPumpTells(st: Store, p: Pump, g: Ledger, r: Req, p': Pump)
    requires LedgerOk(st, p, g) && Holds(p, r) && Idle(p')
    ensures LedgerOk(st, p', Notified(g, r, Cancelled))
  {
    HeldTell(p, g.claim, r, p');
    ClaimKeep(st, g.claim, r, Cancelled);
    NotesTell(g, r, Cancelled);
  }

  lemma LedgerPumpPops(st: Store, q: QRef, p: Pump, g: Ledger, c: Client, r: Req, why: Why)
    requires StoreOk(st) && LedgerOk(st, p, g) && Idle(p) && Front(st, q) == Some(r)
    ensures LedgerOk(Pop(st, q), CompDelete(c, r, why), Claimed(g, r, PumpHeld))
  {
    ClaimPop(st, q, g.claim, r, PumpHeld);
    HeldPop(p, g.claim, c, r, why);
    NotesClaim(g, r, PumpHeld);
  }

  lemma LedgerReaderPops(st: Store, q: QRef, p: Pump, g: Ledger, r: Req)
    requires StoreOk(st) && LedgerOk(st, p, g) && Front(st, q) == Some(r)
    ensures LedgerOk(Pop(st, q), p, Claimed(g, r, RespPopped))
  {
    ClaimPop(st, q, g.claim, r, RespPopped);
    HeldOff(p, g.claim, r, RespPopped);
    NotesClaim(g, r, RespPopped);
  }

  lemma LedgerDrainTells(st: Store, p: Pump, g: Ledger)
    requires LedgerOk(st, p, g) && p.Firing? && p.rest != []
    ensures LedgerOk(st, Firing(p.todo, p.rest[1..]), Notified(g, p.rest[0], Cancelled))
  {
    HeldFire(p, g.claim);
    ClaimKeep(st, g.claim, p.rest[0], Cancelled);
    NotesTell(g, p.rest[0], Cancelled);
  }

  lemma LedgerDrainTakes(st: Store, p: Pump, g: Ledger, q: QRef, todo: map<Client, QRef>)
    requires StoreOk(st) && LedgerOk(st, p, g) && Idle(p) && q in st.queues
    ensures LedgerOk(Drain(st, q), Firing(todo, Contents(st, q)), ClaimedAll(g, Contents(st, q)))
  {
    DrainOk(st, q);
    ClaimTake(st, q, g);
    HeldTake(p, g, Contents(st, q), todo);
    NotesTake(g, Contents(st, q));
  }

  /** A goroutine off the pump moves its request on, with or without a notification. */
  lemma LedgerAdvances(st: Store, p: Pump, g: Ledger, r: Req, stage: Stage)
    requires LedgerOk(st, p, g) && r in g.claim && Off(g.claim[r]) && Off(stage) && Told(g.claim[r]) == Told(stage)
    ensures LedgerOk(st, p, Claimed(g, r, stage))
  {
    HeldOff(p, g.claim, r, stage);
    ClaimKeep(st, g.claim, r, stage);
    NotesClaim(g, r, stage);
  }

  lemma LedgerSignals(st: Store, p: Pump, g: Ledger, r: Req)
    requires LedgerOk(st, p, g) && r in g.claim && g.claim[r] == RespDeleted
    ensures LedgerOk(st, p, Notified(g, r, RespWon))
  {
    HeldOff(p, g.claim, r, RespWon);
    ClaimKeep(st, g.claim, r, RespWon);
    NotesTell(g, r, RespWon);
  }

  lemma LedgerOnRoute(s: State, s': State)
    requires OwnInv(s) && PumpRoutes(s, s')
    ensures LedgerOk(s'.store, s'.pump, s'.ledger)
  {
    if s.pump.WonGet? {
      LedgerPumpTells(s.store, s.pump, s.ledger, s.pump.r, s'.pump);
    } else {
      HeldIdle(s.pump, s.ledger.claim, s'.pump);
    }
  }

  lemma LedgerOnPop(s: State, s': State)
    requires OwnInv(s) && PumpCompletes(s, s') && s.pump.CompPop?
    ensures LedgerOk(s'.store, s'.pump, s'.ledger)
  {
    var CompPop(c, q, rid, why) := s.pump;
    if rid.Some? && Front(s.store, q) == rid { LedgerPumpPops(s.store, q, s.pump, s.ledger, c, rid.value, why); }
    else { HeldIdle(s.pump, s.ledger.claim, s'.pump); }
  }

  lemma LedgerOnComplete(s: State, s': State)
    requires OwnInv(s) && PumpCompletes(s, s')
    ensures LedgerOk(s'.store, s'.pump, s'.ledger)
  {
    match s.pump
    case CompPop(_, _, _, _) => LedgerOnPop(s, s');
    case CompDelete(c, r, why) =>
      if NoWrite(why) { LedgerPumpTells(s.store, s.pump, s.ledger, r, s'.pump); }
    case _ => HeldIdle(s.pump, s.ledger.claim, s'.pump);
  }

  lemma LedgerOnDrain(s: State, s': State)
    requires OwnInv(s) && PumpDrains(s, s')
    ensures LedgerOk(s'.store, s'.pump, s'.ledger)
  {
    match s.pump
    case Firing(todo, rest) =>
      if rest != [] { LedgerDrainTells(s.store, s.pump, s.ledger); } else { HeldIdle(s.pump, s.ledger.claim, s'.pump); }
    case _ =>
      HeldIdle(s.pump, s.ledger.claim, s'.pump);
      LedgerSameTaken(s.store, s'.store, s'.pump, s'.ledger);
  }

  lemma LedgerOnTakes(s: State, c: Client, s': State)
    requires OwnInv(s) && DrainMove(s, c, s')
    ensures LedgerOk(s'.store, s'.pump, s'.ledger)
  {
    assert Todo(s.pump) == s.pump.todo;
    LedgerDrainTakes(s.store, s.pump, s.ledger, s.pump.todo[c], s.pump.todo - {c});
  }

  lemma LedgerOnWrite(s: State, ok: bool, ctx: Option<Ctx>, s': State)
    requires OwnInv(s) && WriteMove(s, ok, ctx, s')
    ensures LedgerOk(s'.store, s'.pump, s'.ledger)
  {
    WroteOk(s.store, s.pump.q, s.pump.r);
    HeldIdle(s.pump, s.ledger.claim, s'.pump);
    LedgerSameTaken(s.store, s'.store, s'.pump, s'.ledger);
  }

  lemma LedgerOnSend(s: State, r: Req, s': State)
    requires OwnInv(s) && SendMove(s, r, s')
    ensures LedgerOk(s'.store, s'.pump, s'.ledger)
  {
    if s.senders[r].pc.SPush? {
      forall x { PushTakes(s.store, s.senders[r].pc.q, r, x); }
      LedgerSameTaken(s.store, s'.store, s.pump, s.ledger);
    }
  }

  lemma LedgerOnPeer(s: State, p: Peer, s': State)
    requires OwnInv(s) && PeerMove(s, p, s')
    ensures LedgerOk(s'.store, s'.pump, s'.ledger)
  {
    if p.CreateClient? { CreateOk(s.store, p.c, p.q); }
    LedgerSameTaken(s.store, s'.store, s.pump, s.ledger);
  }

  lemma LedgerOnReader(s: State, d: Reader, s': State)
    requires OwnInv(s) && ReaderMove(s, d, s')
    ensures LedgerOk(s'.store, s'.pump, s'.ledger)
  {
    match d
    case Respond(_, _) =>
    case CompStep(t) =>
      var Completer(r, q) := s.completers[t];
      if q.Some? && Front(s.store, q.value) == Some(r) { LedgerReaderPops(s.store, q.value, s.pump, s.ledger, r); }
    case RespDelete(r) => LedgerAdvances(s.store, s.pump, s.ledger, r, RespDeleted);
    case RespSignal(r) => LedgerSignals(s.store, s.pump, s.ledger, r);
  }

  /** Every step keeps the ownership invariant. */
  lemma OwnOnPump(s: State, p: PumpStep, s': State)
    requires OwnInv(s) && PumpNext(s, p, s')
    ensures OwnInv(s')
  {
    match p
    case Selects(_) => StoreOnPumpMove(s, s'); HeldIdle(s.pump, s.ledger.claim, s'.pump);
    case Route => StoreOnPumpMove(s, s'); LedgerOnRoute(s, s');
    case Dispatch => StoreOnDispatch(s, s'); HeldIdle(s.pump, s.ledger.claim, s'.pump);
    case Complete => StoreOnComplete(s, s'); LedgerOnComplete(s, s');
    case DrainOn => StoreOnDrain(s, s'); LedgerOnDrain(s, s');
    case Write(ok, ctx) => StoreOnWrite(s, ok, ctx, s'); LedgerOnWrite(s, ok, ctx, s');
    case Takes(c) => StoreOnTakes(s, c, s'); LedgerOnTakes(s, c, s');
  }

  lemma OwnOnStart(s: State, s': State)
    requires OwnInv(s) && PhaseInv(s) && StartMove(s, s')
    ensures OwnInv(s')
  {
    StoreOnPumpMove(s, s');
    HeldIdle(s.pump, s.ledger.claim, s'.pump);
  }

  lemma OwnOnWorld(s: State, w: WorldStep, s': State)
    requires OwnInv(s) && PhaseInv(s) && WorldNext(s, w, s')
    ensures OwnInv(s')
  {
    match w
    case StartStep => OwnOnStart(s, s');
    case SendStep(r) => StoreOnSend(s, r, s'); LedgerOnSend(s, r, s');
    case PeerStep(p) => StoreOnPeer(s, p, s'); LedgerOnPeer(s, p, s');
    case ReaderStep(d) => StoreOnReader(s, d, s'); LedgerOnReader(s, d, s');
    case Dequeue(r) => LedgerAdvances(s.store, s.pump, s.ledger, r, Settled);
    case _ =>
  }

  // ---- one winner, one path ----

  /** The ways the owner of a request can move on in one step. */
  predicate Succeeds(a: Option<Stage>, b: Option<Stage>) {
    || a == b
    || (match a
        case None => b.Some? && (b.value.PumpHeld? || b.value.Drained? || b.value.RespPopped?)
        case Some(PumpHeld) => b == Some(Cancelled)
        case Some(Drained) => b == Some(Cancelled)
        case Some(RespPopped) => b == Some(RespDeleted)
        case Some(RespDeleted) => b == Some(RespWon)
        case Some(RespWon) => b == Some(Settled)
        case Some(Cancelled) => b == Some(Settled)
        case Some(Settled) => false)
  }

  predicate Path(s: State, s': State, r: Req) { Succeeds(Lookup(s.ledger.claim, r), Lookup(s'.ledger.claim, r)) }

  lemma PathOnRoute(s: State, s': State, r: Req)
    requires OwnInv(s) && PumpRoutes(s, s')
    ensures Path(s, s', r)
  {
    if s.pump.WonGet? { assert Holds(s.pump, s.pump.r); }
  }

  lemma PathOnComplete(s: State, s': State, r: Req)
    requires OwnInv(s) && PumpCompletes(s, s')
    ensures Path(s, s', r)
  {
    match s.pump
    case CompPop(_, q, rid, _) =>
      if rid.Some? && Front(s.store, q) == rid { ClaimPop(s.store, q, s.ledger.claim, rid.value, PumpHeld); }
    case CompDelete(_, x, _) => assert Holds(s.pump, x);
    case _ =>
  }

  lemma PathOnDrain(s: State, s': State, r: Req)
    requires OwnInv(s) && PumpDrains(s, s')
    ensures Path(s, s', r)
  {
    if s.pump.Firing? && s.pump.rest != [] { HeldFire(s.pump, s.ledger.claim); }
  }

  lemma PathOnTakes(s: State, c: Client, s': State, r: Req)
    requires OwnInv(s) && DrainMove(s, c, s')
    ensures Path(s, s', r)
  {
    assert Todo(s.pump) == s.pump.todo;
    ClaimTake(s.store, s.pump.todo[c], s.ledger);
  }

  lemma PathOnReader(s: State, d: Reader, s': State, r: Req)
    requires OwnInv(s) && ReaderMove(s, d, s')
    ensures Path(s, s', r)
  {
    if d.CompStep? {
      var Completer(x, q) := s.completers[d.t];
      if q.Some? && Front(s.store, q.value) == Some(x) { ClaimPop(s.store, q.value, s.ledger.claim, x, RespPopped); }
    }
  }

  lemma PathOnPeer(s: State, p: Peer, s': State, r: Req)
    requires PeerMove(s, p, s')
    ensures Path(s, s', r)
  {
  }

  lemma PathOnDequeue(s: State, x: Req, s': State, r: Req)
    requires Dequeues(s, x, s')
    ensures Path(s, s', r)
  {
  }

  /** In one step the owner of `r` stays, or moves one stage along its path. */
  lemma PathOnPump(s: State, p: PumpStep, s': State, r: Req)
    requires OwnInv(s) && PumpNext(s, p, s')
    ensures Path(s, s', r)
  {
    match p
    case Route => PathOnRoute(s, s', r);
    case Complete => PathOnComplete(s, s', r);
    case DrainOn => PathOnDrain(s, s', r);
    case Takes(c) => PathOnTakes(s, c, s', r);
    case _ =>
  }

  lemma PathOnWorld(s: State, w: WorldStep, s': State, r: Req)
    requires OwnInv(s) && WorldNext(s, w, s')
    ensures Path(s, s', r)
  {
    match w
    case ReaderStep(d) => PathOnReader(s, d, s', r);
    case PeerStep(p) => PathOnPeer(s, p, s', r);
    case Dequeue(x) => PathOnDequeue(s, x, s', r);
    case _ =>
  }

  /** The owner of a request is never replaced by a step. */
  lemma WinnerStays(before: map<Req, Stage>, after: map<Req, Stage>, r: Req)
    requires r in before && Succeeds(Lookup(before, r), Lookup(after, r))
    ensures r in after && SameWinner(before[r], after[r])
  {
  }

  // ---- where a request was pushed ----

  lemma HomeOnPump(s: State, p: PumpStep, s': State)
    requires PumpNext(s, p, s')
    ensures s'.store.home == s.store.home
  {
  }

  lemma HomeOnWorld(s: State, w: WorldStep, s': State, r: Req)
    requires SendersOk(s.store, s.senders) && WorldNext(s, w, s') && r in s.store.home
    ensures Lookup(s'.store.home, r) == Some(s.store.home[r])
  {
    match w
    case PeerStep(p) => HomeOnPeer(s, p, s');
    case ReaderStep(d) => HomeOnReader(s, d, s');
    case _ =>
  }

  lemma HomeOnPeer(s: State, p: Peer, s': State)
    requires PeerMove(s, p, s')
    ensures s'.store.home == s.store.home
  {
  }

  lemma HomeOnReader(s: State, d: Reader, s': State)
    requires ReaderMove(s, d, s')
    ensures s'.store.home == s.store.home
  {
  }

  // ---- over runs ----

  ghost predicate SafeInv(s: State) { OwnInv(s) && PhaseInv(s) }

  lemma SafeStep(s: State, l: Step, s': State)
    requires SafeInv(s) && Next(s, l, s')
    ensures SafeInv(s')
  {
    PhaseStep(s, l, s');
    match l
    case Pumps(p) => OwnOnPump(s, p, s');
    case World(w) => OwnOnWorld(s, w, s');
  }

  /** Holds in every state of every run. */
  lemma {:induction false} SafeRun(run: Run, i: nat)
    requires IsRun(run) && i < |run.states|
    ensures SafeInv(run.states[i])
  {
    if i > 0 {
      SafeRun(run, i - 1);
      SafeStep(run.states[i - 1], run.steps[i - 1], run.states[i]);
    }
  }

  /** A request has an owner exactly when it left its queue, and at most one
      notification has fired for it: none before its owner told, one after. */
  lemma AtMostOneNotification(run: Run, i: nat, r: Req)
    requires IsRun(run) && i < |run.states|
    ensures r in run.states[i].ledger.claim <==> Taken(run.states[i].store, r)
    ensures run.states[i].ledger.notes[r] ==
            if r in run.states[i].ledger.claim && Told(run.states[i].ledger.claim[r]) then 1 else 0
  {
    SafeRun(run, i);
  }

  lemma PathInRun(run: Run, i: nat, r: Req)
    requires IsRun(run) && i < |run.steps|
    ensures Path(run.states[i], run.states[i + 1], r)
  {
    SafeRun(run, i);
    match run.steps[i]
    case Pumps(p) => PathOnPump(run.states[i], p, run.states[i + 1], r);
    case World(w) => PathOnWorld(run.states[i], w, run.states[i + 1], r);
  }

  /** A request leaves its queue once: whoever took it is never replaced. */
  lemma {:induction false} SingleWinner(run: Run, i: nat, j: nat, r: Req)
    requires IsRun(run) && i <= j < |run.states| && r in run.states[i].ledger.claim
    ensures r in run.states[j].ledger.claim
    ensures SameWinner(run.states[i].ledger.claim[r], run.states[j].ledger.claim[r])
  {
    if i < j {
      SingleWinner(run, i, j - 1, r);
      WinnerInRun(run, j - 1, r);
    }
  }

  lemma WinnerInRun(run: Run, i: nat, r: Req)
    requires IsRun(run) && i < |run.steps| && r in run.states[i].ledger.claim
    ensures r in run.states[i + 1].ledger.claim
    ensures SameWinner(run.states[i].ledger.claim[r], run.states[i + 1].ledger.claim[r])
  {
    PathInRun(run, i, r);
    WinnerStays(run.states[i].ledger.claim, run.states[i + 1].ledger.claim, r);
  }

  lemma HomeStays(run: Run, i: nat, r: Req)
    requires IsRun(run) && i < |run.steps| && r in run.states[i].store.home
    ensures Lookup(run.states[i + 1].store.home, r) == Some(run.states[i].store.home[r])
  {
    SafeRun(run, i);
    match run.steps[i]
    case Pumps(p) => HomeOnPump(run.states[i], p, run.states[i + 1]);
    case World(w) => HomeOnWorld(run.states[i], w, run.states[i + 1], r);
  }
}
