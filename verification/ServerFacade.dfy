/**
 The central-system facade, in every run: a registered callback is never
 stranded and never called twice, even when a send races the disconnect of
 its client or Stop.
 */
module ServerFacade {
  import opened Basics
  import opened QueueStore
  import opened ServerStack
  import opened ServerTrace
  import opened ServerOwnership
  import opened ServerPhase

  /** TryQueue holds the callbacks mutex from before the send until it returns. */
  ghost predicate MutexOk(senders: map<Req, Sender>, f: Facade) {
    forall r :: (r in senders && senders[r].facade) <==> f.mutexBy == Some(r)
  }

  /** A callback is registered once its send is over, and from then on it is
      registered or was called, once: none is lost, none called twice. */
  ghost predicate CallsOk(senders: map<Req, Sender>, f: Facade, home: map<Req, Loc>) {
    && (forall r :: f.calls[r] + (if r in f.registered then 1 else 0) == if r in f.ever then 1 else 0)
    && (forall r :: r in f.ever ==> r in home && r !in senders)
  }

  /** The callback of `r` is registered or about to be. */
  predicate Awaits(senders: map<Req, Sender>, f: Facade, r: Req) {
    r in f.registered || (r in senders && senders[r].facade)
  }

  /** Nobody has come and gone for a callback that is still awaited. */
  ghost predicate UnsettledOk(senders: map<Req, Sender>, f: Facade, claim: map<Req, Stage>) {
    forall r :: Awaits(senders, f, r) && r in claim ==> !claim[r].Settled?
  }

  predicate PastRemove(discs: map<Client, Disc>, c: Client) { c in discs && !discs[c].DRemove? }

  /** A live queue was never removed. */
  predicate LiveOk(st: Store) {
    && (forall c :: c in st.live ==> st.live[c] !in st.removed)
    && (forall q :: q in st.removed ==> q in st.queues)
  }

  /** The queue `r` went to, or is about to go to. */
  function QueueOf(st: Store, senders: map<Req, Sender>, r: Req): Option<QRef> {
    if r in st.home then Some(st.home[r].q)
    else if r in senders && senders[r].pc.SPush? then Some(senders[r].pc.q)
    else None
  }

  /** An awaited callback whose queue was removed has its disconnect drain ahead. */
  ghost predicate CoveredOk(st: Store, senders: map<Req, Sender>, f: Facade, claim: map<Req, Stage>, discs: map<Client, Disc>) {
    forall r :: Awaits(senders, f, r) && r !in claim && QueueOf(st, senders, r).Some? && QueueOf(st, senders, r).value in st.removed
      ==> PastRemove(discs, r.client)
  }

  ghost predicate FacadeInv(s: State) {
    && MutexOk(s.senders, s.facade) && CallsOk(s.senders, s.facade, s.store.home) && LiveOk(s.store)
    && UnsettledOk(s.senders, s.facade, s.ledger.claim)
    && CoveredOk(s.store, s.senders, s.facade, s.ledger.claim, s.discs)
  }

  lemma FacadeOnRoute(s: State, s': State)
    requires FacadeInv(s) && PumpRoutes(s, s')
    ensures FacadeInv(s')
  {
  }

  lemma FacadeOnComplete(s: State, s': State)
    requires FacadeInv(s) && PumpCompletes(s, s')
    ensures FacadeInv(s')
  {
  }

  lemma FacadeOnWrite(s: State, ok: bool, ctx: Option<Ctx>, s': State)
    requires FacadeInv(s) && StoreInv(s) && WriteMove(s, ok, ctx, s')
    ensures FacadeInv(s')
  {
  }

  lemma FacadeOnDrain(s: State, s': State)
    requires FacadeInv(s) && PumpDrains(s, s')
    ensures FacadeInv(s')
  {
  }

  lemma FacadeOnTakes(s: State, c: Client, s': State)
    requires FacadeInv(s) && StoreInv(s) && DrainMove(s, c, s')
    ensures FacadeInv(s')
  {
  }

  lemma MutexSends(s: State, r: Req, s': State)
    requires MutexOk(s.senders, s.facade) && SendMove(s, r, s')
    ensures MutexOk(s'.senders, s'.facade)
  {
  }

  lemma CallsSends(s: State, r: Req, s': State)
    requires SendersOk(s.store, s.senders) && CallsOk(s.senders, s.facade, s.store.home) && SendMove(s, r, s')
    ensures CallsOk(s'.senders, s'.facade, s'.store.home)
  {
  }

  lemma UnsettledSends(s: State, r: Req, s': State)
    requires UnsettledOk(s.senders, s.facade, s.ledger.claim) && SendMove(s, r, s')
    ensures UnsettledOk(s'.senders, s'.facade, s'.ledger.claim)
  {
  }

  lemma CoveredSends(s: State, r: Req, s': State)
    requires SendersOk(s.store, s.senders) && LiveOk(s.store) && SendMove(s, r, s')
    requires CoveredOk(s.store, s.senders, s.facade, s.ledger.claim, s.discs)
    ensures CoveredOk(s'.store, s'.senders, s'.facade, s'.ledger.claim, s'.discs)
  {
  }

  lemma FacadeOnSend(s: State, r: Req, s': State)
    requires FacadeInv(s) && OwnInv(s) && SendMove(s, r, s')
    ensures FacadeInv(s')
  {
    MutexSends(s, r, s');
    CallsSends(s, r, s');
    UnsettledSends(s, r, s');
    CoveredSends(s, r, s');
  }

  lemma MutexBegins(s: State, r: Req, facade: bool, s': State)
    requires MutexOk(s.senders, s.facade) && SendBegins(s, r, facade, s')
    ensures MutexOk(s'.senders, s'.facade)
  {
  }

  lemma UnsettledBegins(s: State, r: Req, facade: bool, s': State)
    requires ClaimOk(s.store, s.ledger.claim) && UnsettledOk(s.senders, s.facade, s.ledger.claim) && SendBegins(s, r, facade, s')
    ensures UnsettledOk(s'.senders, s'.facade, s'.ledger.claim)
  {
  }

  lemma FacadeOnBegin(s: State, r: Req, facade: bool, s': State)
    requires FacadeInv(s) && OwnInv(s) && SendBegins(s, r, facade, s')
    ensures FacadeInv(s')
  {
    MutexBegins(s, r, facade, s');
    UnsettledBegins(s, r, facade, s');
    CallsBegins(s, r, facade, s');
  }

  lemma CallsBegins(s: State, r: Req, facade: bool, s': State)
    requires CallsOk(s.senders, s.facade, s.store.home) && SendBegins(s, r, facade, s')
    ensures CallsOk(s'.senders, s'.facade, s'.store.home)
  {
  }

  lemma CallsDrain(senders: map<Req, Sender>, f: Facade, home: map<Req, Loc>, c: Client)
    requires CallsOk(senders, f, home)
    ensures CallsOk(senders, DrainCallbacks(f, c), home)
  {
  }

  /** DrainAll runs while nobody is inside TryQueue, so nothing of `c` stays awaited. */
  lemma NoneAwaited(senders: map<Req, Sender>, f: Facade, c: Client, r: Req)
    requires MutexOk(senders, f) && f.mutexBy.None?
    ensures Awaits(senders, DrainCallbacks(f, c), r) <==> Awaits(senders, f, r) && r.client != c
  {
  }

  lemma CoveredDrains(s: State, c: Client, s': State)
    requires MutexOk(s.senders, s.facade) && CoveredOk(s.store, s.senders, s.facade, s.ledger.claim, s.discs) && c in s.discs
    requires s.facade.mutexBy.None? && s'.facade == DrainCallbacks(s.facade, c) && s'.discs == s.discs - {c}
    ensures CoveredOk(s.store, s.senders, s'.facade, s.ledger.claim, s'.discs)
  {
    forall r { NoneAwaited(s.senders, s.facade, c, r); }
  }

  lemma CoveredRemoves(s: State, c: Client)
    requires StoreInv(s) && CoveredOk(s.store, s.senders, s.facade, s.ledger.claim, s.discs)
    ensures CoveredOk(Remove(s.store, c), s.senders, s.facade, s.ledger.claim, s.discs[c := DLock])
  {
    forall r | Awaits(s.senders, s.facade, r) && QueueOf(s.store, s.senders, r).Some?
      ensures RefOk(s.store, QueueOf(s.store, s.senders, r).value, r.client)
    {
      if r in s.store.home { assert QueueOk(s.store, s.store.home[r].q); }
    }
  }

  lemma UnsettledDrain(senders: map<Req, Sender>, f: Facade, claim: map<Req, Stage>, c: Client)
    requires UnsettledOk(senders, f, claim)
    ensures UnsettledOk(senders, DrainCallbacks(f, c), claim)
  {
  }

  lemma LiveRemove(st: Store, c: Client)
    requires LiveOk(st) && StoreOk(st)
    ensures LiveOk(Remove(st, c))
  {
  }

  lemma CoveredKeeps(s: State, discs: map<Client, Disc>)
    requires CoveredOk(s.store, s.senders, s.facade, s.ledger.claim, s.discs)
    requires forall c :: PastRemove(s.discs, c) ==> PastRemove(discs, c)
    ensures CoveredOk(s.store, s.senders, s.facade, s.ledger.claim, discs)
  {
  }

  lemma FacadeOnDisc(s: State, c: Client, s': State)
    requires FacadeInv(s) && StoreInv(s) && DiscMove(s, c, s')
    ensures FacadeInv(s')
  {
    match s.discs[c]
    case DRemove =>
      LiveRemove(s.store, c);
      CoveredRemoves(s, c);
    case DDrain =>
      CallsDrain(s.senders, s.facade, s.store.home, c);
      UnsettledDrain(s.senders, s.facade, s.ledger.claim, c);
      CoveredDrains(s, c, s');
    case _ => CoveredKeeps(s, s'.discs);
  }

  lemma FacadeOnCreate(s: State, c: Client, q: QRef, s': State)
    requires FacadeInv(s) && StoreInv(s) && Creates(s, c, q, s')
    ensures FacadeInv(s')
  {
  }

  lemma FacadeOnPeer(s: State, p: Peer, s': State)
    requires FacadeInv(s) && StoreInv(s) && PhaseInv(s) && PeerMove(s, p, s')
    ensures FacadeInv(s')
  {
    match p
    case Connect(_) =>
    case Disconnect(c) => CoveredKeeps(s, s'.discs);
    case CreateClient(c, q) => FacadeOnCreate(s, c, q, s');
    case DiscStep(c) => FacadeOnDisc(s, c, s');
  }

  lemma FacadeOnReader(s: State, d: Reader, s': State)
    requires FacadeInv(s) && ReaderMove(s, d, s')
    ensures FacadeInv(s')
  {
  }

  lemma FacadeOnDequeue(s: State, r: Req, s': State)
    requires FacadeInv(s) && Dequeues(s, r, s')
    ensures FacadeInv(s')
  {
  }

  lemma FacadeOnPump(s: State, p: PumpStep, s': State)
    requires FacadeInv(s) && StoreInv(s) && PumpNext(s, p, s')
    ensures FacadeInv(s')
  {
    match p
    case Route => FacadeOnRoute(s, s');
    case Complete => FacadeOnComplete(s, s');
    case Write(ok, ctx) => FacadeOnWrite(s, ok, ctx, s');
    case DrainOn => FacadeOnDrain(s, s');
    case Takes(c) => FacadeOnTakes(s, c, s');
    case _ =>
  }

  lemma FacadeOnWorld(s: State, w: WorldStep, s': State)
    requires FacadeInv(s) && OwnInv(s) && PhaseInv(s) && WorldNext(s, w, s')
    ensures FacadeInv(s')
  {
    match w
    case SendStart(r, f) => FacadeOnBegin(s, r, f, s');
    case SendStep(r) => FacadeOnSend(s, r, s');
    case PeerStep(p) => FacadeOnPeer(s, p, s');
    case ReaderStep(d) => FacadeOnReader(s, d, s');
    case Dequeue(r) => FacadeOnDequeue(s, r, s');
    case _ =>
  }

  // ---- over runs ----

  ghost predicate AccountInv(s: State) { SafeInv(s) && FacadeInv(s) }

  lemma AccountStep(s: State, l: Step, s': State)
    requires AccountInv(s) && Next(s, l, s')
    ensures AccountInv(s')
  {
    SafeStep(s, l, s');
    match l
    case Pumps(p) => FacadeOnPump(s, p, s');
    case World(w) => FacadeOnWorld(s, w, s');
  }

  /** Holds in every state of every run. */
  lemma {:induction false} AccountRun(run: Run, i: nat)
    requires IsRun(run) && i < |run.states|
    ensures AccountInv(run.states[i])
  {
    if i > 0 {
      AccountRun(run, i - 1);
      AccountStep(run.states[i - 1], run.steps[i - 1], run.states[i]);
    } else {
      assert run.states[i] == Init(run.capacity);
    }
  }

  /** A callback that was ever registered is still registered or was called,
      once: none is lost and none called twice. */
  lemma CallbacksAreConserved(run: Run, i: nat, r: Req)
    requires IsRun(run) && i < |run.states|
    ensures var f := run.states[i].facade;
            f.calls[r] + (if r in f.registered then 1 else 0) == if r in f.ever then 1 else 0
  {
    AccountRun(run, i);
  }
}
