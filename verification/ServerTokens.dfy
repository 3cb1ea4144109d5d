/**
 Timeout and cancel tokens, in every run: the active context of a client was
 made for the request recorded as dispatched, or none is recorded, so a token
 completes the request it was posted for or nothing.
 */
module ServerTokens {
  import opened Basics
  import opened QueueStore
  import opened ServerStack
  import opened ServerTrace
  import opened ServerOwnership

  /** An active context belongs to the recorded dispatched id, or none is recorded. */
  predicate CtxOk(loop: Loop, ctxReq: map<Ctx, Req>) {
    forall c :: c in loop.ctxMap ==>
      && loop.ctxMap[c] in ctxReq && ctxReq[loop.ctxMap[c]].client == c
      && (c in loop.disp ==> loop.disp[c] == ctxReq[loop.ctxMap[c]])
  }

  predicate CtxWired(ctxReq: map<Ctx, Req>, wired: set<Req>) { forall k :: k in ctxReq ==> ctxReq[k] in wired }

  /** A cancel token is posted once the caller context of its request has fired. */
  predicate CancelsOk(cancels: map<nat, seq<Ctx>>, ctxReq: map<Ctx, Req>, expired: set<Req>) {
    forall g :: g in cancels ==> forall i :: 0 <= i < |cancels[g]| ==> cancels[g][i] in ctxReq && ctxReq[cancels[g][i]] in expired
  }

  /** `rid` is what a token of kind `why` may complete. */
  predicate Names(ctxReq: map<Ctx, Req>, s: State, rid: Option<Req>, why: Why) {
    match why
    case ByTimeout(k) => k in ctxReq && (rid.Some? ==> rid.value == ctxReq[k])
    case ByCancel(k) => rid.Some? && Lookup(ctxReq, k) == rid && rid.value in s.wired && rid.value in s.expired
    case _ => true
  }

  predicate CarriesOk(s: State) {
    match s.pump
    case TimeoutPending(c, rid, k) => Names(s.ctxReq, s, rid, ByTimeout(k))
    case CompGet(c, rid, why) => Names(s.ctxReq, s, rid, why)
    case CompPop(c, q, rid, why) => Names(s.ctxReq, s, rid, why)
    case CompDelete(c, r, why) => Names(s.ctxReq, s, Some(r), why)
    case DispPeek(c, q) => RefOk(s.store, q, c)
    case DispAdd(c, q, r) => r.client == c
    case DispWrite(c, q, r) => r.client == c
    case Record(c, r, ctx) => r.client == c && (ctx.Some? ==> Lookup(s.ctxReq, ctx.value) == Some(r))
    case _ => true
  }

  predicate TokenInv(s: State) {
    && CtxOk(s.loop, s.ctxReq) && CtxWired(s.ctxReq, s.wired)
    && CancelsOk(s.tokens.cancels, s.ctxReq, s.expired) && CarriesOk(s) && s.watch.Keys == s.ctxReq.Keys
  }

  lemma TokenOnArm(s: State, arm: Arm, s': State)
    requires TokenInv(s) && ArmMove(s, arm, s')
    ensures TokenInv(s')
  {
  }

  lemma TokenOnRoute(s: State, s': State)
    requires TokenInv(s) && PumpRoutes(s, s')
    ensures TokenInv(s')
  {
  }

  lemma TokenOnComplete(s: State, s': State)
    requires TokenInv(s) && PumpCompletes(s, s')
    ensures TokenInv(s')
  {
  }

  lemma TokenOnDispatch(s: State, s': State)
    requires StoreInv(s) && TokenInv(s) && PumpDispatches(s, s')
    ensures TokenInv(s')
  {
    if s.pump.DispPeek? { assert QueueOk(s.store, s.pump.q); }
  }

  lemma TokenOnWrite(s: State, ok: bool, ctx: Option<Ctx>, s': State)
    requires TokenInv(s) && WriteMove(s, ok, ctx, s')
    ensures TokenInv(s')
  {
  }

  lemma TokenOnPump(s: State, p: PumpStep, s': State)
    requires StoreInv(s) && TokenInv(s) && PumpNext(s, p, s')
    ensures TokenInv(s')
  {
    match p
    case Selects(arm) => TokenOnArm(s, arm, s');
    case Route => TokenOnRoute(s, s');
    case Complete => TokenOnComplete(s, s');
    case Dispatch => TokenOnDispatch(s, s');
    case Write(ok, ctx) => TokenOnWrite(s, ok, ctx, s');
    case _ =>
  }

  lemma TokenOnSend(s: State, r: Req, s': State)
    requires TokenInv(s) && SendMove(s, r, s')
    ensures TokenInv(s')
  {
  }

  lemma TokenOnPeer(s: State, p: Peer, s': State)
    requires TokenInv(s) && PeerMove(s, p, s')
    ensures TokenInv(s')
  {
  }

  lemma TokenOnReader(s: State, d: Reader, s': State)
    requires TokenInv(s) && ReaderMove(s, d, s')
    ensures TokenInv(s')
  {
  }

  lemma TokenOnEvent(s: State, e: Event, s': State)
    requires TokenInv(s) && EventMove(s, e, s')
    ensures TokenInv(s')
  {
  }

  lemma TokenOnWorld(s: State, w: WorldStep, s': State)
    requires TokenInv(s) && WorldNext(s, w, s')
    ensures TokenInv(s')
  {
    match w
    case SendStep(r) => TokenOnSend(s, r, s');
    case PeerStep(p) => TokenOnPeer(s, p, s');
    case ReaderStep(d) => TokenOnReader(s, d, s');
    case Happens(e) => TokenOnEvent(s, e, s');
    case _ =>
  }

  /** The pump takes a request over only where it pops one. */
  lemma ClaimsByPop(s: State, s': State, r: Req)
    requires OwnInv(s) && PumpCompletes(s, s')
    ensures r in s'.ledger.claim ==> r in s.ledger.claim || s.pump.CompPop?
  {
    if s.pump.CompDelete? { assert Holds(s.pump, s.pump.r); }
  }

  /** Whatever the pump completes on a token is the request the token was
      posted for, and that request had been written. */
  lemma TokenCompletesItsOwn(s: State, s': State, r: Req)
    requires OwnInv(s) && TokenInv(s) && PumpCompletes(s, s') && r !in s.ledger.claim && r in s'.ledger.claim
    ensures s.pump.CompPop?
    ensures s.pump.why.ByTimeout? ==> Lookup(s.ctxReq, s.pump.why.k) == Some(r) && r in s.wired
    ensures s.pump.why.ByCancel? ==> Lookup(s.ctxReq, s.pump.why.k) == Some(r) && r in s.wired && r in s.expired
  {
    ClaimsByPop(s, s', r);
  }

  lemma TokenStep(s: State, l: Step, s': State)
    requires OwnInv(s) && TokenInv(s) && Next(s, l, s')
    ensures TokenInv(s')
  {
    match l
    case Pumps(p) => TokenOnPump(s, p, s');
    case World(w) => TokenOnWorld(s, w, s');
  }
}
