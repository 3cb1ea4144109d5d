/**
 Restarts of the server dispatcher, in every run: a watcher keeps the channels
 of the generation that spawned it, the queue map starts empty, and Stop joins
 the pump before Start makes the next one. So a pump receives timeout and
 cancel tokens of its own generation only, and never writes a request that was
 pushed before its Start. Ready tokens do cross, and are harmless.
 */
module ServerGenerations {
  import opened Basics
  import opened QueueStore
  import opened ServerStack
  import opened ServerTokens
  import opened ServerOwnership
  import opened ServerPhase
  import opened ServerTrace

  /** While a pump is alive the dispatcher's fields are those of its generation. */
  predicate JoinOk(e: Epoch, p: Pump) { !p.Exited? ==> e.pumpOf == e.gen }

  /** A watcher was handed the channels of the pump that spawned it. */
  predicate WatchOk(watch: map<Ctx, Watch>, e: Epoch) {
    forall k :: k in watch ==> watch[k].born == watch[k].channel <= e.gen
  }

  /** Every channel holds tokens of its own watchers only. */
  predicate ChannelsOk(m: map<nat, seq<Ctx>>, watch: map<Ctx, Watch>) {
    forall g :: g in m ==> forall i :: 0 <= i < |m[g]| ==> m[g][i] in watch && watch[m[g][i]].channel == g
  }

  /** The context a pump is completing for was watched by its own generation. */
  predicate CarriedOk(p: Pump, watch: map<Ctx, Watch>, e: Epoch) {
    match p
    case TimeoutPending(_, _, k) => k in watch && watch[k].born == e.pumpOf
    case CompGet(_, _, why) => WhyOk(why, watch, e)
    case CompPop(_, _, _, why) => WhyOk(why, watch, e)
    case CompDelete(_, _, why) => WhyOk(why, watch, e)
    case _ => true
  }

  predicate WhyOk(why: Why, watch: map<Ctx, Watch>, e: Epoch) {
    why.ByTimeout? || why.ByCancel? ==> why.k in watch && watch[why.k].born == e.pumpOf
  }

  /** `r` was pushed to a queue made since the last Start. */
  predicate Recent(st: Store, past: set<QRef>, r: Req) { r in st.home && st.home[r].q !in past }

  /** The map and the pump know queues and requests of this generation only. */
  predicate RecentOk(st: Store, past: set<QRef>, p: Pump, loop: Loop) {
    && past <= st.queues.Keys
    && (forall c :: c in st.live ==> st.live[c] !in past)
    && (PumpQueue(p).Some? ==> PumpQueue(p).value !in past)
    && (p.DispAdd? || p.DispWrite? ==> PushedTo(st, p.r, p.q))
    && (p.Record? ==> Recent(st, past, p.r))
    && (forall c :: c in loop.disp ==> Recent(st, past, loop.disp[c]))
  }

  predicate PushedTo(st: Store, r: Req, q: QRef) { r in st.home && st.home[r].q == q }

  predicate GenInv(s: State) {
    && JoinOk(s.epoch, s.pump) && WatchOk(s.watch, s.epoch)
    && ChannelsOk(s.tokens.timers, s.watch) && ChannelsOk(s.tokens.cancels, s.watch)
    && CarriedOk(s.pump, s.watch, s.epoch) && RecentOk(s.store, s.epoch.past, s.pump, s.loop)
  }

  // ---- tokens ----

  predicate TokensOk(s: State) {
    && JoinOk(s.epoch, s.pump) && WatchOk(s.watch, s.epoch)
    && ChannelsOk(s.tokens.timers, s.watch) && ChannelsOk(s.tokens.cancels, s.watch)
    && CarriedOk(s.pump, s.watch, s.epoch)
  }

  /** What the pump receives was posted by a watcher of its own generation. */
  lemma TokenOfOwnPump(s: State, m: map<nat, seq<Ctx>>)
    requires TokensOk(s) && ChannelsOk(m, s.watch) && !s.pump.Exited? && Chan(m, s.epoch.gen) != []
    ensures Chan(m, s.epoch.gen)[0] in s.watch && s.watch[Chan(m, s.epoch.gen)[0]].born == s.epoch.pumpOf
    ensures ChannelsOk(m[s.epoch.gen := Chan(m, s.epoch.gen)[1..]], s.watch)
  {
  }

  lemma TokensOnArm(s: State, arm: Arm, s': State)
    requires TokensOk(s) && ArmMove(s, arm, s')
    ensures TokensOk(s')
  {
    if arm.OnTimer? { TokenOfOwnPump(s, s.tokens.timers); }
    if arm.OnCancel? { TokenOfOwnPump(s, s.tokens.cancels); }
  }

  lemma TokensOnRoute(s: State, s': State)
    requires TokensOk(s) && PumpRoutes(s, s')
    ensures TokensOk(s')
  {
  }

  lemma TokensOnComplete(s: State, s': State)
    requires TokensOk(s) && PumpCompletes(s, s')
    ensures TokensOk(s')
  {
  }

  lemma TokensOnDispatch(s: State, s': State)
    requires TokensOk(s) && PumpDispatches(s, s')
    ensures TokensOk(s')
  {
  }

  lemma ChannelsGrow(m: map<nat, seq<Ctx>>, watch: map<Ctx, Watch>, k: Ctx, w: Watch)
    requires ChannelsOk(m, watch) && k !in watch
    ensures ChannelsOk(m, watch[k := w])
  {
  }

  lemma TokensOnWrite(s: State, ok: bool, ctx: Option<Ctx>, s': State)
    requires TokensOk(s) && s.watch.Keys == s.ctxReq.Keys && WriteMove(s, ok, ctx, s')
    ensures TokensOk(s')
  {
    if ok && ctx.Some? {
      assert ctx.value !in s.watch.Keys;
      ChannelsGrow(s.tokens.timers, s.watch, ctx.value, s'.watch[ctx.value]);
      ChannelsGrow(s.tokens.cancels, s.watch, ctx.value, s'.watch[ctx.value]);
    }
  }

  lemma TokensOnDrain(s: State, s': State)
    requires TokensOk(s) && PumpDrains(s, s')
    ensures TokensOk(s')
  {
  }

  lemma ChannelsPost(m: map<nat, seq<Ctx>>, watch: map<Ctx, Watch>, k: Ctx)
    requires ChannelsOk(m, watch) && k in watch
    ensures ChannelsOk(m[watch[k].channel := Chan(m, watch[k].channel) + [k]], watch)
  {
  }

  lemma TokensOnEvent(s: State, e: Event, s': State)
    requires TokensOk(s) && EventMove(s, e, s')
    ensures TokensOk(s')
  {
    match e
    case Expire(_) =>
    case PostTimeout(k) => ChannelsPost(s.tokens.timers, s.watch, k);
    case PostCancel(k) => ChannelsPost(s.tokens.cancels, s.watch, k);
  }

  lemma TokensOnStart(s: State, s': State)
    requires TokensOk(s) && StartMove(s, s')
    ensures TokensOk(s')
  {
  }

  // ---- queues and requests ----

  lemma RecentOnArm(s: State, arm: Arm, s': State)
    requires RecentOk(s.store, s.epoch.past, s.pump, s.loop) && ArmMove(s, arm, s')
    ensures RecentOk(s'.store, s'.epoch.past, s'.pump, s'.loop)
  {
  }

  lemma RecentOnRoute(s: State, s': State)
    requires RecentOk(s.store, s.epoch.past, s.pump, s.loop) && PumpRoutes(s, s')
    ensures RecentOk(s'.store, s'.epoch.past, s'.pump, s'.loop)
  {
  }

  lemma RecentOnComplete(s: State, s': State)
    requires RecentOk(s.store, s.epoch.past, s.pump, s.loop) && PumpCompletes(s, s')
    ensures RecentOk(s'.store, s'.epoch.past, s'.pump, s'.loop)
  {
  }

  lemma RecentOnDispatch(s: State, s': State)
    requires StoreInv(s) && RecentOk(s.store, s.epoch.past, s.pump, s.loop) && PumpDispatches(s, s')
    ensures RecentOk(s'.store, s'.epoch.past, s'.pump, s'.loop)
  {
    if s.pump.DispPeek? { assert QueueOk(s.store, s.pump.q); }
  }

  lemma RecentOnWrite(s: State, ok: bool, ctx: Option<Ctx>, s': State)
    requires StoreInv(s) && RecentOk(s.store, s.epoch.past, s.pump, s.loop) && WriteMove(s, ok, ctx, s')
    ensures RecentOk(s'.store, s'.epoch.past, s'.pump, s'.loop)
  {
  }

  lemma RecentOnDrain(s: State, s': State)
    requires RecentOk(s.store, s.epoch.past, s.pump, s.loop) && PumpDrains(s, s')
    ensures RecentOk(s'.store, s'.epoch.past, s'.pump, s'.loop)
  {
  }

  lemma RecentOnTakes(s: State, c: Client, s': State)
    requires StoreInv(s) && RecentOk(s.store, s.epoch.past, s.pump, s.loop) && DrainMove(s, c, s')
    ensures RecentOk(s'.store, s'.epoch.past, s'.pump, s'.loop)
  {
  }

  lemma RecentPush(st: Store, past: set<QRef>, p: Pump, loop: Loop, q: QRef, r: Req)
    requires RecentOk(st, past, p, loop) && r !in st.home
    ensures RecentOk(Push(st, q, r), past, p, loop)
  {
  }

  lemma RecentOnSend(s: State, r: Req, s': State)
    requires SendersOk(s.store, s.senders) && RecentOk(s.store, s.epoch.past, s.pump, s.loop) && SendMove(s, r, s')
    ensures RecentOk(s'.store, s'.epoch.past, s'.pump, s'.loop)
  {
    if s.senders[r].pc.SPush? { RecentPush(s.store, s.epoch.past, s.pump, s.loop, s.senders[r].pc.q, r); }
  }

  lemma RecentOnPeer(s: State, p: Peer, s': State)
    requires RecentOk(s.store, s.epoch.past, s.pump, s.loop) && PeerMove(s, p, s')
    ensures RecentOk(s'.store, s'.epoch.past, s'.pump, s'.loop)
  {
  }

  lemma RecentOnReader(s: State, d: Reader, s': State)
    requires RecentOk(s.store, s.epoch.past, s.pump, s.loop) && ReaderMove(s, d, s')
    ensures RecentOk(s'.store, s'.epoch.past, s'.pump, s'.loop)
  {
  }

  lemma RecentOnStart(s: State, s': State)
    requires PhaseInv(s) && RecentOk(s.store, s.epoch.past, s.pump, s.loop) && StartMove(s, s')
    ensures RecentOk(s'.store, s'.epoch.past, s'.pump, s'.loop)
  {
  }

  lemma GenOnPump(s: State, p: PumpStep, s': State)
    requires StoreInv(s) && GenInv(s) && s.watch.Keys == s.ctxReq.Keys && PumpNext(s, p, s')
    ensures GenInv(s')
  {
    match p
    case Selects(arm) => TokensOnArm(s, arm, s'); RecentOnArm(s, arm, s');
    case Route => TokensOnRoute(s, s'); RecentOnRoute(s, s');
    case Complete => TokensOnComplete(s, s'); RecentOnComplete(s, s');
    case Dispatch => TokensOnDispatch(s, s'); RecentOnDispatch(s, s');
    case Write(ok, ctx) => TokensOnWrite(s, ok, ctx, s'); RecentOnWrite(s, ok, ctx, s');
    case DrainOn => TokensOnDrain(s, s'); RecentOnDrain(s, s');
    case Takes(c) => RecentOnTakes(s, c, s');
  }

  lemma GenOnWorld(s: State, w: WorldStep, s': State)
    requires StoreInv(s) && PhaseInv(s) && GenInv(s) && WorldNext(s, w, s')
    ensures GenInv(s')
  {
    match w
    case SendStep(r) => RecentOnSend(s, r, s');
    case PeerStep(p) => GenOnPeer(s, p, s');
    case ReaderStep(d) => GenOnReader(s, d, s');
    case Happens(e) => TokensOnEvent(s, e, s');
    case StartStep => TokensOnStart(s, s'); RecentOnStart(s, s');
    case _ =>
  }

  lemma GenOnPeer(s: State, p: Peer, s': State)
    requires GenInv(s) && PeerMove(s, p, s')
    ensures GenInv(s')
  {
    RecentOnPeer(s, p, s');
  }

  lemma GenOnReader(s: State, d: Reader, s': State)
    requires GenInv(s) && ReaderMove(s, d, s')
    ensures GenInv(s')
  {
    RecentOnReader(s, d, s');
  }

  // ---- what crosses and what does not ----

  /** A pump writes only requests pushed since its own Start. */
  lemma WritesRecent(s: State, ctx: Option<Ctx>, s': State, r: Req)
    requires GenInv(s) && WriteMove(s, true, ctx, s') && r !in s.wired && r in s'.wired
    ensures Recent(s.store, s.epoch.past, r)
  {
  }

  /** `r` was pushed to a queue made before the last Start. */
  predicate OfThePast(s: State, r: Req) { r in s.store.home && s.store.home[r].q in s.epoch.past }

  /** A queue made before some Start belongs to the past for good. */
  lemma PastGrows(s: State, l: Step, s': State)
    requires RecentOk(s.store, s.epoch.past, s.pump, s.loop) && Next(s, l, s')
    ensures s.epoch.past <= s'.epoch.past
  {
    match l
    case Pumps(p) => GenOnPumpStep(s, p, s');
    case World(w) => PastOnStep(s, w, s');
  }

  lemma PastOnStep(s: State, w: WorldStep, s': State)
    requires RecentOk(s.store, s.epoch.past, s.pump, s.loop) && WorldNext(s, w, s')
    ensures s.epoch.past <= s'.epoch.past
  {
    match w
    case PeerStep(p) => GenOnPeerStep(s, p, s');
    case ReaderStep(d) => GenOnReaderStep(s, d, s');
    case _ =>
  }

  lemma WiredOnPump(s: State, p: PumpStep, s': State, r: Req)
    requires GenInv(s) && PumpNext(s, p, s')
    ensures r in s.wired ==> r in s'.wired
    ensures r in s'.wired ==> r in s.wired || Recent(s.store, s.epoch.past, r)
  {
    if p.Write? && p.ok && r !in s.wired && r in s'.wired { WritesRecent(s, p.ctx, s', r); }
  }

  /** A ready token of an earlier generation completes nothing, un-pends nothing
      and forgets no recorded dispatch and none of their timeouts. Where a
      dispatch is recorded for its client it is dropped; otherwise the pump
      looks at that client's queue once more. */
  lemma CrossingReadyIsHarmless(s: State, s': State)
    requires GenInv(s) && s.ready.Some? && !Recent(s.store, s.epoch.past, s.ready.value) && ArmMove(s, OnReady, s')
    ensures s'.store == s.store && s'.pending == s.pending && s'.ledger == s.ledger && s'.loop.disp == s.loop.disp
    ensures forall c :: c in s.loop.disp ==> Lookup(s'.loop.ctxMap, c) == Lookup(s.loop.ctxMap, c)
    ensures s'.pump == if s.ready.value.client in s.loop.disp then Select else ReadyGet(s.ready.value.client)
  {
    assert s.ready.value.client !in s.loop.disp ==> s.loop.disp - {s.ready.value.client} == s.loop.disp;
  }

  // ---- over runs ----

  ghost predicate EpochInv(s: State) { SafeInv(s) && TokenInv(s) && GenInv(s) }

  lemma EpochStep(s: State, l: Step, s': State)
    requires EpochInv(s) && Next(s, l, s')
    ensures EpochInv(s')
  {
    SafeStep(s, l, s');
    TokenStep(s, l, s');
    match l
    case Pumps(p) => GenOnPump(s, p, s');
    case World(w) => GenOnWorld(s, w, s');
  }

  /** Holds in every state of every run. */
  lemma {:induction false} EpochRun(run: Run, i: nat)
    requires IsRun(run) && i < |run.states|
    ensures EpochInv(run.states[i])
  {
    if i > 0 {
      EpochRun(run, i - 1);
      EpochStep(run.states[i - 1], run.steps[i - 1], run.states[i]);
    }
  }

  /** What the pump receives on its timeout and cancel channels was posted by a
      watcher that this very pump spawned. */
  lemma NoTokenCrosses(run: Run, i: nat, arm: Arm)
    requires IsRun(run) && i < |run.steps| && run.steps[i] == Pumps(Selects(arm)) && (arm.OnTimer? || arm.OnCancel?)
    ensures var s := run.states[i]; var c := if arm.OnTimer? then TimerC(s) else CancelC(s);
            c != [] && c[0] in s.watch && s.watch[c[0]].born == s.epoch.pumpOf
  {
    EpochRun(run, i);
    var s := run.states[i];
    assert ArmMove(s, arm, run.states[i + 1]) by { assert Next(s, run.steps[i], run.states[i + 1]); }
    TokenOfOwnPump(s, if arm.OnTimer? then s.tokens.timers else s.tokens.cancels);
  }

  /** A ready token left over from an earlier generation changes no queue, no
      pending slot, no owner and no recorded dispatch. */
  lemma CrossingReadyInRun(run: Run, i: nat)
    requires IsRun(run) && i < |run.steps| && run.steps[i] == Pumps(Selects(OnReady)) && run.states[i].ready.Some?
    requires !Recent(run.states[i].store, run.states[i].epoch.past, run.states[i].ready.value)
    ensures var s, s' := run.states[i], run.states[i + 1];
            && s'.store == s.store && s'.pending == s.pending && s'.ledger == s.ledger && s'.loop.disp == s.loop.disp
            && (forall c :: c in s.loop.disp ==> Lookup(s'.loop.ctxMap, c) == Lookup(s.loop.ctxMap, c))
  {
    EpochRun(run, i);
    assert ArmMove(run.states[i], OnReady, run.states[i + 1]) by { assert Next(run.states[i], run.steps[i], run.states[i + 1]); }
    CrossingReadyIsHarmless(run.states[i], run.states[i + 1]);
  }

  lemma WiredInRun(run: Run, i: nat, r: Req)
    requires IsRun(run) && i < |run.steps|
    ensures r in run.states[i].wired ==> r in run.states[i + 1].wired
    ensures r in run.states[i + 1].wired ==> r in run.states[i].wired || Recent(run.states[i].store, run.states[i].epoch.past, r)
  {
    EpochRun(run, i);
    match run.steps[i]
    case Pumps(p) => WiredOnPump(run.states[i], p, run.states[i + 1], r);
    case World(w) => WiredOnWorld(run.states[i], w, run.states[i + 1]);
  }

  lemma PastStays(run: Run, i: nat, r: Req)
    requires IsRun(run) && i < |run.steps| && OfThePast(run.states[i], r)
    ensures OfThePast(run.states[i + 1], r)
  {
    EpochRun(run, i);
    HomeStays(run, i, r);
    PastGrows(run.states[i], run.steps[i], run.states[i + 1]);
  }

  /** A request left over from before a Start, whatever its sender was told, is
      never written after it. */
  lemma {:induction false} NoRequestCrosses(run: Run, i: nat, j: nat, r: Req)
    requires IsRun(run) && i <= j < |run.states| && OfThePast(run.states[i], r)
    ensures OfThePast(run.states[j], r)
    ensures r in run.states[j].wired <==> r in run.states[i].wired
  {
    if i < j {
      NoRequestCrosses(run, i, j - 1, r);
      PastStays(run, j - 1, r);
      WiredInRun(run, j - 1, r);
    }
  }

  lemma TokensInRun(run: Run, i: nat, r: Req)
    requires IsRun(run) && i < |run.steps| && run.steps[i] == Pumps(Complete)
    requires r !in run.states[i].ledger.claim && r in run.states[i + 1].ledger.claim
    ensures var s := run.states[i];
            && s.pump.CompPop?
            && (s.pump.why.ByTimeout? ==> Lookup(s.ctxReq, s.pump.why.k) == Some(r) && r in s.wired)
            && (s.pump.why.ByCancel? ==> Lookup(s.ctxReq, s.pump.why.k) == Some(r) && r in s.wired && r in s.expired)
            && WhyOk(s.pump.why, s.watch, s.epoch)
  {
    EpochRun(run, i);
    TokenCompletesItsOwn(run.states[i], run.states[i + 1], r);
  }
}
