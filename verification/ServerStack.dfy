/**
 The server side of the library as one concurrent step system: the request
 dispatcher (pump goroutine, senders, read goroutines, disconnects, Stop), the
 queue map and one-slot pending state it shares with them, and the central
 system facade with its callback queue.

 A step is one operation the source performs under one lock, or one channel
 operation, together with the thread-local work that follows it. Identifiers
 are opaque tokens compared for equality only. A request is named by its
 (client, message id) pair, the key every map and token of the source uses.
 Network writes, timers and caller contexts are events that may happen or not.

 Start may be called again once Stop has returned. Each Start makes new request
 and token channels and a new pump; readyForDispatch, the queue objects, and
 every goroutine still under way live on.
 */
module ServerStack {
  import opened Basics
  import opened QueueStore

  type Ctx = nat

  const REQUEST_CHANNEL_CAPACITY := 20
  const TOKEN_CHANNEL_CAPACITY := 10

  /** What became of a request that left its queue: who took it and how far
      that owner has got towards dequeuing the facade callback. */
  datatype Stage =
    | PumpHeld     // popped on the pump, cancel not fired yet
    | Drained      // taken by the stop drain, cancel not fired yet
    | RespPopped   // a read goroutine popped it, pending state not cleared yet
    | RespDeleted  // ... pending state cleared, ready token not sent yet
    | RespWon      // ... CompleteRequest returned true, response handler running
    | Cancelled    // cancel fired, its goroutine has not dequeued yet
    | Settled      // the owner has called Dequeue

  datatype Why = ByTimeout(k: Ctx) | ByCancel(k: Ctx) | ByDrop | ByWriteError

  /** Where the pump goroutine is, with the locals it carries there. */
  datatype Pump =
    | Select
    | ReqGet(c: Client, ack: bool)
    | TimeoutPending(c: Client, rid: Option<Req>, k: Ctx)
    | TimeoutElse(c: Client)
    | ReadyGet(c: Client)
    | CompGet(c: Client, rid: Option<Req>, why: Why)
    | CompPop(c: Client, q: QRef, rid: Option<Req>, why: Why)
    | CompDelete(c: Client, r: Req, why: Why)
    | WonGet(c: Client, r: Req)
    | GuardEmpty(c: Client)
    | GuardPending(c: Client)
    | DispGet(c: Client)
    | DispPeek(c: Client, q: QRef)
    | DispAdd(c: Client, q: QRef, r: Req)
    | DispWrite(c: Client, q: QRef, r: Req)
    | Record(c: Client, r: Req, ctx: Option<Ctx>)
    | LoopGet(c: Client)
    | LoopEmpty(c: Client, q: QRef)
    | DrainMap
    | DrainPending(todo: map<Client, QRef>)
    | DrainQueues(todo: map<Client, QRef>)
    | Firing(todo: map<Client, QRef>, rest: seq<Req>)
    | Exited

  datatype SendPc = SRun | SGet | SPush(q: QRef) | SLock | SSend | SReg
  datatype Sender = Sender(pc: SendPc, facade: bool)
  /** Where onClientDisconnected is; `gen` is the generation it posted its delete token in. */
  datatype Disc = DRemove | DLock | DSend | DWait(gen: nat) | DClear | DDrain
  datatype Completer = Completer(r: Req, q: Option<QRef>)
  datatype StopPc = NotCalled | Locking | Joining | Returned
  datatype ReqTok = ReqTok(c: Client, ack: bool)

  /** The pump's own variables: active contexts, dispatched ids, rdy, clientQueue. */
  datatype Loop = Loop(ctxMap: map<Client, Ctx>, disp: map<Client, Req>, rdy: bool, cq: Option<QRef>)

  /** callbacksMutex holder, callbacks registered now, callbacks invoked so far,
      and every callback that was ever registered. */
  datatype Facade = Facade(mutexBy: Option<Req>, registered: set<Req>, calls: multiset<Req>, ever: set<Req>)

  /** Start calls so far, the one the pump goroutine belongs to, and the queue
      objects made before the last one. */
  datatype Epoch = Epoch(gen: nat, pumpOf: nat, past: set<QRef>)

  /** A watcher goroutine: the generation of the pump that spawned it, and the
      generation whose channels it was handed. */
  datatype Watch = Watch(born: nat, channel: nat)

  /** timerC and cancelC of every generation. A token names the context it was posted for. */
  datatype Tokens = Tokens(timers: map<nat, seq<Ctx>>, cancels: map<nat, seq<Ctx>>)

  /** Owners of the requests that left a queue, and notifications fired so far. */
  datatype Ledger = Ledger(claim: map<Req, Stage>, notes: multiset<Req>)

  datatype State = State(
    store: Store,                      // queue objects and the FIFOQueueMap
    pending: map<Client, Req>,         // serverState, one slot per client
    reqC: seq<ReqTok>,
    ready: Option<Req>,                // readyForDispatch, capacity 1
    tokens: Tokens,
    running: bool,
    stop: StopPc,                      // the Stop that found the dispatcher running
    epoch: Epoch,
    pump: Pump,
    loop: Loop,
    ctxReq: map<Ctx, Req>,             // the request each timeout context was made for
    watch: map<Ctx, Watch>,            // its watcher
    senders: map<Req, Sender>,
    discs: map<Client, Disc>,          // onClientDisconnected calls in progress
    completers: map<nat, Completer>,   // read goroutines inside completeRequestOwned
    facade: Facade,
    ledger: Ledger,
    connected: set<Client>,            // ids in the websocket registry
    owed: multiset<Client>,            // registered connections whose connect handler has not run
    expired: set<Req>,                 // caller contexts that have fired
    accepted: set<Req>,                // SendRequest returned nil
    wired: set<Req>,                   // written to the network
    sent: set<Req>)                    // written over the client's current connection

  function Init(capacity: nat): State {
    State(Store(capacity, map[], map[], map[], {}), map[], [], None, Tokens(map[], map[]), true, NotCalled,
          Epoch(0, 0, {}), Select, FirstLoop(), map[], map[], map[], map[], map[],
          Facade(None, {}, multiset{}, {}), Ledger(map[], multiset{}), {}, multiset{}, {}, {}, {}, {})
  }

  datatype Arm = OnStop | OnReq | OnTimer | OnReady | OnCancel
  datatype Peer = Connect(c: Client) | Disconnect(c: Client) | CreateClient(c: Client, q: QRef) | DiscStep(c: Client)
  datatype Reader = Respond(t: nat, r: Req) | CompStep(t: nat) | RespDelete(r: Req) | RespSignal(r: Req)
  datatype Event = Expire(r: Req) | PostTimeout(k: Ctx) | PostCancel(k: Ctx)

  datatype PumpStep =
    | Selects(arm: Arm) | Route | Complete | Dispatch | Write(ok: bool, ctx: Option<Ctx>)
    | DrainOn | Takes(c: Client)

  datatype WorldStep =
    | SendStart(r: Req, facade: bool) | SendStep(r: Req)
    | PeerStep(p: Peer) | ReaderStep(d: Reader) | Dequeue(r: Req)
    | Happens(e: Event) | StopStep | StartStep

  datatype Step = Pumps(p: PumpStep) | World(w: WorldStep)

  /** The pump's variables when it starts. */
  function FirstLoop(): Loop { Loop(map[], map[], false, None) }

  // ---- reading the state ----

  /** What a channel of generation `g` holds. */
  function Chan(m: map<nat, seq<Ctx>>, g: nat): seq<Ctx> { if g in m then m[g] else [] }

  /** The pump selects on the channels the dispatcher's fields hold now. */
  function TimerC(s: State): seq<Ctx> { Chan(s.tokens.timers, s.epoch.gen) }

  function CancelC(s: State): seq<Ctx> { Chan(s.tokens.cancels, s.epoch.gen) }

  /** A waiting writer blocks new readers, so RLock needs no Stop in its Lock call. */
  predicate ReadLockFree(s: State) { s.stop != Locking }

  /** Nobody holds the dispatcher's read lock across a blocking operation. */
  predicate NoReaders(s: State) {
    && (forall r :: r in s.senders ==> !s.senders[r].pc.SSend?)
    && (forall c :: c in s.discs ==> !s.discs[c].DSend?)
  }

  predicate Draining(p: Pump) { p.DrainMap? || p.DrainPending? || p.DrainQueues? || p.Firing? || p.Exited? }

  predicate Completing(p: Pump) { p.CompGet? || p.CompPop? || p.CompDelete? }

  /** Detached queues the stop drain has still to take. */
  function Todo(p: Pump): map<Client, QRef> {
    match p
    case DrainPending(todo) => todo
    case DrainQueues(todo) => todo
    case Firing(todo, _) => todo
    case _ => map[]
  }

  // ---- updates the steps are made of ----

  function Claimed(g: Ledger, r: Req, stage: Stage): Ledger { g.(claim := g.claim[r := stage]) }

  /** One notification (response or cancel handler) fires for `r`. */
  function Notified(g: Ledger, r: Req, stage: Stage): Ledger {
    Ledger(g.claim[r := stage], g.notes + multiset{r})
  }

  /** AddPendingRequest leaves an occupied slot alone. */
  function WithPending(pending: map<Client, Req>, c: Client, r: Req): map<Client, Req> {
    if c in pending then pending else pending[c := r]
  }

  function WithoutPending(pending: map<Client, Req>, r: Req): map<Client, Req> {
    if Lookup(pending, r.client) == Some(r) then pending - {r.client} else pending
  }

  function Forget(p: Loop, c: Client): Loop { p.(ctxMap := p.ctxMap - {c}, disp := p.disp - {c}) }

  // Each group of steps first says which parts of the state it may change.

  // ---- the pump: select arms ----

  predicate ArmTo(s: State, pump: Pump, loop: Loop, s': State) { s'.pump == pump && s'.loop == loop }

  predicate TimerArm(s: State, s': State) {
    && TimerC(s) != [] && s'.tokens == s.tokens.(timers := s.tokens.timers[s.epoch.gen := TimerC(s)[1..]])
    && s'.reqC == s.reqC && s'.ready == s.ready
    && var k := TimerC(s)[0];
       if k !in s.ctxReq || Lookup(s.loop.ctxMap, s.ctxReq[k].client) != Some(k) then ArmTo(s, Select, s.loop, s')
       else
         var c := s.ctxReq[k].client;
         ArmTo(s, TimeoutPending(c, Lookup(s.loop.disp, c), k), Forget(s.loop, c), s')
  }

  predicate ReadyArm(s: State, s': State) {
    && s.ready.Some? && s'.ready == None
    && s'.reqC == s.reqC && s'.tokens == s.tokens
    && var r := s.ready.value;
       if r.client in s.loop.disp && s.loop.disp[r.client] != r then ArmTo(s, Select, s.loop, s')
       else ArmTo(s, ReadyGet(r.client), Forget(s.loop, r.client), s')
  }

  predicate CancelArm(s: State, s': State) {
    && CancelC(s) != [] && s'.tokens == s.tokens.(cancels := s.tokens.cancels[s.epoch.gen := CancelC(s)[1..]])
    && s'.reqC == s.reqC && s'.ready == s.ready
    && var r := Lookup(s.ctxReq, CancelC(s)[0]);
       if r.None? || Lookup(s.loop.disp, r.value.client) != r then ArmTo(s, Select, s.loop.(rdy := false, cq := None), s')
       else ArmTo(s, CompGet(r.value.client, r, ByCancel(CancelC(s)[0])), s.loop, s')
  }

  predicate ReqArm(s: State, s': State) {
    && s.reqC != [] && s'.reqC == s.reqC[1..]
    && s'.ready == s.ready && s'.tokens == s.tokens
    && ArmTo(s, ReqGet(s.reqC[0].c, s.reqC[0].ack), s.loop, s')
  }

  predicate StopArm(s: State, s': State) {
    && !s.running
    && s'.reqC == s.reqC && s'.ready == s.ready && s'.tokens == s.tokens
    && ArmTo(s, DrainMap, s.loop, s')
  }

  predicate ArmMove(s: State, arm: Arm, s': State) {
    && s' == s.(pump := s'.pump, loop := s'.loop, reqC := s'.reqC, ready := s'.ready, tokens := s'.tokens)
    && s.pump.Select?
    && match arm
       case OnStop => StopArm(s, s')
       case OnReq => ReqArm(s, s')
       case OnTimer => TimerArm(s, s')
       case OnReady => ReadyArm(s, s')
       case OnCancel => CancelArm(s, s')
  }

  // ---- the pump: from a select arm to the dispatch guard ----

  predicate RouteTo(s: State, pump: Pump, loop: Loop, s': State) {
    s'.pump == pump && s'.loop == loop && s'.discs == s.discs && s'.ledger == s.ledger
  }

  /** The deleteAck channel of `c`'s disconnect is closed. A token left behind by
      a wait that timed out closes a channel nobody listens to; that it may end a
      later wait here adds only what that wait's own timeout allows. */
  function Acked(discs: map<Client, Disc>, c: Client): map<Client, Disc> {
    if c in discs && discs[c].DWait? then discs[c := DClear] else discs
  }

  predicate ReqGetStep(s: State, c: Client, ack: bool, s': State) {
    var found := Lookup(s.store.live, c);
    var loop := if ack || found.None? then Forget(s.loop, c) else s.loop;
    && s'.discs == (if ack then Acked(s.discs, c) else s.discs)
    && s'.ledger == s.ledger
    && s'.pump == (if found.None? then Select else GuardEmpty(c))
    && s'.loop == (if found.None? then loop.(cq := None) else loop.(cq := found, rdy := c !in loop.ctxMap))
  }

  predicate WonGetStep(s: State, c: Client, r: Req, s': State) {
    && s'.pump == GuardEmpty(c) && s'.discs == s.discs
    && s'.ledger == Notified(s.ledger, r, Cancelled)
    && s'.loop == s.loop.(cq := Lookup(s.store.live, c), rdy := true)
  }

  /** clientQueue, ok = queueMap.Get(c); rdy becomes true when a queue was found. */
  function Found(p: Loop, live: map<Client, QRef>, c: Client): Loop {
    p.(cq := Lookup(live, c), rdy := p.rdy || c in live)
  }

  predicate Ready(s: State) { s.loop.rdy && s.loop.cq.Some? && Front(s.store, s.loop.cq.value).Some? }

  predicate PumpRoutes(s: State, s': State) {
    && s' == s.(pump := s'.pump, loop := s'.loop, discs := s'.discs, ledger := s'.ledger)
    && match s.pump
       case ReqGet(c, ack) => ReqGetStep(s, c, ack, s')
       case TimeoutPending(c, rid, k) =>
         RouteTo(s, if c in s.pending then CompGet(c, rid, ByTimeout(k)) else TimeoutElse(c), s.loop, s')
       case TimeoutElse(c) =>
         RouteTo(s, GuardEmpty(c), if c in s.store.live then Found(s.loop, s.store.live, c) else s.loop, s')
       case ReadyGet(c) => RouteTo(s, GuardEmpty(c), Found(s.loop, s.store.live, c), s')
       case WonGet(c, r) => WonGetStep(s, c, r, s')
       case GuardEmpty(c) => RouteTo(s, if Ready(s) then GuardPending(c) else Select, s.loop, s')
       case GuardPending(c) => RouteTo(s, if c in s.pending then Select else DispGet(c), s.loop, s')
       case _ => false
  }

  // ---- the pump: completeRequestOwned ----

  predicate CompTo(s: State, pump: Pump, loop: Loop, s': State) {
    s'.pump == pump && s'.loop == loop && s'.store == s.store && s'.ledger == s.ledger && s'.pending == s.pending
  }

  /** Where the pump goes when completeRequestOwned did not win. */
  predicate Lost(s: State, c: Client, why: Why, s': State) {
    match why
    case ByTimeout(_) => CompTo(s, Select, s.loop, s')
    case ByCancel(_) => CompTo(s, Select, s.loop.(rdy := false, cq := None), s')
    case _ => CompTo(s, LoopGet(c), Forget(s.loop, c).(rdy := false), s')
  }

  predicate CompPopStep(s: State, c: Client, q: QRef, rid: Option<Req>, why: Why, s': State) {
    if rid.Some? && Front(s.store, q) == rid then
      && s'.pump == CompDelete(c, rid.value, why) && s'.loop == s.loop && s'.pending == s.pending
      && s'.store == Pop(s.store, q) && s'.ledger == Claimed(s.ledger, rid.value, PumpHeld)
    else Lost(s, c, why, s')
  }

  predicate NoWrite(why: Why) { why.ByDrop? || why.ByWriteError? }

  predicate CompDeleteStep(s: State, c: Client, r: Req, why: Why, s': State) {
    && s'.store == s.store && s'.pending == WithoutPending(s.pending, r)
    && s'.pump == (if NoWrite(why) then LoopGet(c) else WonGet(c, r))
    && s'.ledger == (if NoWrite(why) then Notified(s.ledger, r, Cancelled) else s.ledger)
    && s'.loop == match why {
         case ByTimeout(_) => s.loop
         case ByCancel(_) => Forget(s.loop, c)
         case _ => Forget(s.loop, c).(rdy := false)
       }
  }

  predicate PumpCompletes(s: State, s': State) {
    && s' == s.(pump := s'.pump, loop := s'.loop, store := s'.store, ledger := s'.ledger, pending := s'.pending)
    && match s.pump
       case CompGet(c, rid, why) =>
         if c in s.store.live then CompTo(s, CompPop(c, s.store.live[c], rid, why), s.loop, s') else Lost(s, c, why, s')
       case CompPop(c, q, rid, why) => CompPopStep(s, c, q, rid, why, s')
       case CompDelete(c, r, why) => CompDeleteStep(s, c, r, why, s')
       case _ => false
  }

  // ---- the pump: dispatchNextRequest and the bounded loop around it ----

  predicate DispTo(s: State, pump: Pump, loop: Loop, s': State) {
    s'.pump == pump && s'.loop == loop && s'.pending == s.pending
  }

  /** dispatchIdle: leave the loop. */
  predicate EndDispatch(s: State, c: Client, s': State) { DispTo(s, Select, Forget(s.loop, c).(rdy := false), s') }

  /** Peek, then the pre-write test of the caller context. */
  predicate DispPeekStep(s: State, c: Client, q: QRef, s': State) {
    var front := Front(s.store, q);
    if front.None? then EndDispatch(s, c, s')
    else DispTo(s, if front.value in s.expired then CompGet(c, front, ByDrop) else DispAdd(c, q, front.value), s.loop, s')
  }

  predicate DispAddStep(s: State, c: Client, q: QRef, r: Req, s': State) {
    && s'.pump == DispWrite(c, q, r) && s'.loop == s.loop
    && s'.pending == WithPending(s.pending, c, r)
  }

  /** The dispatched request is recorded with its context, and the loop is left. */
  function Recorded(p: Loop, c: Client, r: Req, ctx: Option<Ctx>, stillPending: bool): Loop {
    p.(rdy := false,
       ctxMap := if ctx.Some? then p.ctxMap[c := ctx.value] else p.ctxMap - {c},
       disp := if stillPending then p.disp[c := r] else p.disp - {c})
  }

  predicate PumpDispatches(s: State, s': State) {
    && s' == s.(pump := s'.pump, loop := s'.loop, pending := s'.pending)
    && match s.pump
       case DispGet(c) =>
         if c in s.store.live then DispTo(s, DispPeek(c, s.store.live[c]), s.loop, s') else EndDispatch(s, c, s')
       case DispPeek(c, q) => DispPeekStep(s, c, q, s')
       case DispAdd(c, q, r) => DispAddStep(s, c, q, r, s')
       case Record(c, r, ctx) => DispTo(s, Select, Recorded(s.loop, c, r, ctx, c in s.pending), s')
       case LoopGet(c) =>
         DispTo(s, if c in s.store.live then LoopEmpty(c, s.store.live[c]) else Select, s.loop, s')
       case LoopEmpty(c, q) => DispTo(s, if Front(s.store, q).Some? then DispGet(c) else Select, s.loop, s')
       case _ => false
  }

  /** network.Write returned, and on success the timeout context was made. */
  predicate WriteMove(s: State, ok: bool, ctx: Option<Ctx>, s': State) {
    && s' == s.(pump := s'.pump, store := s'.store, wired := s'.wired, sent := s'.sent, ctxReq := s'.ctxReq, watch := s'.watch)
    && s.pump.DispWrite?
    && var DispWrite(c, q, r) := s.pump;
       if !ok then
         && s'.pump == CompGet(c, Some(r), ByWriteError)
         && s'.store == s.store && s'.wired == s.wired && s'.sent == s.sent && s'.ctxReq == s.ctxReq && s'.watch == s.watch
       else
         && c in s.connected
         && (ctx.Some? ==> ctx.value !in s.ctxReq)
         && s'.pump == Record(c, r, ctx) && s'.store == Wrote(s.store, q, r)
         && s'.wired == s.wired + {r} && s'.sent == s.sent + {r}
         && s'.ctxReq == (if ctx.Some? then s.ctxReq[ctx.value := r] else s.ctxReq)
         && s'.watch == (if ctx.Some? then s.watch[ctx.value := Watch(s.epoch.pumpOf, s.epoch.gen)] else s.watch)
  }

  // ---- the pump: the stop drain ----

  predicate DrainTo(s: State, pump: Pump, s': State) {
    s'.pump == pump && s'.store == s.store && s'.pending == s.pending && s'.ledger == s.ledger
  }

  predicate FiringStep(s: State, todo: map<Client, QRef>, rest: seq<Req>, s': State) {
    if rest == [] then DrainTo(s, DrainQueues(todo), s')
    else
      && s'.pump == Firing(todo, rest[1..]) && s'.store == s.store && s'.pending == s.pending
      && s'.ledger == Notified(s.ledger, rest[0], Cancelled)
  }

  predicate DrainMapStep(s: State, s': State) {
    && s'.pump == DrainPending(s.store.live) && s'.store == Detach(s.store)
    && s'.pending == s.pending && s'.ledger == s.ledger
  }

  predicate DrainPendingStep(s: State, todo: map<Client, QRef>, s': State) {
    s'.pump == DrainQueues(todo) && s'.pending == map[] && s'.store == s.store && s'.ledger == s.ledger
  }

  predicate PumpDrains(s: State, s': State) {
    && s' == s.(pump := s'.pump, store := s'.store, pending := s'.pending, ledger := s'.ledger)
    && match s.pump
       case DrainMap => DrainMapStep(s, s')
       case DrainPending(todo) => DrainPendingStep(s, todo, s')
       case DrainQueues(todo) => todo == map[] && DrainTo(s, Exited, s')
       case Firing(todo, rest) => FiringStep(s, todo, rest, s')
       case _ => false
  }

  function ClaimedAll(g: Ledger, rs: seq<Req>): Ledger { g.(claim := g.claim + map r | r in rs :: Drained) }

  /** The drain takes one detached queue, in any order. */
  predicate DrainMove(s: State, c: Client, s': State) {
    && s' == s.(pump := s'.pump, store := s'.store, ledger := s'.ledger)
    && s.pump.DrainQueues? && c in s.pump.todo
    && var q := s.pump.todo[c];
       && s'.pump == Firing(s.pump.todo - {c}, Contents(s.store, q))
       && s'.store == Drain(s.store, q)
       && s'.ledger == ClaimedAll(s.ledger, Contents(s.store, q))
  }

  // ---- senders: TryQueue around SendRequestCtx around SendRequest ----

  function Unlocked(f: Facade, r: Req): Facade {
    f.(mutexBy := if f.mutexBy == Some(r) then None else f.mutexBy)
  }

  function Registered(f: Facade, r: Req): Facade { f.(registered := f.registered + {r}, ever := f.ever + {r}) }

  predicate SendBegins(s: State, r: Req, facade: bool, s': State) {
    && s' == s.(senders := s'.senders, facade := s'.facade)
    && r !in s.store.home && r !in s.senders
    && (facade ==> s.facade.mutexBy.None?)
    && s'.senders == s.senders[r := Sender(SRun, facade)]
    && s'.facade == (if facade then s.facade.(mutexBy := Some(r)) else s.facade)
  }

  /** The send failed: TryQueue returns without registering. */
  predicate SendFails(s: State, r: Req, s': State) {
    && s'.senders == s.senders - {r} && s'.facade == Unlocked(s.facade, r)
    && s'.store == s.store && s'.reqC == s.reqC && s'.accepted == s.accepted
  }

  predicate SendTo(s: State, r: Req, at: Sender, s': State) {
    && s'.senders == s.senders[r := at] && s'.facade == s.facade
    && s'.store == s.store && s'.reqC == s.reqC && s'.accepted == s.accepted
  }

  predicate SendPush(s: State, r: Req, q: QRef, at: Sender, s': State) {
    if Full(s.store, q) then SendFails(s, r, s')
    else
      && s'.senders == s.senders[r := at] && s'.facade == s.facade
      && s'.store == Push(s.store, q, r) && s'.reqC == s.reqC && s'.accepted == s.accepted
  }

  predicate SendToken(s: State, r: Req, at: Sender, s': State) {
    && |s.reqC| < REQUEST_CHANNEL_CAPACITY
    && s'.senders == s.senders[r := at] && s'.facade == s.facade && s'.store == s.store
    && s'.reqC == s.reqC + [ReqTok(r.client, false)] && s'.accepted == s.accepted + {r}
  }

  predicate SendReturns(s: State, r: Req, facade: bool, s': State) {
    && s'.senders == s.senders - {r} && s'.store == s.store && s'.reqC == s.reqC && s'.accepted == s.accepted
    && s'.facade == Unlocked(if facade then Registered(s.facade, r) else s.facade, r)
  }

  predicate SendMove(s: State, r: Req, s': State) {
    && s' == s.(senders := s'.senders, facade := s'.facade, store := s'.store, reqC := s'.reqC, accepted := s'.accepted)
    && r in s.senders
    && var f := s.senders[r].facade;
       match s.senders[r].pc
       case SRun => ReadLockFree(s) && if s.running then SendTo(s, r, Sender(SGet, f), s') else SendFails(s, r, s')
       case SGet =>
         if r.client in s.store.live then SendTo(s, r, Sender(SPush(s.store.live[r.client]), f), s') else SendFails(s, r, s')
       case SPush(q) => SendPush(s, r, q, Sender(SLock, f), s')
       case SLock => ReadLockFree(s) && if s.running then SendTo(s, r, Sender(SSend, f), s') else SendFails(s, r, s')
       case SSend => SendToken(s, r, Sender(SReg, f), s')
       case SReg => SendReturns(s, r, f, s')
  }

  // ---- connections and onClientDisconnected ----

  /** CallbackQueue.DrainAll(c), every callback found is invoked. */
  function DrainCallbacks(f: Facade, c: Client): Facade {
    var mine := set r | r in f.registered && r.client == c;
    f.(registered := f.registered - mine, calls := f.calls + multiset(mine))
  }

  /** The connection is registered; its handler runs later, once. */
  predicate Connects(s: State, c: Client, s': State) {
    && s' == s.(connected := s'.connected, owed := s'.owed)
    && c !in s.connected && c !in s.discs && s'.connected == s.connected + {c}
    && s'.owed == s.owed + multiset{c}
  }

  predicate Disconnects(s: State, c: Client, s': State) {
    && s' == s.(connected := s'.connected, discs := s'.discs, sent := s'.sent)
    && c in s.connected && s'.connected == s.connected - {c}
    && s'.discs == s.discs[c := DRemove]
    && s'.sent == set r | r in s.sent && r.client != c
  }

  /** The connect handler calls CreateClient, a no-op while not running. */
  predicate Creates(s: State, c: Client, q: QRef, s': State) {
    && s' == s.(store := s'.store, owed := s'.owed)
    && c in s.owed && s'.owed == s.owed - multiset{c}
    && ReadLockFree(s) && q !in s.store.queues
    && s'.store == (if s.running then GetOrCreate(s.store, c, q) else s.store)
  }

  predicate DiscTo(s: State, c: Client, d: Disc, s': State) {
    && s'.discs == s.discs[c := d] && s'.store == s.store && s'.reqC == s.reqC
    && s'.pending == s.pending && s'.facade == s.facade
  }

  predicate DiscRemove(s: State, c: Client, s': State) {
    && s'.discs == s.discs[c := DLock] && s'.store == Remove(s.store, c)
    && s'.reqC == s.reqC && s'.pending == s.pending && s'.facade == s.facade
  }

  predicate DiscSend(s: State, c: Client, s': State) {
    && |s.reqC| < REQUEST_CHANNEL_CAPACITY && s'.reqC == s.reqC + [ReqTok(c, true)]
    && s'.discs == s.discs[c := DWait(s.epoch.gen)] && s'.store == s.store && s'.pending == s.pending && s'.facade == s.facade
  }

  predicate DiscClear(s: State, c: Client, s': State) {
    && s'.discs == s.discs[c := DDrain] && s'.pending == s.pending - {c}
    && s'.store == s.store && s'.reqC == s.reqC && s'.facade == s.facade
  }

  predicate DiscDrain(s: State, c: Client, s': State) {
    && s.facade.mutexBy.None? && s'.facade == DrainCallbacks(s.facade, c)
    && s'.discs == s.discs - {c} && s'.store == s.store && s'.reqC == s.reqC && s'.pending == s.pending
  }

  /** Nothing but its two-second timer ends this wait now: the pump has neither
      acknowledged the delete token nor exited. */
  predicate OnlyTimeout(s: State, d: Disc) { d.DWait? && d.gen == s.epoch.gen && !s.pump.Exited? }

  predicate DiscMove(s: State, c: Client, s': State) {
    && s' == s.(discs := s'.discs, store := s'.store, reqC := s'.reqC, pending := s'.pending, facade := s'.facade)
    && c in s.discs
    && match s.discs[c]
       case DRemove => DiscRemove(s, c, s')
       case DLock => ReadLockFree(s) && DiscTo(s, c, if s.running then DSend else DClear, s')
       case DSend => DiscSend(s, c, s')
       case DWait(_) => DiscTo(s, c, DClear, s')   // doneC or the timer
       case DClear => DiscClear(s, c, s')
       case DDrain => DiscDrain(s, c, s')
  }

  predicate PeerMove(s: State, p: Peer, s': State) {
    match p
    case Connect(c) => Connects(s, c, s')
    case Disconnect(c) => Disconnects(s, c, s')
    case CreateClient(c, q) => Creates(s, c, q, s')
    case DiscStep(c) => DiscMove(s, c, s')
  }

  // ---- read goroutines ----

  predicate StageIs(s: State, r: Req, stage: Stage) { Lookup(s.ledger.claim, r) == Some(stage) }

  predicate Responds(s: State, t: nat, r: Req, s': State) {
    && s' == s.(completers := s'.completers)
    && t !in s.completers && r in s.wired && s'.completers == s.completers[t := Completer(r, None)]
  }

  /** Off the pump: queueMap.Get, then PopIf on the queue found. */
  predicate CompleterMove(s: State, t: nat, s': State) {
    && s' == s.(completers := s'.completers, store := s'.store, ledger := s'.ledger)
    && t in s.completers
    && var Completer(r, q) := s.completers[t];
       if q.None? && r.client in s.store.live then
         && s'.completers == s.completers[t := Completer(r, Some(s.store.live[r.client]))]
         && s'.store == s.store && s'.ledger == s.ledger
       else
         && s'.completers == s.completers - {t}
         && if q.Some? && Front(s.store, q.value) == Some(r)
            then s'.store == Pop(s.store, q.value) && s'.ledger == Claimed(s.ledger, r, RespPopped)
            else s'.store == s.store && s'.ledger == s.ledger
  }

  predicate RespDeletes(s: State, r: Req, s': State) {
    && s' == s.(pending := s'.pending, ledger := s'.ledger)
    && StageIs(s, r, RespPopped)
    && s'.pending == WithoutPending(s.pending, r) && s'.ledger == Claimed(s.ledger, r, RespDeleted)
  }

  predicate RespSignals(s: State, r: Req, s': State) {
    && s' == s.(ready := s'.ready, ledger := s'.ledger)
    && StageIs(s, r, RespDeleted) && s.ready.None?
    && s'.ready == Some(r) && s'.ledger == Notified(s.ledger, r, RespWon)
  }

  predicate ReaderMove(s: State, d: Reader, s': State) {
    match d
    case Respond(t, r) => Responds(s, t, r, s')
    case CompStep(t) => CompleterMove(s, t, s')
    case RespDelete(r) => RespDeletes(s, r, s')
    case RespSignal(r) => RespSignals(s, r, s')
  }

  /** The owner of `r` calls CallbackQueue.Dequeue and runs what it finds. */
  function Dequeued(f: Facade, r: Req): Facade {
    if r in f.registered then f.(registered := f.registered - {r}, calls := f.calls + multiset{r}) else f
  }

  predicate Dequeues(s: State, r: Req, s': State) {
    && s' == s.(ledger := s'.ledger, facade := s'.facade)
    && s.facade.mutexBy.None? && (StageIs(s, r, RespWon) || StageIs(s, r, Cancelled))
    && s'.ledger == Claimed(s.ledger, r, Settled) && s'.facade == Dequeued(s.facade, r)
  }

  // ---- timers, caller contexts and Stop ----

  predicate EventMove(s: State, e: Event, s': State) {
    && s' == s.(expired := s'.expired, tokens := s'.tokens)
    && match e
       case Expire(r) => s'.expired == s.expired + {r} && s'.tokens == s.tokens
       case PostTimeout(k) =>
         && k in s.watch && s'.expired == s.expired
         && var g := s.watch[k].channel;
            && |Chan(s.tokens.timers, g)| < TOKEN_CHANNEL_CAPACITY
            && s'.tokens == s.tokens.(timers := s.tokens.timers[g := Chan(s.tokens.timers, g) + [k]])
       case PostCancel(k) =>
         && k in s.watch && k in s.ctxReq && s.ctxReq[k] in s.expired && s'.expired == s.expired
         && var g := s.watch[k].channel;
            && |Chan(s.tokens.cancels, g)| < TOKEN_CHANNEL_CAPACITY
            && s'.tokens == s.tokens.(cancels := s.tokens.cancels[g := Chan(s.tokens.cancels, g) + [k]])
  }

  predicate StopMove(s: State, s': State) {
    && s' == s.(stop := s'.stop, running := s'.running)
    && match s.stop
       case NotCalled => s'.stop == Locking && s'.running == s.running
       case Locking => NoReaders(s) && s'.stop == Joining && !s'.running
       case Joining => s.pump.Exited? && s'.stop == Returned && s'.running == s.running
       case Returned => false
  }

  /** Start, once Stop has returned: fresh channels, a fresh pump, everything else as it is. */
  function Started(s: State): State {
    var g := s.epoch.gen + 1;
    s.(reqC := [], tokens := Tokens(s.tokens.timers[g := []], s.tokens.cancels[g := []]),
       running := true, stop := NotCalled, epoch := Epoch(g, g, s.store.queues.Keys), pump := Select, loop := FirstLoop())
  }

  predicate StartMove(s: State, s': State) { s.stop.Returned? && s' == Started(s) }

  predicate PumpNext(s: State, p: PumpStep, s': State) {
    match p
    case Selects(arm) => ArmMove(s, arm, s')
    case Route => PumpRoutes(s, s')
    case Complete => PumpCompletes(s, s')
    case Dispatch => PumpDispatches(s, s')
    case Write(ok, ctx) => WriteMove(s, ok, ctx, s')
    case DrainOn => PumpDrains(s, s')
    case Takes(c) => DrainMove(s, c, s')
  }

  predicate WorldNext(s: State, w: WorldStep, s': State) {
    match w
    case SendStart(r, facade) => SendBegins(s, r, facade, s')
    case SendStep(r) => SendMove(s, r, s')
    case PeerStep(p) => PeerMove(s, p, s')
    case ReaderStep(d) => ReaderMove(s, d, s')
    case Dequeue(r) => Dequeues(s, r, s')
    case Happens(e) => EventMove(s, e, s')
    case StopStep => StopMove(s, s')
    case StartStep => StartMove(s, s')
  }

  predicate Next(s: State, l: Step, s': State) {
    match l
    case Pumps(p) => PumpNext(s, p, s')
    case World(w) => WorldNext(s, w, s')
  }
}
