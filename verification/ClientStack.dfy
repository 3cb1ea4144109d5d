/**
 The client side as one concurrent step system: the client dispatcher's pump
 goroutine, senders, read goroutines completing requests, Pause and Resume,
 the timer and Stop, over one FIFO queue and one pending slot. Steps are the
 individually locked operations, as on the server side. Requests are named by
 their message id.
 */
module ClientStack {
  import opened Basics
  import Fifo

  type Id = nat

  /** Who took a request out of the queue, and how far that owner has got. */
  datatype Owner =
    | PumpHas      // popped on the pump, cancel not fired yet
    | DrainHas     // taken by the stop drain, cancel not fired yet
    | ReaderHas    // a read goroutine popped it, pending state not cleared yet
    | ReaderFreed  // ... pending state cleared, ready flag not posted yet
    | Answered     // CompleteRequest returned true, response handler runs
    | Cancelled    // cancel callback fired
    | Refused      // thrown away by the final Init: its send was refused

  /** What the pump goes on with after a CompleteRequest of its own. */
  datatype After = AfterTimer | AfterDone | AfterDrop | AfterWriteError

  datatype Pump =
    | Top
    | Select
    | TimerHas
    | TimerPeek
    | DoneGet(r: Id)
    | PausedCheck
    | GuardEmpty
    | GuardPending
    | Peek
    | Add(r: Id)
    | Write(r: Id)
    | Wrote(r: Id)
    | CompPop(r: Id, k: After)
    | CompDelete(r: Id, k: After)
    | CompSignal(r: Id, k: After)
    | DrainQueue
    | DrainPending(rest: seq<Id>)
    | Firing(rest: seq<Id>)
    | InitQueue
    | Exiting
    | Exited

  datatype SendPc = SRun | SPush | SLock | SSend
  datatype StopPc = NotCalled | Locking | Joining | Returned

  datatype Queue = Queue(capacity: nat, log: Fifo.Log<Id>)

  /** Channels and flags the goroutines signal each other with. */
  datatype Signals = Signals(
    token: bool,        // requestChannel, capacity 1
    ready: bool,        // readyForDispatch, capacity 1, coalesced
    tick: bool,         // timer.C
    checking: nat,      // Resume calls between clearing `paused` and reading the pending state
    signalling: nat)    // Resume calls about to post the ready flag

  datatype Ledger = Ledger(owner: map<Id, Owner>, notes: multiset<Id>)

  datatype State = State(
    queue: Queue,
    pending: Option<Id>,
    sig: Signals,
    paused: bool,
    running: bool,              // false exactly when requestChannel was closed
    stop: StopPc,
    pump: Pump,
    rdy: bool,                  // the pump's `rdy`
    mine: Option<Id>,           // the pump's `pending` token
    senders: map<Id, SendPc>,
    completers: map<nat, Id>,   // read goroutines inside CompleteRequest, before PopIf
    ledger: Ledger,
    expired: set<Id>,           // caller contexts that have fired
    accepted: set<Id>,          // SendRequest returned nil
    wired: set<Id>)             // written to the network

  function Init(capacity: nat): State {
    State(Queue(capacity, Fifo.Fresh()), None, Signals(false, false, false, 0, 0), false, true, NotCalled, Top, true, None,
          map[], map[], Ledger(map[], multiset{}), {}, {}, {})
  }

  datatype Arm = OnReq | OnClosed | OnTimer | OnReady | OnDone

  datatype PumpStep =
    | Reconcile | Selects(arm: Arm) | Checks | Dispatches | Writes(ok: bool) | Completes | Drains

  datatype WorldStep =
    | SendStart(r: Id) | SendStep(r: Id)
    | Respond(t: nat, r: Id) | CompStep(t: nat) | FreeStep(r: Id) | SignalStep(r: Id)
    | Pause | Resume | ResumeCheck | ResumeSignal
    | Expire(r: Id) | Tick | StopStep

  datatype Step = Pumps(p: PumpStep) | World(w: WorldStep)

  // ---- the queue ----

  function Front(q: Queue): Option<Id> { Fifo.Front(q.log) }

  function Contents(q: Queue): seq<Id> { Fifo.Contents(q.log) }

  predicate Full(q: Queue) { Fifo.Full(q.log, q.capacity) }

  function Push(q: Queue, r: Id): Queue { q.(log := Fifo.Push(q.log, r)) }

  function Pop(q: Queue): Queue { q.(log := Fifo.Pop(q.log)) }

  function DrainAll(q: Queue): Queue { q.(log := Fifo.Drain(q.log)) }

  function Wired(q: Queue): Queue { q.(log := Fifo.Wrote(q.log, q.log.taken)) }

  function Owned(g: Ledger, r: Id, o: Owner): Ledger { g.(owner := g.owner[r := o]) }

  function Notified(g: Ledger, r: Id, o: Owner): Ledger { Ledger(g.owner[r := o], g.notes + multiset{r}) }

  function OwnedAll(g: Ledger, rs: seq<Id>, o: Owner): Ledger { g.(owner := g.owner + map r | r in rs :: o) }

  function Without(pending: Option<Id>, r: Id): Option<Id> { if pending == Some(r) then None else pending }

  predicate NoReaders(s: State) { forall r :: r in s.senders ==> !s.senders[r].SSend? }

  predicate Draining(p: Pump) {
    p.DrainQueue? || p.DrainPending? || p.Firing? || p.InitQueue? || p.Exiting? || p.Exited?
  }

  // ---- the pump ----

  /** The local in-flight token is dropped when the pending state has moved on. */
  predicate Reconciles(s: State, s': State) {
    && s' == s.(pump := Select, mine := s'.mine)
    && s.pump.Top? && s'.mine == (if s.mine.Some? && s.pending != s.mine then None else s.mine)
  }

  predicate ArmMove(s: State, arm: Arm, s': State) {
    && s' == s.(pump := s'.pump, sig := s'.sig, rdy := s'.rdy)
    && s.pump.Select?
    && match arm
       case OnReq => s.sig.token && s'.sig == s.sig.(token := false) && s'.pump == PausedCheck && s'.rdy == s.rdy
       case OnClosed => !s.running && !s.sig.token && s'.sig == s.sig && s'.pump == DrainQueue && s'.rdy == s.rdy
       case OnTimer => s.sig.tick && s'.sig == s.sig.(tick := false) && s'.pump == TimerHas && s'.rdy == s.rdy
       case OnReady => s.sig.ready && s'.sig == s.sig.(ready := false) && s'.pump == PausedCheck && s'.rdy
       case OnDone =>
         && s.mine.Some? && s.mine.value in s.expired
         && s'.sig == s.sig && s'.pump == DoneGet(s.mine.value) && s'.rdy == s.rdy
  }

  predicate CheckMove(s: State, s': State) {
    && s' == s.(pump := s'.pump, mine := s'.mine)
    && match s.pump
       case TimerHas =>
         if s.pending.Some? then s'.pump == TimerPeek && s'.mine == s.mine else s'.pump == PausedCheck && s'.mine == None
       case TimerPeek =>
         if Front(s.queue).Some? then s'.pump == CompPop(Front(s.queue).value, AfterTimer) && s'.mine == s.mine
         else s'.pump == PausedCheck && s'.mine == None
       case DoneGet(r) =>
         if s.pending == Some(r) then s'.pump == CompPop(r, AfterDone) && s'.mine == s.mine
         else s'.pump == PausedCheck && s'.mine == None
       case PausedCheck => s'.pump == (if s.paused then Top else GuardEmpty) && s'.mine == s.mine
       case GuardEmpty => s'.pump == (if s.rdy && Front(s.queue).Some? then GuardPending else Top) && s'.mine == s.mine
       case GuardPending => s'.pump == (if s.pending.None? then Peek else Top) && s'.mine == s.mine
       case _ => false
  }

  predicate DispatchMove(s: State, s': State) {
    && s' == s.(pump := s'.pump, pending := s'.pending, mine := s'.mine, rdy := s'.rdy)
    && match s.pump
       case Peek =>
         && s'.pending == s.pending && s'.mine == s.mine && s'.rdy == s.rdy
         && s'.pump == (var front := Front(s.queue);
                        if front.None? then Top
                        else if front.value in s.expired then CompPop(front.value, AfterDrop)
                        else Add(front.value))
       case Add(r) =>
         && s'.pump == Write(r) && s'.mine == s.mine && s'.rdy == s.rdy
         && s'.pending == (if s.pending.None? then Some(r) else s.pending)
       case Wrote(r) => s'.pump == Top && s'.pending == s.pending && s'.mine == Some(r) && !s'.rdy
       case _ => false
  }

  predicate WriteMove(s: State, ok: bool, s': State) {
    && s' == s.(pump := s'.pump, queue := s'.queue, wired := s'.wired)
    && s.pump.Write?
    && if ok then s'.pump == Wrote(s.pump.r) && s'.queue == Wired(s.queue) && s'.wired == s.wired + {s.pump.r}
       else s'.pump == CompPop(s.pump.r, AfterWriteError) && s'.queue == s.queue && s'.wired == s.wired
  }

  /** Where the pump goes on once its own CompleteRequest is over. */
  predicate Resumes(s: State, k: After, s': State) {
    match k
    case AfterTimer => s'.pump == PausedCheck && s'.mine == None && s'.rdy == s.rdy
    case AfterDone => s'.pump == PausedCheck && s'.mine == None && s'.rdy == s.rdy
    case AfterDrop => s'.pump == Top && s'.mine == s.mine && s'.rdy == s.rdy
    case AfterWriteError => s'.pump == Top && s'.mine == None && !s'.rdy
  }

  predicate CompleteMove(s: State, s': State) {
    && s' == s.(pump := s'.pump, mine := s'.mine, rdy := s'.rdy, queue := s'.queue, pending := s'.pending,
                sig := s'.sig, ledger := s'.ledger)
    && match s.pump
       case CompPop(r, k) =>
         && s'.pending == s.pending && s'.sig == s.sig
         && if Front(s.queue) == Some(r) then
              && s'.pump == CompDelete(r, k) && s'.mine == s.mine && s'.rdy == s.rdy
              && s'.queue == Pop(s.queue) && s'.ledger == Owned(s.ledger, r, PumpHas)
            else Resumes(s, k, s') && s'.queue == s.queue && s'.ledger == s.ledger
       case CompDelete(r, k) =>
         && s'.pump == CompSignal(r, k) && s'.mine == s.mine && s'.rdy == s.rdy && s'.queue == s.queue
         && s'.sig == s.sig && s'.ledger == s.ledger && s'.pending == Without(s.pending, r)
       case CompSignal(r, k) =>
         && Resumes(s, k, s') && s'.queue == s.queue && s'.pending == s.pending
         && s'.sig == s.sig.(ready := true) && s'.ledger == Notified(s.ledger, r, Cancelled)
       case _ => false
  }

  predicate DrainMove(s: State, s': State) {
    && s' == s.(pump := s'.pump, queue := s'.queue, pending := s'.pending, ledger := s'.ledger)
    && match s.pump
       case DrainQueue =>
         && s'.pump == DrainPending(Contents(s.queue)) && s'.queue == DrainAll(s.queue)
         && s'.ledger == OwnedAll(s.ledger, Contents(s.queue), DrainHas) && s'.pending == s.pending
       case DrainPending(rest) =>
         s'.pump == Firing(rest) && s'.pending == None && s'.queue == s.queue && s'.ledger == s.ledger
       case Firing(rest) =>
         && s'.queue == s.queue && s'.pending == s.pending
         && if rest == [] then s'.pump == InitQueue && s'.ledger == s.ledger
            else s'.pump == Firing(rest[1..]) && s'.ledger == Notified(s.ledger, rest[0], Cancelled)
       case InitQueue =>
         && s'.pump == Exiting && s'.queue == DrainAll(s.queue) && s'.pending == s.pending
         && s'.ledger == OwnedAll(s.ledger, Contents(s.queue), Refused)
       case Exiting =>
         NoReaders(s) && s'.pump == Exited && s'.queue == s.queue && s'.pending == s.pending && s'.ledger == s.ledger
       case _ => false
  }

  predicate PumpNext(s: State, p: PumpStep, s': State) {
    match p
    case Reconcile => Reconciles(s, s')
    case Selects(arm) => ArmMove(s, arm, s')
    case Checks => CheckMove(s, s')
    case Dispatches => DispatchMove(s, s')
    case Writes(ok) => WriteMove(s, ok, s')
    case Completes => CompleteMove(s, s')
    case Drains => DrainMove(s, s')
  }

  // ---- senders ----

  predicate SendBegins(s: State, r: Id, s': State) {
    s' == s.(senders := s.senders[r := SRun]) && r !in s.queue.log.pushed && r !in s.senders
  }

  predicate SendMove(s: State, r: Id, s': State) {
    && s' == s.(senders := s'.senders, queue := s'.queue, sig := s'.sig, accepted := s'.accepted)
    && r in s.senders
    && match s.senders[r]
       case SRun =>
         && s.stop != Locking && s'.queue == s.queue && s'.sig == s.sig && s'.accepted == s.accepted
         && s'.senders == (if s.pump.Exited? then s.senders - {r} else s.senders[r := SPush])
       case SPush =>
         && s'.sig == s.sig && s'.accepted == s.accepted
         && if Full(s.queue) then s'.senders == s.senders - {r} && s'.queue == s.queue
            else s'.senders == s.senders[r := SLock] && s'.queue == Push(s.queue, r)
       case SLock =>
         && s.stop != Locking && s'.queue == s.queue && s'.sig == s.sig && s'.accepted == s.accepted
         && s'.senders == (if s.running then s.senders[r := SSend] else s.senders - {r})
       case SSend =>
         && !s.sig.token && s'.sig == s.sig.(token := true) && s'.senders == s.senders - {r}
         && s'.queue == s.queue && s'.accepted == s.accepted + {r}
  }

  // ---- read goroutines inside CompleteRequest ----

  predicate Responds(s: State, t: nat, r: Id, s': State) {
    s' == s.(completers := s.completers[t := r]) && t !in s.completers && r in s.wired
  }

  predicate CompleterMove(s: State, t: nat, s': State) {
    && s' == s.(completers := s'.completers, queue := s'.queue, ledger := s'.ledger)
    && t in s.completers && s'.completers == s.completers - {t}
    && var r := s.completers[t];
       if Front(s.queue) == Some(r) then s'.queue == Pop(s.queue) && s'.ledger == Owned(s.ledger, r, ReaderHas)
       else s'.queue == s.queue && s'.ledger == s.ledger
  }

  predicate ReaderFrees(s: State, r: Id, s': State) {
    && s' == s.(pending := Without(s.pending, r), ledger := Owned(s.ledger, r, ReaderFreed))
    && Lookup(s.ledger.owner, r) == Some(ReaderHas)
  }

  predicate ReaderSignals(s: State, r: Id, s': State) {
    && s' == s.(sig := s.sig.(ready := true), ledger := Notified(s.ledger, r, Answered))
    && Lookup(s.ledger.owner, r) == Some(ReaderFreed)
  }

  // ---- Pause, Resume, timers, Stop ----

  /** Under the write lock; a buffered tick may be drained, or taken by the pump first. */
  predicate Pauses(s: State, s': State) {
    && s' == s.(paused := true, sig := s'.sig)
    && NoReaders(s) && (s'.sig == s.sig || s'.sig == s.sig.(tick := false))
  }

  predicate ResumeMove(s: State, w: WorldStep, s': State) {
    && s' == s.(paused := s'.paused, sig := s'.sig)
    && match w
       case Resume => !s'.paused && s'.sig == s.sig.(checking := s.sig.checking + 1)
       case ResumeCheck =>
         && s.sig.checking > 0 && s'.paused == s.paused
         && if s.pending.Some? then
              s'.sig == s.sig.(checking := s.sig.checking - 1) || s'.sig == s.sig.(checking := s.sig.checking - 1, tick := false)
            else s'.sig == s.sig.(checking := s.sig.checking - 1, signalling := s.sig.signalling + 1)
       case ResumeSignal =>
         && s.sig.signalling > 0 && s'.paused == s.paused
         && s'.sig == s.sig.(ready := true, signalling := s.sig.signalling - 1)
       case _ => false
  }

  predicate StopMove(s: State, s': State) {
    && s' == s.(stop := s'.stop, running := s'.running)
    && match s.stop
       case NotCalled => s'.stop == Locking && s'.running == s.running
       case Locking => NoReaders(s) && s'.stop == Joining && !s'.running
       case Joining => s.pump.Exited? && s'.stop == Returned && s'.running == s.running
       case Returned => false
  }

  predicate WorldNext(s: State, w: WorldStep, s': State) {
    match w
    case SendStart(r) => SendBegins(s, r, s')
    case SendStep(r) => SendMove(s, r, s')
    case Respond(t, r) => Responds(s, t, r, s')
    case CompStep(t) => CompleterMove(s, t, s')
    case FreeStep(r) => ReaderFrees(s, r, s')
    case SignalStep(r) => ReaderSignals(s, r, s')
    case Pause => Pauses(s, s')
    case Resume => ResumeMove(s, w, s')
    case ResumeCheck => ResumeMove(s, w, s')
    case ResumeSignal => ResumeMove(s, w, s')
    case Expire(r) => s' == s.(expired := s.expired + {r})
    case Tick => s' == s.(sig := s.sig.(tick := true))
    case StopStep => StopMove(s, s')
  }

  predicate Next(s: State, l: Step, s': State) {
    match l
    case Pumps(p) => PumpNext(s, p, s')
    case World(w) => WorldNext(s, w, s')
  }
}
