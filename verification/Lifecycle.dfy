/**
 Generations of the charge point: serialised calls of Start (succeeding or
 failing), Stop and StopCtx (joined or expired), while each generation's
 callback handler runs on its own goroutine with the channels Start gave it.
 Closing a closed channel is modelled as a panic.
 */
module Lifecycle {
  import opened Basics

  type Chan = nat

  /** A handler goroutine: serving, past its stop arm, or about to close its done channel. */
  datatype Phase = Serving | Clearing | Finishing
  datatype Handler = Handler(stopC: Chan, doneC: Chan, phase: Phase)

  /** Which call the lifecycle caller is inside: a Start retiring its
      predecessor, a Stop, or a StopCtx whose context may expire. */
  datatype Purpose = ForStart | ForStop | ForStopCtx
  datatype Caller = Outside | ClosingStop(why: Purpose) | Joining(why: Purpose) | Installing | Starting

  datatype State = State(
    gen: nat,                       // generations installed so far
    next: Chan,                     // channels made so far
    closed: set<Chan>,
    stopC: Option<Chan>,            // cp.stopC
    once: Option<bool>,             // cp.stopOnce: nil, or whether it has fired
    doneC: Chan,                    // cp.handlerDone
    caller: Caller,
    made: Chan,                    // the handlerDone Start has made and not yet stored
    handlers: map<nat, Handler>,    // live handlers, by generation
    callbacks: map<nat, nat>,       // registered callbacks and the generation each belongs to
    stolen: set<nat>,               // callbacks a clear of an earlier generation removed
    panicked: bool)

  /** handlerDone starts as a closed channel. */
  function Init(): State { State(0, 1, {0}, None, None, 0, Outside, 0, map[], map[], {}, false) }

  datatype Step =
    | CallStart | CallStop(bounded: bool)
    | CloseStop | Joined | Expired | Install | Started(ok: bool)
    | HandlerStop(g: nat) | HandlerClear(g: nat) | HandlerDone(g: nat)
    | Register(cb: nat) | Dequeue(cb: nat)

  predicate CallerNext(s: State, l: Step, s': State) {
    match l
    case CallStart => s.caller.Outside? && s' == s.(caller := if s.once.None? then Installing else ClosingStop(ForStart))
    case CallStop(bounded) => s.caller.Outside? && s' == s.(caller := ClosingStop(if bounded then ForStopCtx else ForStop))
    case CloseStop =>
      && s.caller.ClosingStop?
      && if s.once == Some(false) && s.stopC.Some? then
           s' == s.(caller := Joining(s.caller.why), once := Some(true), closed := s.closed + {s.stopC.value},
                    panicked := s.panicked || s.stopC.value in s.closed)
         else s' == s.(caller := Joining(s.caller.why))
    case Joined =>
      && s.caller.Joining? && s.doneC in s.closed
      && s' == s.(caller := if s.caller.why.ForStart? then Installing else Outside)
    case Expired => s.caller.Joining? && s.caller.why.ForStopCtx? && s' == s.(caller := Outside)
    case Install =>
      && s.caller.Installing?
      && s' == s.(caller := Starting, gen := s.gen + 1, stopC := Some(s.next), made := s.next + 1, next := s.next + 2, once := Some(false))
    case Started(ok) =>
      && s.caller.Starting? && s.stopC.Some?
      && s' == if ok then s.(caller := Outside, doneC := s.made,
                             handlers := s.handlers[s.gen := Handler(s.stopC.value, s.made, Serving)])
               else s.(caller := Outside)
    case _ => false
  }

  function Cleared(s: State, g: nat): State {
    s.(callbacks := map[], stolen := s.stolen + set cb | cb in s.callbacks && s.callbacks[cb] > g)
  }

  predicate HandlerNext(s: State, l: Step, s': State) {
    match l
    case HandlerStop(g) =>
      && g in s.handlers && s.handlers[g].phase.Serving? && s.handlers[g].stopC in s.closed
      && s' == s.(handlers := s.handlers[g := s.handlers[g].(phase := Clearing)])
    case HandlerClear(g) =>
      && g in s.handlers && s.handlers[g].phase.Clearing?
      && s' == Cleared(s, g).(handlers := s.handlers[g := s.handlers[g].(phase := Finishing)])
    case HandlerDone(g) =>
      && g in s.handlers && s.handlers[g].phase.Finishing?
      && s' == s.(handlers := s.handlers - {g}, closed := s.closed + {s.handlers[g].doneC},
                  panicked := s.panicked || s.handlers[g].doneC in s.closed)
    case Register(cb) => cb !in s.callbacks && s' == s.(callbacks := s.callbacks[cb := s.gen])
    case Dequeue(cb) => s' == s.(callbacks := s.callbacks - {cb})
    case _ => false
  }

  predicate Next(s: State, l: Step, s': State) { CallerNext(s, l, s') || HandlerNext(s, l, s') }

  // ---- invariants ----

  /** The only handler that can be live is the current generation's, on the
      current channels, and its done channel is open. */
  ghost predicate HandlersOk(s: State) {
    forall g :: g in s.handlers ==>
      && g == s.gen && s.stopC == Some(s.handlers[g].stopC) && s.doneC == s.handlers[g].doneC
      && s.doneC !in s.closed && s.stopC != Some(s.doneC)
      && !s.caller.Installing? && !s.caller.Starting?
      && (!s.handlers[g].phase.Serving? ==> s.stopC.value in s.closed)
  }

  /** The done channel is closed exactly when no handler is live. */
  predicate DoneOk(s: State) { s.doneC !in s.closed ==> s.gen in s.handlers }

  /** The stop channel is open exactly while its once has not fired. */
  predicate StopOk(s: State) {
    && (s.once.Some? <==> s.stopC.Some?)
    && (s.once.Some? ==> (s.once.value <==> s.stopC.value in s.closed))
    && (s.caller.Joining? && s.once.Some? ==> s.once.value)
    && (s.caller.Starting? ==> s.once == Some(false) && s.made !in s.closed && s.stopC != Some(s.made))
  }

  predicate FreshOk(s: State) {
    && (forall c :: c in s.closed ==> c < s.next)
    && (s.stopC.Some? ==> s.stopC.value < s.next) && s.doneC < s.next && s.made < s.next
    && (s.stopC.Some? ==> s.stopC.value != s.doneC)
  }

  predicate CallbacksOk(s: State) {
    (forall cb :: cb in s.callbacks ==> s.callbacks[cb] <= s.gen) && s.stolen == {} && !s.panicked
  }

  ghost predicate Inv(s: State) { HandlersOk(s) && DoneOk(s) && StopOk(s) && FreshOk(s) && CallbacksOk(s) }

  lemma InvOnCaller(s: State, l: Step, s': State)
    requires Inv(s) && CallerNext(s, l, s')
    ensures Inv(s')
  {
  }

  lemma InvOnHandler(s: State, l: Step, s': State)
    requires Inv(s) && HandlerNext(s, l, s')
    ensures Inv(s')
  {
    if l.HandlerClear? { assert (set cb | cb in s.callbacks && s.callbacks[cb] > l.g) == {}; }
  }

  lemma {:induction false} InvInRun(states: seq<State>, steps: seq<Step>, n: nat)
    requires IsChain(states, steps, Next) && states[0] == Init() && n < |states|
    ensures Inv(states[n])
  {
    if n > 0 {
      InvInRun(states, steps, n - 1);
      if CallerNext(states[n - 1], steps[n - 1], states[n]) { InvOnCaller(states[n - 1], steps[n - 1], states[n]); }
      else { InvOnHandler(states[n - 1], steps[n - 1], states[n]); }
    }
  }

  // ---- the results, over every sequence of calls ----

  /** No channel is closed twice, at most one handler is live, and no clear
      removes a callback of a later generation. */
  lemma GenerationsAreSafe(states: seq<State>, steps: seq<Step>, n: nat, g: nat, h: nat)
    requires IsChain(states, steps, Next) && states[0] == Init() && n < |states|
    ensures !states[n].panicked && states[n].stolen == {}
    ensures g in states[n].handlers && h in states[n].handlers ==> g == h
  {
    InvInRun(states, steps, n);
  }

  /** A join returns at once, or waits for a live handler that has been told to
      stop and whose next step is enabled. */
  lemma JoinIsServed(states: seq<State>, steps: seq<Step>, n: nat) returns (l: Step, s': State)
    requires IsChain(states, steps, Next) && states[0] == Init() && n < |states| && states[n].caller.Joining?
    ensures Next(states[n], l, s')
    ensures l == Joined || (l in {HandlerStop(states[n].gen), HandlerClear(states[n].gen), HandlerDone(states[n].gen)})
  {
    InvInRun(states, steps, n);
    var s := states[n];
    if s.doneC in s.closed {
      l, s' := Joined, s.(caller := if s.caller.why.ForStart? then Installing else Outside);
    } else {
      var h := s.handlers[s.gen];
      match h.phase
      case Serving => l, s' := HandlerStop(s.gen), s.(handlers := s.handlers[s.gen := h.(phase := Clearing)]);
      case Clearing => l, s' := HandlerClear(s.gen), Cleared(s, s.gen).(handlers := s.handlers[s.gen := h.(phase := Finishing)]);
      case Finishing => l, s' := HandlerDone(s.gen), s.(handlers := s.handlers - {s.gen}, closed := s.closed + {h.doneC});
    }
  }
}
