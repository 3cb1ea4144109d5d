/**
 What each goroutine of the server stack can do next: for every point of the
 pump's loop, and of a send that is not blocked, a step that is enabled there.
 */
module ServerMoves {
  import opened Basics
  import opened QueueStore
  import opened ServerStack

  lemma ArmMoves(s: State, arm: Arm) returns (s': State)
    requires s.pump.Select?
    requires match arm case OnStop => !s.running case OnReq => s.reqC != [] case OnTimer => TimerC(s) != []
                       case OnReady => s.ready.Some? case OnCancel => CancelC(s) != []
    ensures ArmMove(s, arm, s')
  {
    match arm
    case OnStop => s' := s.(pump := DrainMap);
    case OnReq => s' := s.(pump := ReqGet(s.reqC[0].c, s.reqC[0].ack), reqC := s.reqC[1..]);
    case OnTimer =>
      var k := TimerC(s)[0];
      var rest := s.tokens.(timers := s.tokens.timers[s.epoch.gen := TimerC(s)[1..]]);
      if k !in s.ctxReq || Lookup(s.loop.ctxMap, s.ctxReq[k].client) != Some(k) { s' := s.(tokens := rest); }
      else {
        var c := s.ctxReq[k].client;
        s' := s.(tokens := rest, pump := TimeoutPending(c, Lookup(s.loop.disp, c), k), loop := Forget(s.loop, c));
      }
    case OnReady =>
      var r := s.ready.value;
      if r.client in s.loop.disp && s.loop.disp[r.client] != r { s' := s.(ready := None); }
      else { s' := s.(ready := None, pump := ReadyGet(r.client), loop := Forget(s.loop, r.client)); }
    case OnCancel =>
      var r := Lookup(s.ctxReq, CancelC(s)[0]);
      var rest := s.tokens.(cancels := s.tokens.cancels[s.epoch.gen := CancelC(s)[1..]]);
      if r.None? || Lookup(s.loop.disp, r.value.client) != r { s' := s.(tokens := rest, loop := s.loop.(rdy := false, cq := None)); }
      else { s' := s.(tokens := rest, pump := CompGet(r.value.client, r, ByCancel(CancelC(s)[0]))); }
  }

  lemma ReqGetMoves(s: State) returns (s': State)
    requires s.pump.ReqGet?
    ensures PumpRoutes(s, s')
  {
    var ReqGet(c, ack) := s.pump;
    var found := Lookup(s.store.live, c);
    var loop := if ack || found.None? then Forget(s.loop, c) else s.loop;
    s' := s.(discs := if ack then Acked(s.discs, c) else s.discs,
             pump := if found.None? then Select else GuardEmpty(c),
             loop := if found.None? then loop.(cq := None) else loop.(cq := found, rdy := c !in loop.ctxMap));
  }

  lemma RouteMoves(s: State) returns (s': State)
    requires s.pump.ReqGet? || s.pump.TimeoutPending? || s.pump.TimeoutElse? || s.pump.ReadyGet? || s.pump.WonGet?
          || s.pump.GuardEmpty? || s.pump.GuardPending?
    ensures PumpRoutes(s, s')
  {
    match s.pump
    case ReqGet(_, _) => s' := ReqGetMoves(s);
    case TimeoutPending(c, rid, k) => s' := s.(pump := if c in s.pending then CompGet(c, rid, ByTimeout(k)) else TimeoutElse(c));
    case TimeoutElse(c) => s' := s.(pump := GuardEmpty(c), loop := if c in s.store.live then Found(s.loop, s.store.live, c) else s.loop);
    case ReadyGet(c) => s' := s.(pump := GuardEmpty(c), loop := Found(s.loop, s.store.live, c));
    case WonGet(c, r) =>
      s' := s.(pump := GuardEmpty(c), ledger := Notified(s.ledger, r, Cancelled),
               loop := s.loop.(cq := Lookup(s.store.live, c), rdy := true));
    case GuardEmpty(c) => s' := s.(pump := if Ready(s) then GuardPending(c) else Select);
    case GuardPending(c) => s' := s.(pump := if c in s.pending then Select else DispGet(c));
    case _ =>
  }

  /** completeRequestOwned did not win. */
  function LostState(s: State, c: Client, why: Why): State {
    match why
    case ByTimeout(_) => s.(pump := Select)
    case ByCancel(_) => s.(pump := Select, loop := s.loop.(rdy := false, cq := None))
    case _ => s.(pump := LoopGet(c), loop := Forget(s.loop, c).(rdy := false))
  }

  lemma PopMoves(s: State) returns (s': State)
    requires s.pump.CompPop?
    ensures PumpCompletes(s, s')
  {
    var CompPop(c, q, rid, why) := s.pump;
    s' := if rid.Some? && Front(s.store, q) == rid
          then s.(pump := CompDelete(c, rid.value, why), store := Pop(s.store, q), ledger := Claimed(s.ledger, rid.value, PumpHeld))
          else LostState(s, c, why);
  }

  lemma DeleteMoves(s: State) returns (s': State)
    requires s.pump.CompDelete?
    ensures PumpCompletes(s, s')
  {
    var CompDelete(c, r, why) := s.pump;
    s' := s.(pending := WithoutPending(s.pending, r),
             pump := if NoWrite(why) then LoopGet(c) else WonGet(c, r),
             ledger := if NoWrite(why) then Notified(s.ledger, r, Cancelled) else s.ledger,
             loop := if why.ByTimeout? then s.loop else if why.ByCancel? then Forget(s.loop, c) else Forget(s.loop, c).(rdy := false));
  }

  lemma CompleteMoves(s: State) returns (s': State)
    requires s.pump.CompGet? || s.pump.CompPop? || s.pump.CompDelete?
    ensures PumpCompletes(s, s')
  {
    match s.pump
    case CompGet(c, rid, why) =>
      s' := if c in s.store.live then s.(pump := CompPop(c, s.store.live[c], rid, why)) else LostState(s, c, why);
    case CompPop(_, _, _, _) => s' := PopMoves(s);
    case CompDelete(_, _, _) => s' := DeleteMoves(s);
    case _ =>
  }

  lemma PeekMoves(s: State) returns (s': State)
    requires s.pump.DispPeek?
    ensures PumpDispatches(s, s')
  {
    var DispPeek(c, q) := s.pump;
    var front := Front(s.store, q);
    s' := if front.None? then s.(pump := Select, loop := Forget(s.loop, c).(rdy := false))
          else s.(pump := if front.value in s.expired then CompGet(c, front, ByDrop) else DispAdd(c, q, front.value));
  }

  lemma DispatchMoves(s: State) returns (s': State)
    requires s.pump.DispGet? || s.pump.DispPeek? || s.pump.DispAdd? || s.pump.Record? || s.pump.LoopGet? || s.pump.LoopEmpty?
    ensures PumpDispatches(s, s')
  {
    var idle := s.(pump := Select, loop := Forget(s.loop, s.pump.c).(rdy := false));
    match s.pump
    case DispGet(c) => s' := if c in s.store.live then s.(pump := DispPeek(c, s.store.live[c])) else idle;
    case DispPeek(c, q) => s' := PeekMoves(s);
    case DispAdd(c, q, r) => s' := s.(pump := DispWrite(c, q, r), pending := if c in s.pending then s.pending else s.pending[c := r]);
    case Record(c, r, ctx) => s' := s.(pump := Select, loop := Recorded(s.loop, c, r, ctx, c in s.pending));
    case LoopGet(c) => s' := s.(pump := if c in s.store.live then LoopEmpty(c, s.store.live[c]) else Select);
    case LoopEmpty(c, q) => s' := s.(pump := if Front(s.store, q).Some? then DispGet(c) else Select);
    case _ =>
  }

  lemma DrainMoves(s: State) returns (s': State)
    requires s.pump.DrainMap? || s.pump.DrainPending? || s.pump.Firing? || (s.pump.DrainQueues? && s.pump.todo == map[])
    ensures PumpDrains(s, s')
  {
    match s.pump
    case DrainMap => s' := s.(pump := DrainPending(s.store.live), store := Detach(s.store));
    case DrainPending(todo) => s' := s.(pump := DrainQueues(todo), pending := map[]);
    case DrainQueues(todo) => s' := s.(pump := Exited);
    case Firing(todo, rest) =>
      s' := if rest == [] then s.(pump := DrainQueues(todo))
            else s.(pump := Firing(todo, rest[1..]), ledger := Notified(s.ledger, rest[0], Cancelled));
    case _ =>
  }

  lemma TakesMoves(s: State, c: Client) returns (s': State)
    requires s.pump.DrainQueues? && c in s.pump.todo
    ensures DrainMove(s, c, s')
  {
    var q := s.pump.todo[c];
    s' := s.(pump := Firing(s.pump.todo - {c}, Contents(s.store, q)), store := Drain(s.store, q),
             ledger := ClaimedAll(s.ledger, Contents(s.store, q)));
  }

  /** There is something for the pump to do. */
  predicate PumpCalled(s: State) {
    !s.pump.Exited? && (s.pump.Select? ==> !s.running || s.reqC != [] || s.ready.Some?)
  }

  predicate Looping(p: Pump) { p.DispGet? || p.DispPeek? || p.DispAdd? || p.Record? || p.LoopGet? || p.LoopEmpty? }

  lemma SelectMoves(s: State) returns (p: PumpStep, s': State)
    requires PumpCalled(s) && s.pump.Select?
    ensures PumpNext(s, p, s') && !p.Write?
  {
    var arm := if !s.running then OnStop else if s.reqC != [] then OnReq else OnReady;
    p := Selects(arm);
    s' := ArmMoves(s, arm);
  }

  lemma DrainingMoves(s: State) returns (p: PumpStep, s': State)
    requires Draining(s.pump) && !s.pump.Exited?
    ensures PumpNext(s, p, s') && !p.Write?
  {
    if s.pump.DrainQueues? && s.pump.todo != map[] {
      var c :| c in s.pump.todo;
      p := Takes(c);
      s' := TakesMoves(s, c);
    } else {
      p := DrainOn;
      s' := DrainMoves(s);
    }
  }

  /** Outside its select the pump waits for nobody. */
  lemma PumpMoves(s: State) returns (p: PumpStep, s': State)
    requires PumpCalled(s)
    ensures PumpNext(s, p, s') && (p.Write? ==> p == Write(false, None))
  {
    if s.pump.Select? { p, s' := SelectMoves(s); }
    else if Draining(s.pump) { p, s' := DrainingMoves(s); }
    else if Completing(s.pump) { p := Complete; s' := CompleteMoves(s); }
    else if Looping(s.pump) { p := Dispatch; s' := DispatchMoves(s); }
    else if s.pump.DispWrite? { p := Write(false, None); s' := s.(pump := CompGet(s.pump.c, Some(s.pump.r), ByWriteError)); }
    else { p := Route; s' := RouteMoves(s); }
  }

  /** A send is held up only by a waiting Stop, or by a full request channel. */
  lemma SendMoves(s: State, r: Req) returns (s': State)
    requires r in s.senders && !((s.senders[r].pc.SRun? || s.senders[r].pc.SLock?) && s.stop.Locking?)
    requires s.senders[r].pc.SSend? ==> |s.reqC| < REQUEST_CHANNEL_CAPACITY
    ensures SendMove(s, r, s')
  {
    var f := s.senders[r].facade;
    var fails := s.(senders := s.senders - {r}, facade := Unlocked(s.facade, r));
    match s.senders[r].pc
    case SRun => s' := if s.running then s.(senders := s.senders[r := Sender(SGet, f)]) else fails;
    case SGet => s' := if r.client in s.store.live then s.(senders := s.senders[r := Sender(SPush(s.store.live[r.client]), f)]) else fails;
    case SPush(q) => s' := if Full(s.store, q) then fails else s.(senders := s.senders[r := Sender(SLock, f)], store := Push(s.store, q, r));
    case SLock => s' := if s.running then s.(senders := s.senders[r := Sender(SSend, f)]) else fails;
    case SSend =>
      s' := s.(senders := s.senders[r := Sender(SReg, f)], reqC := s.reqC + [ReqTok(r.client, false)], accepted := s.accepted + {r});
    case SReg => s' := s.(senders := s.senders - {r}, facade := Unlocked(if f then Registered(s.facade, r) else s.facade, r));
  }
}
