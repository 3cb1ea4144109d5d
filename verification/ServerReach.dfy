/**
 Reachability in the server stack: what some run leads to, and what a
 continuation of ordered and clean steps leads to from a given state.
 */
module ServerReach {
  import opened Basics
  import opened QueueStore
  import opened ServerStack
  import opened ServerTrace

  ghost predicate Reachable(s: State) { exists run :: IsRun(run) && run.states[|run.steps|] == s }

  lemma Starts(capacity: nat)
    ensures Reachable(Init(capacity))
  {
    var run := Run(capacity, [Init(capacity)], []);
    assert IsRun(run) && run.states[|run.steps|] == Init(capacity);
  }

  lemma Then(s: State, l: Step, s': State)
    requires Reachable(s) && Next(s, l, s')
    ensures Reachable(s')
  {
    var run :| IsRun(run) && run.states[|run.steps|] == s;
    ChainGrows(run.states, run.steps, Next, l, s');
    var more := Run(run.capacity, run.states + [s'], run.steps + [l]);
    assert IsRun(more) && more.states[|more.steps|] == s';
  }

  ghost predicate OrderedReachable(s: State) { exists run :: IsOrderedRun(run) && run.states[|run.steps|] == s }

  lemma OrderedThen(s: State, l: Step, s': State)
    requires OrderedReachable(s) && Next(s, l, s') && OrderedStep(s, l)
    ensures OrderedReachable(s')
  {
    var run :| IsOrderedRun(run) && run.states[|run.steps|] == s;
    ChainGrows(run.states, run.steps, Next, l, s');
    var more := Run(run.capacity, run.states + [s'], run.steps + [l]);
    assert IsOrderedRun(more) && more.states[|more.steps|] == s';
  }

  ghost predicate CleanReachable(s: State) { exists run :: IsCleanRun(run) && run.states[|run.steps|] == s }

  lemma CleanThen(s: State, l: Step, s': State)
    requires CleanReachable(s) && Next(s, l, s') && CleanStep(s, l)
    ensures CleanReachable(s')
  {
    var run :| IsCleanRun(run) && run.states[|run.steps|] == s;
    ChainGrows(run.states, run.steps, Next, l, s');
    var more := Run(run.capacity, run.states + [s'], run.steps + [l]);
    assert IsCleanRun(more) && more.states[|more.steps|] == s';
  }

  // ---- ordered and clean continuations ----

  predicate Tame(s: State, l: Step) { OrderedStep(s, l) && CleanStep(s, l) }

  datatype Trail = Trail(states: seq<State>, steps: seq<Step>)

  predicate IsTrail(t: Trail) {
    && IsChain(t.states, t.steps, Next)
    && forall i :: 0 <= i < |t.steps| ==> Tame(t.states[i], t.steps[i])
  }

  predicate Joins(t: Trail, s: State, s': State) { IsTrail(t) && t.states[0] == s && t.states[|t.steps|] == s' }

  /** Some sequence of ordered and clean steps leads from `s` to `s'`. */
  ghost predicate Leads(s: State, s': State) { exists t :: Joins(t, s, s') }

  lemma LeadsSelf(s: State)
    ensures Leads(s, s)
  {
    assert Joins(Trail([s], []), s, s);
  }

  lemma LeadsOn(s: State, s': State, l: Step, s'': State)
    requires Leads(s, s') && Next(s', l, s'') && Tame(s', l)
    ensures Leads(s, s'')
  {
    var t :| Joins(t, s, s');
    ChainGrows(t.states, t.steps, Next, l, s'');
    assert Joins(Trail(t.states + [s''], t.steps + [l]), s, s'');
  }

  lemma OneStep(s: State, l: Step, s': State)
    requires Next(s, l, s') && Tame(s, l)
    ensures Leads(s, s')
  {
    LeadsSelf(s);
    LeadsOn(s, s, l, s');
  }

  lemma {:induction false} LeadsAlong(s: State, t: Trail, n: nat)
    requires IsTrail(t) && n <= |t.steps| && Leads(s, t.states[0])
    ensures Leads(s, t.states[n])
  {
    if n > 0 {
      LeadsAlong(s, t, n - 1);
      LeadsOn(s, t.states[n - 1], t.steps[n - 1], t.states[n]);
    }
  }

  lemma LeadsTrans(s: State, s': State, s'': State)
    requires Leads(s, s') && Leads(s', s'')
    ensures Leads(s, s'')
  {
    var t :| Joins(t, s', s'');
    LeadsAlong(s, t, |t.steps|);
  }

  lemma StepOf(t: Trail, i: nat)
    requires IsTrail(t) && 0 < i < |t.states|
    ensures Next(t.states[i - 1], t.steps[i - 1], t.states[i]) && Tame(t.states[i - 1], t.steps[i - 1])
  {
  }

  lemma ReachableThrough(s: State, s': State)
    requires Reachable(s) && Leads(s, s')
    ensures Reachable(s')
  {
    var t :| Joins(t, s, s');
    forall i | 0 < i < |t.states| && Reachable(t.states[i - 1]) ensures Reachable(t.states[i]) {
      StepOf(t, i);
      Then(t.states[i - 1], t.steps[i - 1], t.states[i]);
    }
    KeptAlong(t.states, x => Reachable(x), |t.steps|);
  }

  lemma OrderedThrough(s: State, s': State)
    requires OrderedReachable(s) && Leads(s, s')
    ensures OrderedReachable(s')
  {
    var t :| Joins(t, s, s');
    forall i | 0 < i < |t.states| && OrderedReachable(t.states[i - 1]) ensures OrderedReachable(t.states[i]) {
      StepOf(t, i);
      OrderedThen(t.states[i - 1], t.steps[i - 1], t.states[i]);
    }
    KeptAlong(t.states, x => OrderedReachable(x), |t.steps|);
  }

  lemma CleanThrough(s: State, s': State)
    requires CleanReachable(s) && Leads(s, s')
    ensures CleanReachable(s')
  {
    var t :| Joins(t, s, s');
    forall i | 0 < i < |t.states| && CleanReachable(t.states[i - 1]) ensures CleanReachable(t.states[i]) {
      StepOf(t, i);
      CleanThen(t.states[i - 1], t.steps[i - 1], t.states[i]);
    }
    KeptAlong(t.states, x => CleanReachable(x), |t.steps|);
  }

  // ---- passages: one goroutine moves alone ----

  lemma Begins(s: State, r: Req) returns (s': State)
    requires r !in s.store.home && r !in s.senders
    ensures Leads(s, s') && s' == s.(senders := s.senders[r := Sender(SRun, false)])
  {
    s' := s.(senders := s.senders[r := Sender(SRun, false)]);
    OneStep(s, World(SendStart(r, false)), s');
  }

  lemma Sends(s: State, r: Req, s': State)
    requires SendMove(s, r, s')
    ensures Leads(s, s')
  {
    OneStep(s, World(SendStep(r)), s');
  }

  lemma Arms(s: State, arm: Arm, s': State)
    requires ArmMove(s, arm, s')
    ensures Leads(s, s')
  {
    OneStep(s, Pumps(Selects(arm)), s');
  }

  lemma Routes(s: State, s': State, s'': State)
    requires Leads(s, s') && PumpRoutes(s', s'')
    ensures Leads(s, s'')
  {
    LeadsOn(s, s', Pumps(Route), s'');
  }

  lemma GoesOn(s: State, s': State, s'': State)
    requires Leads(s, s') && PumpDispatches(s', s'')
    ensures Leads(s, s'')
  {
    LeadsOn(s, s', Pumps(Dispatch), s'');
  }

  lemma Peers(s: State, s': State, p: Peer, s'': State)
    requires Leads(s, s') && PeerMove(s', p, s'') && Ordered(s', PeerStep(p))
    ensures Leads(s, s'')
  {
    LeadsOn(s, s', World(PeerStep(p)), s'');
  }

  /** SendRequest up to the lookup of the queue. */
  lemma LooksUp(s: State, q: QRef, r: Req) returns (s': State)
    requires s.running && s.stop.NotCalled? && r in s.senders && (s.senders[r].pc.SRun? || s.senders[r].pc.SGet?)
    requires Lookup(s.store.live, r.client) == Some(q)
    ensures Leads(s, s') && s' == s.(senders := s.senders[r := Sender(SPush(q), s.senders[r].facade)])
  {
    var f := s.senders[r].facade;
    var s1 := s;
    LeadsSelf(s);
    if s.senders[r].pc.SRun? {
      s1 := s.(senders := s.senders[r := Sender(SGet, f)]);
      Sends(s, r, s1);
    }
    s' := s.(senders := s.senders[r := Sender(SPush(q), f)]);
    assert s1.senders[r := Sender(SPush(q), f)] == s'.senders;
    LeadsOn(s, s1, World(SendStep(r)), s');
  }

  /** ... from the push to the token. */
  lemma Pushes(s: State, q: QRef, r: Req) returns (s': State)
    requires s.running && s.stop.NotCalled? && s.reqC == [] && r in s.senders && s.senders[r].pc == SPush(q) && !Full(s.store, q)
    ensures Leads(s, s')
    ensures s' == s.(senders := s.senders[r := Sender(SReg, s.senders[r].facade)], store := Push(s.store, q, r),
                     reqC := [ReqTok(r.client, false)], accepted := s.accepted + {r})
  {
    var f := s.senders[r].facade;
    var s1 := s.(senders := s.senders[r := Sender(SLock, f)], store := Push(s.store, q, r));
    Sends(s, r, s1);
    var s2 := s.(senders := s.senders[r := Sender(SSend, f)], store := Push(s.store, q, r));
    assert s1.senders[r := Sender(SSend, f)] == s2.senders;
    LeadsOn(s, s1, World(SendStep(r)), s2);
    s' := Posts(s2, r);
    assert s2.senders[r := Sender(SReg, f)] == s.senders[r := Sender(SReg, f)];
    LeadsTrans(s, s2, s');
  }

  lemma Posts(s: State, r: Req) returns (s': State)
    requires s.reqC == [] && r in s.senders && s.senders[r].pc.SSend?
    ensures Leads(s, s')
    ensures s' == s.(senders := s.senders[r := Sender(SReg, s.senders[r].facade)], reqC := [ReqTok(r.client, false)],
                     accepted := s.accepted + {r})
  {
    s' := s.(senders := s.senders[r := Sender(SReg, s.senders[r].facade)], reqC := [ReqTok(r.client, false)],
             accepted := s.accepted + {r});
    Sends(s, r, s');
  }

  /** What a whole send that finds queue `q` leaves behind. */
  function Sent(s: State, q: QRef, r: Req): State
    requires r in s.senders
  {
    s.(senders := s.senders - {r}, facade := Unlocked(if s.senders[r].facade then Registered(s.facade, r) else s.facade, r),
       store := Push(s.store, q, r), reqC := [ReqTok(r.client, false)], accepted := s.accepted + {r})
  }

  lemma SendsInto(s: State, q: QRef, r: Req) returns (s': State)
    requires s.running && s.stop.NotCalled? && s.reqC == [] && r in s.senders && (s.senders[r].pc.SRun? || s.senders[r].pc.SGet?)
    requires Lookup(s.store.live, r.client) == Some(q) && !Full(s.store, q)
    ensures Leads(s, s') && s' == Sent(s, q, r)
  {
    var s1 := LooksUp(s, q, r);
    var s2 := Pushes(s1, q, r);
    LeadsTrans(s, s1, s2);
    s' := Sent(s, q, r);
    assert s2.senders - {r} == s.senders - {r};
    LeadsOn(s, s2, World(SendStep(r)), s');
  }

  /** A whole send by a fresh, facade-less caller. */
  lemma SendsFresh(s: State, q: QRef, r: Req) returns (s': State)
    requires s.running && s.stop.NotCalled? && s.reqC == [] && r !in s.senders && r !in s.store.home && s.facade.mutexBy != Some(r)
    requires Lookup(s.store.live, r.client) == Some(q) && !Full(s.store, q)
    ensures Leads(s, s')
    ensures s' == s.(store := Push(s.store, q, r), reqC := [ReqTok(r.client, false)], accepted := s.accepted + {r})
  {
    var s1 := Begins(s, r);
    s' := SendsInto(s1, q, r);
    assert s1.senders - {r} == s.senders;
    LeadsTrans(s, s1, s');
  }

  /** The pump takes a request token of `c` and looks at its queue. */
  lemma Looks(s: State, c: Client, q: QRef) returns (s': State)
    requires s.pump.Select? && s.reqC == [ReqTok(c, false)] && Lookup(s.store.live, c) == Some(q)
    ensures Leads(s, s')
    ensures s' == s.(pump := GuardEmpty(c), reqC := [], loop := s.loop.(cq := Some(q), rdy := c !in s.loop.ctxMap))
  {
    var s1 := s.(pump := ReqGet(c, false), reqC := []);
    Arms(s, OnReq, s1);
    s' := s1.(pump := GuardEmpty(c), loop := s.loop.(cq := Some(q), rdy := c !in s.loop.ctxMap));
    Routes(s, s1, s');
  }

  lemma Guards(s: State, c: Client, q: QRef) returns (s': State)
    requires s.pump == GuardEmpty(c) && s.loop.rdy && s.loop.cq == Some(q) && Front(s.store, q).Some?
    ensures Leads(s, s') && s' == s.(pump := if c in s.pending then Select else DispGet(c))
  {
    var s1 := s.(pump := GuardPending(c));
    LeadsSelf(s);
    Routes(s, s, s1);
    s' := s.(pump := if c in s.pending then Select else DispGet(c));
    Routes(s, s1, s');
  }

  lemma Dispatches(s: State, c: Client, q: QRef, r: Req) returns (s': State)
    requires s.pump == DispGet(c) && c !in s.pending
    requires Lookup(s.store.live, c) == Some(q) && Front(s.store, q) == Some(r) && r !in s.expired
    ensures Leads(s, s') && s' == s.(pump := DispWrite(c, q, r), pending := s.pending[c := r])
  {
    var s1 := s.(pump := DispPeek(c, q));
    LeadsSelf(s);
    GoesOn(s, s, s1);
    var s2 := s.(pump := DispAdd(c, q, r));
    GoesOn(s, s1, s2);
    s' := s.(pump := DispWrite(c, q, r), pending := s.pending[c := r]);
    GoesOn(s, s2, s');
  }

  /** From the token to the call of network.Write. */
  lemma DispatchesFront(s: State, c: Client, q: QRef, r: Req) returns (s': State)
    requires s.pump.Select? && s.reqC == [ReqTok(c, false)] && c !in s.loop.ctxMap && c !in s.pending
    requires Lookup(s.store.live, c) == Some(q) && Front(s.store, q) == Some(r) && r !in s.expired
    ensures Leads(s, s')
    ensures s' == s.(pump := DispWrite(c, q, r), pending := s.pending[c := r], reqC := [], loop := s.loop.(rdy := true, cq := Some(q)))
  {
    var s1 := Looks(s, c, q);
    var s2 := Guards(s1, c, q);
    s' := Dispatches(s2, c, q, r);
    LeadsTrans(s, s1, s2);
    LeadsTrans(s, s2, s');
  }

  /** The write succeeds without a timeout context, and the dispatch is recorded. */
  lemma WritesFront(s: State, c: Client, q: QRef, r: Req) returns (s': State)
    requires s.pump == DispWrite(c, q, r) && c in s.connected
    ensures Leads(s, s')
    ensures s' == s.(pump := Select, store := Wrote(s.store, q, r), wired := s.wired + {r}, sent := s.sent + {r},
                     loop := ServerStack.Recorded(s.loop, c, r, None, c in s.pending))
  {
    var s1 := s.(pump := Record(c, r, None), store := Wrote(s.store, q, r), wired := s.wired + {r}, sent := s.sent + {r});
    OneStep(s, Pumps(Write(true, None)), s1);
    s' := s1.(pump := Select, loop := ServerStack.Recorded(s.loop, c, r, None, c in s.pending));
    GoesOn(s, s1, s');
  }

  /** The disconnect clears the slot and drains the callbacks, then the client reconnects. */
  lemma ClearsAndReconnects(s: State, c: Client) returns (s': State)
    requires Lookup(s.discs, c) == Some(DClear) && c !in s.connected && s.facade.mutexBy.None?
    ensures Leads(s, s')
    ensures s' == s.(discs := s.discs - {c}, pending := s.pending - {c}, facade := DrainCallbacks(s.facade, c),
                     connected := s.connected + {c}, owed := s.owed + multiset{c})
  {
    var s1 := s.(discs := s.discs[c := DDrain], pending := s.pending - {c});
    LeadsSelf(s);
    Peers(s, s, DiscStep(c), s1);
    var s2 := s1.(discs := s.discs - {c}, facade := DrainCallbacks(s.facade, c));
    assert s1.discs - {c} == s.discs - {c};
    Peers(s, s1, DiscStep(c), s2);
    s' := s2.(connected := s.connected + {c}, owed := s.owed + multiset{c});
    Peers(s, s2, Connect(c), s');
  }
}
