/**
 The ordering of CreateClient is exactly what the wake-up promise needs: from
 every state where a queue is created inside the disconnect of its client,
 while the dispatcher runs, some otherwise ordered continuation loses a
 wake-up, and without such a creation none does.
 */
module ServerWeakest {
  import opened Basics
  import opened QueueStore
  import opened ServerStack
  import opened ServerTrace
  import opened ServerOwnership
  import opened ServerPhase
  import opened ServerDelete
  import opened ServerFacade
  import opened ServerSection
  import opened ServerWake
  import ServerScenes
  import opened ServerReach
  import opened ServerDrive

  /** The pump sleeps over a queue with work: nothing is pending, and nothing
      buffered or about to be posted will wake it for `c`. */
  ghost predicate Asleep(s: State, c: Client) {
    && s.running && s.pump.Select? && s.reqC == [] && s.ready.None? && c in s.store.live && c !in s.pending
    && Front(s.store, s.store.live[c]).Some?
    && (forall r :: r in s.senders && r.client == c ==> !s.senders[r].pc.SLock? && !s.senders[r].pc.SSend?)
    && (forall r: Req :: r.client == c ==> !Answering(s.ledger, r))
  }

  lemma AsleepIsLost(s: State, c: Client)
    requires Asleep(s, c)
    ensures !WakeAt(s, c)
  {
    forall r: Req | r.client == c ensures !Answered(s, r) { assert !Answering(s.ledger, r); }
  }

  lemma NobodyAnswers(s: State, c: Client)
    requires Answers(s, c) == {}
    ensures forall r: Req :: r.client == c ==> !Answering(s.ledger, r)
  {
    forall r: Req | r.client == c ensures !Answering(s.ledger, r) { assert r !in Answers(s, c); }
  }

  lemma NobodyPushes(s: State, c: Client)
    requires Pushers(s, c) == {}
    ensures forall r :: r in s.senders && r.client == c ==> !s.senders[r].pc.SLock? && !s.senders[r].pc.SSend?
  {
    forall r | r in s.senders && r.client == c ensures !s.senders[r].pc.SLock? && !s.senders[r].pc.SSend? {
      assert r !in Pushers(s, c);
    }
  }

  /** The queue has work and its token is used up: clearing the slot loses the wake-up. */
  lemma LosesByClearing(s: State, c: Client, q: QRef) returns (s': State)
    requires Late(s, c, q) && s.pump.Select? && s.ready.None? && s.reqC == [] && Answers(s, c) == {} && Pushers(s, c) == {}
    requires Lookup(s.discs, c) == Some(DClear) && Front(s.store, q).Some?
    ensures Leads(s, s') && Asleep(s', c)
  {
    s' := s.(discs := s.discs[c := DDrain], pending := s.pending - {c});
    OneStep(s, World(PeerStep(DiscStep(c))), s');
    NobodyAnswers(s, c);
    NobodyPushes(s, c);
  }

  /** A request id nobody has used for `c`. */
  lemma FreshRequest(s: State, c: Client) returns (r: Req)
    ensures r.client == c && r !in s.store.home && r !in s.senders && r !in s.expired && s.facade.mutexBy != Some(r)
  {
    var used := s.store.home.Keys + s.senders.Keys + s.expired + (if s.facade.mutexBy.Some? then {s.facade.mutexBy.value} else {});
    var n := Above(set x | x in used :: x.id);
    r := Req(c, n);
    assert r !in used;
  }

  predicate Counted(st: Store, q: QRef) { At(st, q).log.taken <= |At(st, q).log.pushed| }

  lemma AlwaysCounted(s: State, q: QRef)
    requires Reachable(s)
    ensures Counted(s.store, q)
  {
    ReachableInv(s);
    if q in s.store.queues { assert QueueOk(s.store, q); }
  }

  /** A push to an empty queue comes to its front. */
  lemma PushedFirst(st: Store, q: QRef, r: Req)
    requires Counted(st, q) && Front(st, q).None?
    ensures !Full(st, q) && Front(Push(st, q, r), q) == Some(r)
  {
  }

  /** The slot is held: the new request's token is used up at the pending guard. */
  lemma LosesHeld(s: State, c: Client, q: QRef) returns (s': State)
    requires Calm(s, c, q) && s.reqC == [] && Lookup(s.discs, c) == Some(DClear) && Counted(s.store, q)
    requires c in s.pending || c in s.loop.ctxMap
    ensures Leads(s, s') && Asleep(s', c)
  {
    var r := FreshRequest(s, c);
    PushedFirst(s.store, q, r);
    var s1 := SendsFresh(s, q, r);
    var s2 := Looks(s1, c, q);
    LeadsTrans(s, s1, s2);
    var s3 := PassesBy(s2, c, q);
    LeadsTrans(s, s2, s3);
    assert Answers(s3, c) == Answers(s, c) && Pushers(s3, c) == Pushers(s, c);
    s' := LosesByClearing(s3, c, q);
    LeadsTrans(s, s3, s');
  }

  lemma PassesBy(s: State, c: Client, q: QRef) returns (s': State)
    requires s.pump == GuardEmpty(c) && s.loop.cq == Some(q) && Front(s.store, q).Some?
    requires if s.loop.rdy then c in s.pending else true
    ensures Leads(s, s') && s' == s.(pump := Select)
  {
    if s.loop.rdy { s' := Guards(s, c, q); }
    else {
      s' := s.(pump := Select);
      LeadsSelf(s);
      Routes(s, s, s');
    }
  }

  /** The slot is free: the new request is dispatched, the slot is cleared under
      it, the client reconnects and the write goes through. */
  lemma LosesFree(s: State, c: Client, q: QRef) returns (s': State)
    requires Calm(s, c, q) && s.reqC == [] && Lookup(s.discs, c) == Some(DClear) && s.facade.mutexBy.None?
    requires c !in s.pending && c !in s.loop.ctxMap && Counted(s.store, q)
    ensures Leads(s, s') && Asleep(s', c)
  {
    var r := FreshRequest(s, c);
    PushedFirst(s.store, q, r);
    var s1 := SendsFresh(s, q, r);
    var s2 := DispatchesFront(s1, c, q, r);
    LeadsTrans(s, s1, s2);
    var s3 := ClearsAndReconnects(s2, c);
    LeadsTrans(s, s2, s3);
    s' := WritesFront(s3, c, q, r);
    LeadsTrans(s, s3, s');
    NobodyAnswers(s, c);
    NobodyPushes(s, c);
  }

  lemma Loses(s: State, c: Client, q: QRef) returns (s': State)
    requires Reachable(s) && Calm(s, c, q) && s.reqC == [] && Lookup(s.discs, c) == Some(DClear) && s.facade.mutexBy.None?
    ensures Leads(s, s') && Asleep(s', c)
  {
    AlwaysCounted(s, q);
    if c in s.pending || c in s.loop.ctxMap { s' := LosesHeld(s, c, q); } else { s' := LosesFree(s, c, q); }
  }

  /** A facade send to the late queue that already holds the callbacks mutex goes first. */
  lemma HolderGoes(s: State, c: Client, q: QRef) returns (s': State)
    requires Reachable(s) && Calm(s, c, q) && s.reqC == [] && Lookup(s.discs, c) == Some(DClear) && s.facade.mutexBy.Some?
    ensures Leads(s, s') && Late(s', c, q) && s'.pump.Select? && s'.ready.None? && s'.reqC == [] && s'.facade.mutexBy.None?
    ensures Answers(s', c) == {} && Pushers(s', c) == {} && Lookup(s'.discs, c) == Some(DClear)
  {
    ReachableInv(s);
    var r := s.facade.mutexBy.value;
    assert r in s.senders && s.senders[r].facade;
    var s1 := SendsInto(s, q, r);
    SentStaysLate(s, c, q, r);
    s' := DrainReqs(s1, c, q);
    LeadsTrans(s, s1, s');
    KeepsLate(s1, s', c, q);
    KeepsAnswers(s1, s', c, q);
    KeepsPushers(s1, s', c, q);
  }

  lemma SentStaysLate(s: State, c: Client, q: QRef, r: Req)
    requires Calm(s, c, q) && r in s.senders && s.senders[r].facade && s.facade.mutexBy == Some(r)
    ensures Late(Sent(s, q, r), c, q) && Answers(Sent(s, q, r), c) == {} && Pushers(Sent(s, q, r), c) == {}
    ensures Sent(s, q, r).facade.mutexBy.None?
  {
    assert Answers(Sent(s, q, r), c) == Answers(s, c) && Pushers(Sent(s, q, r), c) <= Pushers(s, c);
  }

  lemma LosesAtRest(s: State, c: Client, q: QRef) returns (s': State)
    requires Reachable(s) && Calm(s, c, q) && s.reqC == [] && Lookup(s.discs, c) == Some(DClear)
    ensures Leads(s, s') && Asleep(s', c)
  {
    if s.facade.mutexBy.None? {
      s' := Loses(s, c, q);
    } else {
      var s1 := HolderGoes(s, c, q);
      ReachableThrough(s, s1);
      if Front(s1.store, q).Some? { s' := LosesByClearing(s1, c, q); } else { s' := Loses(s1, c, q); }
      LeadsTrans(s, s1, s');
    }
  }

  /** From every state in which CreateClient makes a queue inside the window of
      its client's disconnect, while running, an ordered continuation leaves
      the pump asleep over work of that client. */
  lemma LateCreateLosesWakeUp(s: State, c: Client, q: QRef, s': State) returns (s'': State)
    requires Reachable(s) && Creates(s, c, q, s') && s.running && InWindow(s.discs, c) && c !in s.store.live
    ensures Leads(s', s'') && Asleep(s'', c)
  {
    ReachableInv(s);
    Then(s, World(PeerStep(CreateClient(c, q))), s');
    CreatedLate(s, c, q, s');
    var s1 := CalmDown(s', c, q);
    ReachableThrough(s', s1);
    var s2 := ReadyToClear(s1, c, q);
    LeadsTrans(s', s1, s2);
    ReachableThrough(s', s2);
    s'' := LosesAtRest(s2, c, q);
    LeadsTrans(s', s2, s'');
  }

  lemma CreatedLate(s: State, c: Client, q: QRef, s': State)
    requires OwnInv(s) && PhaseInv(s) && Creates(s, c, q, s') && s.running && InWindow(s.discs, c) && c !in s.store.live
    ensures Late(s', c, q) && Front(s'.store, q).None?
  {
    forall r | r in s.senders ensures s.senders[r].pc != SPush(q) { assert SenderOk(s.store, r, s.senders[r].pc); }
  }

  /** The condition on CreateClient is the weakest one: at the end of an ordered
      run the call is ordered exactly when no ordered continuation loses a
      wake-up of that client. */
  lemma OrderingIsWeakest(run: Run, c: Client, q: QRef, s': State)
    requires IsOrderedRun(run) && Creates(run.states[|run.steps|], c, q, s')
    ensures Ordered(run.states[|run.steps|], PeerStep(CreateClient(c, q))) <==> forall s'' :: Leads(s', s'') ==> WakeAt(s'', c)
  {
    var s := run.states[|run.steps|];
    assert OrderedReachable(s) && Reachable(s);
    if Ordered(s, PeerStep(CreateClient(c, q))) {
      OrderedThen(s, World(PeerStep(CreateClient(c, q))), s');
      forall s'' | Leads(s', s'') ensures WakeAt(s'', c) {
        OrderedThrough(s', s'');
        WakeIfOrdered(s'', c);
      }
    } else {
      ExclusiveRun(run, |run.steps|);
      var s'' := LateCreateLosesWakeUp(s, c, q, s');
      AsleepIsLost(s'', c);
    }
  }

  lemma WakeIfOrdered(s: State, c: Client)
    requires OrderedReachable(s)
    ensures WakeAt(s, c)
  {
    var run :| IsOrderedRun(run) && run.states[|run.steps|] == s;
    AwakeRun(run, |run.steps|, c);
  }

  /** A CreateClient inside the window is a step the code can take, and it loses a wake-up. */
  lemma WakeUpCanBeLost() returns (s: State)
    ensures Reachable(s) && Asleep(s, 0) && !WakeAt(s, 0)
  {
    var s0 := ServerScenes.EarlyDisconnect();
    var s1 := s0.(store := GetOrCreate(s0.store, 0, 7), owed := multiset{});
    Then(s0, World(PeerStep(CreateClient(0, 7))), s1);
    s := LateCreateLosesWakeUp(s0, 0, 7, s1);
    ReachableThrough(s1, s);
    AsleepIsLost(s, 0);
  }
}
