/**
 What Stop leaves behind, at concrete states: a response that finds the ready
 channel full after the pump has exited, and a send that looked its queue up
 before the stop drain and is accepted by the next generation.
 */
module ServerRestarts {
  import opened Basics
  import opened QueueStore
  import opened ServerStack
  import opened ServerTrace
  import opened ServerOwnership
  import opened ServerPhase
  import opened ServerStop
  import opened ServerProgress
  import opened ServerReach
  import opened ServerScenes

  /** One late response is enough: the token posted before the exit is still there. */
  lemma StuckIsReachable() returns (s: State)
    ensures Reachable(s) && Stuck(s, AResponder(CALL_B))
  {
    var s0 := TokenBuffered();
    var s1 := Answers(s0, CALL_B, 7);
    var s2 := Detaches(s1, 7);
    s := Drains(s2, 7);
  }

  // ---- a send that straddles a restart ----

  /** The send of `r` looked its queue up before the stop drain and can still be
      accepted into it, though nobody answers for that queue any more. */
  predicate Straddles(s: State, r: Req) {
    && r in s.senders && !CleanSend(s, r)
    && (s.senders[r].pc.SPush? ==> !Full(s.store, s.senders[r].pc.q))
  }

  /** The request was accepted, and is in a queue nobody will ever look at. */
  predicate Stranded(s: State, r: Req) {
    r in s.accepted && r in s.store.home && !Tracked(s.store, s.ledger.claim, s.pump, r)
  }

  /** Whenever a send straddles a Start, that Start can strand its request, and
      its callback when it has one. */
  lemma StraddlingStrands(s: State, r: Req) returns (s': State)
    requires OwnInv(s) && PhaseInv(s) && s.stop.Returned? && Straddles(s, r)
    ensures Leads(Started(s), s') && Stranded(s', r) && (s.senders[r].facade ==> r in s'.facade.registered)
  {
    var s1 := Started(s);
    if s.senders[r].pc.SPush? {
      var q := s.senders[r].pc.q;
      var s2 := s1.(store := Push(s1.store, q, r), senders := s1.senders[r := Sender(SLock, s.senders[r].facade)]);
      Sends(s1, r, s2);
      PushedStrays(s, r, s2);
      s' := AcceptedAway(s2, r);
      LeadsTrans(s1, s2, s');
    } else {
      s' := AcceptedAway(s1, r);
    }
  }

  /** A push after the stop drain goes to a queue that is neither live nor removed. */
  lemma PushedStrays(s: State, r: Req, s2: State)
    requires OwnInv(s) && PhaseInv(s) && s.stop.Returned? && Straddles(s, r) && s.senders[r].pc.SPush?
    requires s2.store == Push(s.store, s.senders[r].pc.q, r) && s2.ledger == s.ledger && s2.pump.Select?
    ensures !Tracked(s2.store, s2.ledger.claim, s2.pump, r)
  {
    assert SenderOk(s.store, r, s.senders[r].pc);
    assert r !in s.store.home && !Taken(s.store, r);
  }

  lemma AcceptedAway(s: State, r: Req) returns (s': State)
    requires s.running && s.stop.NotCalled? && s.reqC == [] && r in s.senders && s.senders[r].pc.SLock?
    requires r in s.store.home && !Tracked(s.store, s.ledger.claim, s.pump, r)
    ensures Leads(s, s') && Stranded(s', r) && (s.senders[r].facade ==> r in s'.facade.registered)
  {
    var f := s.senders[r].facade;
    var s1 := s.(senders := s.senders[r := Sender(SSend, f)]);
    Sends(s, r, s1);
    var s2 := Posts(s1, r);
    LeadsTrans(s, s1, s2);
    s' := s2.(senders := s2.senders - {r}, facade := Unlocked(if f then Registered(s.facade, r) else s.facade, r));
    Sends(s2, r, s');
    LeadsTrans(s, s2, s');
  }

  /** For unbounded queues, the default, a Start is clean exactly when no send straddles it. */
  lemma CleanOrStraddled(s: State)
    requires s.store.capacity == 0
    ensures CleanStart(s) <==> forall r :: !Straddles(s, r)
  {
    if !CleanStart(s) {
      var r :| r in s.senders && !CleanSend(s, r);
      assert Straddles(s, r);
    }
  }

  lemma NeverStranded(s: State, r: Req)
    requires StopInv(s)
    ensures !Stranded(s, r)
  {
    assert r in s.accepted ==> Counts(s.accepted, s.senders, s.running, r);
  }

  lemma NeverIfClean(s: State, r: Req)
    requires CleanReachable(s)
    ensures !Stranded(s, r)
  {
    var run :| IsCleanRun(run) && run.states[|run.steps|] == s;
    TrackedRun(run, |run.steps|);
    NeverStranded(s, r);
  }

  /** The condition on Start is the weakest one: at the end of a clean run with
      unbounded queues, a Start is clean exactly when no ordered and clean
      continuation strands an accepted request. */
  lemma CleanIsWeakest(run: Run)
    requires IsCleanRun(run) && run.states[|run.steps|].stop.Returned? && run.states[|run.steps|].store.capacity == 0
    ensures CleanStart(run.states[|run.steps|]) <==>
            forall s', r :: Leads(Started(run.states[|run.steps|]), s') ==> !Stranded(s', r)
  {
    var s := run.states[|run.steps|];
    assert CleanReachable(s);
    CleanOrStraddled(s);
    if CleanStart(s) {
      CleanThen(s, World(ServerStack.StartStep), Started(s));
      forall s', r | Leads(Started(s), s') ensures !Stranded(s', r) {
        CleanThrough(Started(s), s');
        NeverIfClean(s', r);
      }
    } else {
      SafeRun(run, |run.steps|);
      var r :| Straddles(s, r);
      var s' := StraddlingStrands(s, r);
      assert Leads(Started(s), s') && Stranded(s', r);
    }
  }

  /** It still holds queue 7 when Stop returns. */
  lemma StraddleIsReachable() returns (s: State)
    ensures Reachable(s) && s.stop.Returned? && Straddles(s, CALL_A) && s.senders[CALL_A].facade
  {
    var s2 := MidSend();
    var s3 := Detaches(s2, 7);
    var s4 := Drains(s3, 7);
    s := Returns(s4);
    HoldsSeven(s);
  }

  lemma HoldsSeven(s: State)
    requires s.senders == map[CALL_A := Sender(SPush(7), true)] && 7 !in s.store.removed && s.store.capacity == 0
    ensures Straddles(s, CALL_A)
  {
  }
}
