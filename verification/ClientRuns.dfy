/** The main results about the client dispatcher, over whole runs. */
module ClientRuns {
  import opened Basics
  import opened ClientStack
  import opened ClientOwnership
  import opened ClientDispatch

  ghost predicate Inv(s: State) { OwnInv(s) && DispatchInv(s) && WakeInv(s) && StopInv(s) }

  lemma InitOk(capacity: nat)
    ensures Inv(Init(capacity))
  {
  }

  lemma InvOnPump(s: State, p: PumpStep, s': State)
    requires Inv(s) && PumpNext(s, p, s')
    ensures Inv(s')
  {
    OwnOnPump(s, p, s');
    DispatchOnPump(s, p, s');
    WakeOnPump(s, p, s');
    StopOnPump(s, p, s');
  }

  lemma InvOnWorld(s: State, w: WorldStep, s': State)
    requires Inv(s) && WorldNext(s, w, s')
    ensures Inv(s')
  {
    OwnOnWorld(s, w, s');
    DispatchOnWorld(s, w, s');
    WakeOnWorld(s, w, s');
    StopOnWorld(s, w, s');
  }

  datatype Run = Run(capacity: nat, states: seq<State>, steps: seq<Step>)

  predicate IsRun(run: Run) { IsChain(run.states, run.steps, Next) && run.states[0] == Init(run.capacity) }

  lemma {:induction false} InRun(run: Run, i: nat)
    requires IsRun(run) && i < |run.states|
    ensures Inv(run.states[i])
  {
    if i == 0 {
      InitOk(run.capacity);
    } else {
      InRun(run, i - 1);
      match run.steps[i - 1]
      case Pumps(p) => InvOnPump(run.states[i - 1], p, run.states[i]);
      case World(w) => InvOnWorld(run.states[i - 1], w, run.states[i]);
    }
  }

  /** Two requests written and not yet completed are the same request. */
  lemma AtMostOneOutstanding(run: Run, i: nat, x: Id, y: Id)
    requires IsRun(run) && i < |run.states|
    requires x in run.states[i].wired && x !in run.states[i].ledger.owner
    requires y in run.states[i].wired && y !in run.states[i].ledger.owner
    ensures x == y && run.states[i].pending == Some(x)
  {
    InRun(run, i);
  }

  /** A request has an owner exactly when it left the queue, and at most one
      notification has fired for it. */
  lemma AtMostOneNotification(run: Run, i: nat, j: nat)
    requires IsRun(run) && i < |run.states| && j < |run.states[i].queue.log.pushed|
    ensures var s := run.states[i]; var r := s.queue.log.pushed[j];
            && (r in s.ledger.owner <==> j < s.queue.log.taken)
            && s.ledger.notes[r] == if r in s.ledger.owner && Told(s.ledger.owner[r]) then 1 else 0
  {
    InRun(run, i);
  }

  lemma PathInRun(run: Run, i: nat, r: Id)
    requires IsRun(run) && 0 < i < |run.states|
    ensures Path(run.states[i - 1], run.states[i], r)
  {
    InRun(run, i - 1);
    match run.steps[i - 1]
    case Pumps(p) => PathOnPump(run.states[i - 1], p, run.states[i], r);
    case World(w) => PathOnWorld(run.states[i - 1], w, run.states[i], r);
  }

  /** Whoever took a request is never replaced. */
  lemma {:induction false} SingleWinner(run: Run, i: nat, j: nat, r: Id)
    requires IsRun(run) && i <= j < |run.states| && r in run.states[i].ledger.owner
    ensures r in run.states[j].ledger.owner
    ensures ByResponse(run.states[i].ledger.owner[r]) == ByResponse(run.states[j].ledger.owner[r])
    ensures Told(run.states[i].ledger.owner[r]) ==> run.states[j].ledger.owner[r] == run.states[i].ledger.owner[r]
  {
    if i < j {
      SingleWinner(run, i, j - 1, r);
      PathInRun(run, j, r);
    }
  }

  predicate ByResponse(o: Owner) { o.ReaderHas? || o.ReaderFreed? || o.Answered? }

  lemma {:induction false} Ascends(q: Queue, wired: set<Id>, i: nat, j: nat)
    requires FifoOk(q, wired) && i < j < |q.log.wire|
    ensures q.log.wire[i] < q.log.wire[j]
  {
    if i < j - 1 { Ascends(q, wired, i, j - 1); }
  }

  /** The written requests are a repetition-free subsequence of the pushed ones. */
  lemma WrittenInPushOrder(run: Run, n: nat, i: nat, j: nat)
    requires IsRun(run) && n < |run.states| && i < j < |run.states[n].queue.log.wire|
    ensures var q := run.states[n].queue;
            q.log.wire[i] < q.log.wire[j] < |q.log.pushed| && q.log.wire[j] <= q.log.taken && q.log.pushed[q.log.wire[i]] != q.log.pushed[q.log.wire[j]]
  {
    InRun(run, n);
    Ascends(run.states[n].queue, run.states[n].wired, i, j);
  }

  /** A queue with work, nothing pending and no pause: the ready flag is up or
      about to be raised, a Resume is under way, or the pump is ready and has a
      token, a sender about to post one, or is itself on the way to its guard. */
  lemma NoLostWakeUp(run: Run, i: nat)
    requires IsRun(run) && i < |run.states|
    requires var s := run.states[i]; s.running && !s.paused && s.pending.None? && Front(s.queue).Some?
    ensures var s := run.states[i];
            || Signalled(s.pump, s.sig.ready, s.ledger.owner)
            || s.sig.checking > 0 || s.sig.signalling > 0
            || (s.rdy && (WillLook(s.pump) || s.sig.token || exists r :: SenderDue(s.senders, r)))
  {
    InRun(run, i);
  }

  /** While the dispatcher runs, what is pending is queued, or its completer clears the slot next. */
  lemma PendingNeverOrphaned(run: Run, i: nat)
    requires IsRun(run) && i < |run.states| && run.states[i].running && run.states[i].pending.Some?
    ensures var s := run.states[i];
            && s.pending.value in s.queue.log.pushed
            && (s.pending.value in s.ledger.owner ==>
                  s.ledger.owner[s.pending.value].ReaderHas? || (s.pump.CompDelete? && s.pump.r == s.pending.value))
  {
    InRun(run, i);
  }

  /** When Stop returns, every accepted request went to one response handler or
      one fired cancel. */
  lemma StopAccounts(run: Run, i: nat, r: Id)
    requires IsRun(run) && i < |run.states| && run.states[i].stop.Returned? && r in run.states[i].accepted
    ensures var s := run.states[i];
            && r in s.ledger.owner && s.pending.None?
            && (ByResponse(s.ledger.owner[r]) || s.ledger.owner[r].Cancelled?)
  {
    InRun(run, i);
    assert !Holds(run.states[i].pump, r) && !Owes(run.states[i].pump, r);
  }
}
