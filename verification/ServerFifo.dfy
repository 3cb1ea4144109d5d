/**
 Delivery order of one client session, kept by every ordered run: the requests
 written to the network are a repetition-free subsequence of the push order.
 */
module ServerFifo {
  import opened Basics
  import opened QueueStore
  import opened ServerStack
  import opened ServerTrace
  import opened ServerOwnership
  import opened ServerPhase
  import opened ServerSection

  /** Written positions ascend and never pass the front of the queue. */
  predicate WiresOk(it: Queue, wired: set<Req>) {
    && (forall j :: 0 <= j < |it.log.wire| ==>
          it.log.wire[j] <= it.log.taken && it.log.wire[j] < |it.log.pushed| && it.log.pushed[it.log.wire[j]] in wired)
    && (forall j :: 0 < j < |it.log.wire| ==> it.log.wire[j - 1] < it.log.wire[j])
  }

  predicate FifoOk(st: Store, wired: set<Req>) { forall q :: q in st.queues ==> WiresOk(st.queues[q], wired) }

  ghost predicate FifoInv(s: State) { FifoOk(s.store, s.wired) }

  lemma FifoPush(st: Store, wired: set<Req>, q: QRef, r: Req)
    requires FifoOk(st, wired)
    ensures FifoOk(Push(st, q, r), wired)
  {
  }

  lemma FifoPop(st: Store, wired: set<Req>, q: QRef)
    requires FifoOk(st, wired)
    ensures FifoOk(Pop(st, q), wired)
  {
  }

  lemma FifoDrain(st: Store, wired: set<Req>, q: QRef)
    requires FifoOk(st, wired) && StoreOk(st)
    ensures FifoOk(Drain(st, q), wired)
  {
    if q in st.queues { assert QueueOk(st, q); }
  }

  /** Writing the head of the queue for the first time extends the ascent. */
  lemma FifoWrote(st: Store, wired: set<Req>, q: QRef, r: Req)
    requires FifoOk(st, wired) && StoreOk(st) && q in st.queues && Front(st, q) == Some(r) && r !in wired
    ensures FifoOk(Wrote(st, q, r), wired + {r})
  {
    assert QueueOk(st, q);
    var it, it' := st.queues[q], Wrote(st, q, r).queues[q];
    assert it'.log.wire == it.log.wire + [it.log.taken];
    forall x | x in st.queues && x != q ensures WiresOk(st.queues[x], wired + {r}) {}
    assert WiresOk(it', wired + {r});
  }

  lemma FifoOnComplete(s: State, s': State)
    requires FifoInv(s) && PumpCompletes(s, s')
    ensures FifoInv(s')
  {
    if s.pump.CompPop? { FifoPop(s.store, s.wired, s.pump.q); }
  }

  lemma FifoOnWrite(s: State, ok: bool, ctx: Option<Ctx>, s': State)
    requires StoreInv(s) && SecOk(s.pump, Sees(s)) && FifoInv(s) && WriteMove(s, ok, ctx, s')
    ensures FifoInv(s')
  {
    if ok { FifoWrote(s.store, s.wired, s.pump.q, s.pump.r); }
  }

  lemma FifoOnDrain(s: State, s': State)
    requires FifoInv(s) && PumpDrains(s, s')
    ensures FifoInv(s')
  {
  }

  lemma FifoOnPump(s: State, p: PumpStep, s': State)
    requires StoreInv(s) && SecOk(s.pump, Sees(s)) && FifoInv(s) && PumpNext(s, p, s')
    ensures FifoInv(s')
  {
    match p
    case Complete => FifoOnComplete(s, s');
    case Write(ok, ctx) => FifoOnWrite(s, ok, ctx, s');
    case DrainOn => FifoOnDrain(s, s');
    case Takes(c) => FifoDrain(s.store, s.wired, s.pump.todo[c]);
    case _ =>
  }

  lemma FifoOnSend(s: State, r: Req, s': State)
    requires FifoInv(s) && SendMove(s, r, s')
    ensures FifoInv(s')
  {
    if s.senders[r].pc.SPush? { FifoPush(s.store, s.wired, s.senders[r].pc.q, r); }
  }

  lemma FifoOnReader(s: State, d: Reader, s': State)
    requires FifoInv(s) && ReaderMove(s, d, s')
    ensures FifoInv(s')
  {
    if d.CompStep? && s.completers[d.t].q.Some? { FifoPop(s.store, s.wired, s.completers[d.t].q.value); }
  }

  lemma FifoOnPeer(s: State, p: Peer, s': State)
    requires FifoInv(s) && PeerMove(s, p, s')
    ensures FifoInv(s')
  {
  }

  lemma FifoOnWorld(s: State, w: WorldStep, s': State)
    requires FifoInv(s) && WorldNext(s, w, s')
    ensures FifoInv(s')
  {
    match w
    case SendStep(r) => FifoOnSend(s, r, s');
    case ReaderStep(d) => FifoOnReader(s, d, s');
    case PeerStep(p) => FifoOnPeer(s, p, s');
    case _ =>
  }

  function Written(it: Queue): (ws: seq<Req>)
    requires forall j :: 0 <= j < |it.log.wire| ==> it.log.wire[j] < |it.log.pushed|
    ensures |ws| == |it.log.wire|
    ensures forall j :: 0 <= j < |ws| ==> ws[j] == it.log.pushed[it.log.wire[j]]
  {
    seq(|it.log.wire|, j requires 0 <= j < |it.log.wire| => it.log.pushed[it.log.wire[j]])
  }

  lemma {:induction false} Ascends(it: Queue, wired: set<Req>, i: nat, j: nat)
    requires WiresOk(it, wired) && i < j < |it.log.wire|
    ensures it.log.wire[i] < it.log.wire[j]
  {
    if i < j - 1 { Ascends(it, wired, i, j - 1); }
  }

  /** The positions written ascend, so the written requests are a subsequence
      of the pushed ones, and no request is written twice. */
  lemma WrittenInPushOrder(s: State, q: QRef)
    requires StoreInv(s) && FifoInv(s) && q in s.store.queues
    ensures var it := s.store.queues[q];
            && (forall i, j :: 0 <= i < j < |it.log.wire| ==> it.log.wire[i] < it.log.wire[j] < |it.log.pushed|)
            && (forall j :: 0 <= j < |it.log.wire| ==> it.log.wire[j] <= it.log.taken)
            && Distinct(Written(it))
  {
    var it := s.store.queues[q];
    assert QueueOk(s.store, q);
    forall i, j | 0 <= i < j < |it.log.wire|
      ensures it.log.wire[i] < it.log.wire[j] < |it.log.pushed| && Written(it)[i] != Written(it)[j]
    {
      Ascends(it, s.wired, i, j);
    }
  }

  // ---- over runs ----

  ghost predicate InOrderInv(s: State) { ExclusiveInv(s) && FifoInv(s) }

  lemma InOrderStep(s: State, l: Step, s': State)
    requires InOrderInv(s) && Next(s, l, s') && OrderedStep(s, l)
    ensures InOrderInv(s')
  {
    ExclusiveStep(s, l, s');
    match l
    case Pumps(p) => FifoOnPump(s, p, s');
    case World(w) => FifoOnWorld(s, w, s');
  }

  /** Holds in every state of every ordered run. */
  lemma {:induction false} InOrderRun(run: Run, i: nat)
    requires IsOrderedRun(run) && i < |run.states|
    ensures InOrderInv(run.states[i])
  {
    if i > 0 {
      InOrderRun(run, i - 1);
      InOrderStep(run.states[i - 1], run.steps[i - 1], run.states[i]);
    }
  }

  /** What was written for one session is a repetition-free subsequence of what was pushed. */
  lemma FifoInRun(run: Run, i: nat, q: QRef)
    requires IsOrderedRun(run) && i < |run.states| && q in run.states[i].store.queues
    ensures var it := run.states[i].store.queues[q];
            && (forall m, n :: 0 <= m < n < |it.log.wire| ==> it.log.wire[m] < it.log.wire[n] < |it.log.pushed|)
            && (forall n :: 0 <= n < |it.log.wire| ==> it.log.wire[n] <= it.log.taken && it.log.wire[n] < |it.log.pushed|)
            && Distinct(Written(it))
  {
    InOrderRun(run, i);
    WrittenInPushOrder(run.states[i], q);
  }
}
