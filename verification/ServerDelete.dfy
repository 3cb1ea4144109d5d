/**
 The delete token of a disconnect, in every run: while onClientDisconnected
 waits for the pump, the token it posted is buffered, or in the pump's hands,
 or the pump is draining and about to exit.
 */
module ServerDelete {
  import opened Basics
  import opened QueueStore
  import opened ServerStack
  import opened ServerTrace

  /** A delete token of `c` is buffered. */
  ghost predicate Deleting(reqC: seq<ReqTok>, c: Client) { exists i :: 0 <= i < |reqC| && reqC[i] == ReqTok(c, true) }

  ghost predicate TokenOnWay(reqC: seq<ReqTok>, p: Pump, c: Client) {
    Deleting(reqC, c) || p == ReqGet(c, true) || Draining(p)
  }

  /** While a disconnect waits for the pump of this generation, its token is on the way. */
  ghost predicate DeleteOk(s: State) {
    forall c :: c in s.discs && s.discs[c].DWait? && s.discs[c].gen == s.epoch.gen ==> TokenOnWay(s.reqC, s.pump, c)
  }

  /** Nobody waits for a generation that has not begun. */
  predicate WaitsOk(s: State) { forall c :: c in s.discs && s.discs[c].DWait? ==> s.discs[c].gen <= s.epoch.gen }

  lemma WaitsOnPump(s: State, p: PumpStep, s': State)
    requires WaitsOk(s) && PumpNext(s, p, s')
    ensures WaitsOk(s')
  {
  }

  lemma WaitsOnPeer(s: State, p: Peer, s': State)
    requires WaitsOk(s) && PeerMove(s, p, s')
    ensures WaitsOk(s')
  {
  }

  lemma WaitsOnReader(s: State, d: Reader, s': State)
    requires WaitsOk(s) && ReaderMove(s, d, s')
    ensures WaitsOk(s')
  {
  }

  lemma WaitsOnWorld(s: State, w: WorldStep, s': State)
    requires WaitsOk(s) && WorldNext(s, w, s')
    ensures WaitsOk(s')
  {
    match w
    case PeerStep(p) => WaitsOnPeer(s, p, s');
    case ReaderStep(d) => WaitsOnReader(s, d, s');
    case _ =>
  }

  lemma DeletingGrows(reqC: seq<ReqTok>, tok: ReqTok, c: Client)
    requires Deleting(reqC, c) || tok == ReqTok(c, true)
    ensures Deleting(reqC + [tok], c)
  {
    if tok == ReqTok(c, true) { assert (reqC + [tok])[|reqC|] == tok; }
    if i :| 0 <= i < |reqC| && reqC[i] == ReqTok(c, true) { assert (reqC + [tok])[i] == reqC[i]; }
  }

  /** The first token is the one the pump now holds, or is still not this one. */
  lemma DeletingTaken(reqC: seq<ReqTok>, c: Client)
    requires Deleting(reqC, c)
    ensures reqC[0] == ReqTok(c, true) || Deleting(reqC[1..], c)
  {
    var i :| 0 <= i < |reqC| && reqC[i] == ReqTok(c, true);
    if i > 0 { assert reqC[1..][i - 1] == reqC[i]; }
  }

  lemma DeleteOnArm(s: State, arm: Arm, s': State)
    requires DeleteOk(s) && ArmMove(s, arm, s')
    ensures DeleteOk(s')
  {
    forall c | c in s'.discs && s'.discs[c].DWait? && s'.discs[c].gen == s'.epoch.gen ensures TokenOnWay(s'.reqC, s'.pump, c) {
      if arm.OnReq? && Deleting(s.reqC, c) { DeletingTaken(s.reqC, c); }
    }
  }

  lemma DeleteOnRoute(s: State, s': State)
    requires DeleteOk(s) && PumpRoutes(s, s')
    ensures DeleteOk(s')
  {
  }

  lemma DeleteOnPump(s: State, p: PumpStep, s': State)
    requires DeleteOk(s) && PumpNext(s, p, s')
    ensures DeleteOk(s')
  {
    match p
    case Selects(arm) => DeleteOnArm(s, arm, s');
    case Route => DeleteOnRoute(s, s');
    case _ =>
  }

  lemma TokenStays(reqC: seq<ReqTok>, p: Pump, tok: ReqTok, c: Client)
    requires TokenOnWay(reqC, p, c) || tok == ReqTok(c, true)
    ensures TokenOnWay(reqC + [tok], p, c)
  {
    if Deleting(reqC, c) || tok == ReqTok(c, true) { DeletingGrows(reqC, tok, c); }
  }

  lemma DeleteOnSend(s: State, r: Req, s': State)
    requires DeleteOk(s) && SendMove(s, r, s')
    ensures DeleteOk(s')
  {
    if s.senders[r].pc.SSend? {
      forall c | c in s.discs && s.discs[c].DWait? && s.discs[c].gen == s.epoch.gen { TokenStays(s.reqC, s.pump, ReqTok(r.client, false), c); }
    }
  }

  lemma DeleteOnPeer(s: State, p: Peer, s': State)
    requires DeleteOk(s) && PeerMove(s, p, s')
    ensures DeleteOk(s')
  {
    if p.DiscStep? && s.discs[p.c].DSend? {
      forall c | c in s'.discs && s'.discs[c].DWait? && s'.discs[c].gen == s'.epoch.gen { TokenStays(s.reqC, s.pump, ReqTok(p.c, true), c); }
    }
  }

  lemma DeleteOnReader(s: State, d: Reader, s': State)
    requires DeleteOk(s) && ReaderMove(s, d, s')
    ensures DeleteOk(s')
  {
  }

  lemma DeleteOnStart(s: State, s': State)
    requires WaitsOk(s) && StartMove(s, s')
    ensures DeleteOk(s')
  {
  }

  lemma DeleteOnWorld(s: State, w: WorldStep, s': State)
    requires WaitsOk(s) && DeleteOk(s) && WorldNext(s, w, s')
    ensures DeleteOk(s')
  {
    match w
    case SendStep(r) => DeleteOnSend(s, r, s');
    case PeerStep(p) => DeleteOnPeer(s, p, s');
    case ReaderStep(d) => DeleteOnReader(s, d, s');
    case StartStep => DeleteOnStart(s, s');
    case _ =>
  }

  // ---- over runs ----

  ghost predicate DeletionInv(s: State) { WaitsOk(s) && DeleteOk(s) }

  lemma DeletionStep(s: State, l: Step, s': State)
    requires DeletionInv(s) && Next(s, l, s')
    ensures DeletionInv(s')
  {
    match l
    case Pumps(p) => WaitsOnPump(s, p, s'); DeleteOnPump(s, p, s');
    case World(w) => WaitsOnWorld(s, w, s'); DeleteOnWorld(s, w, s');
  }

  /** Holds in every state of every run. */
  lemma {:induction false} DeletionRun(run: Run, i: nat)
    requires IsRun(run) && i < |run.states|
    ensures DeletionInv(run.states[i])
  {
    if i > 0 {
      DeletionRun(run, i - 1);
      DeletionStep(run.states[i - 1], run.steps[i - 1], run.states[i]);
    }
  }
}
