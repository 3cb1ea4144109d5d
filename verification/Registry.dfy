/**
 The websocket server's connection registry within one Start: the connections
 map, the per-id transition gate and the stopped flag, every critical section
 of connMutex one step, over any interleaving of new sockets, evictions and
 disconnects.
 */
module Registry {
  import opened Basics

  type Id = nat
  datatype Socket = Socket(id: Id, n: nat)

  /** Where the goroutine working for a socket is. */
  datatype Phase =
    | Arriving               // inside registerNewConnection, before the lock
    | Evicting(victim: Socket)  // gate held, waiting for the old socket's teardownDone
    | Reaped                 // gate held, the old socket is torn down
    | Installed              // gate held, registered in place of the old socket
    | Turned                 // gate held, rejected after the eviction
    | Rejected
    | Live                   // registered, pumps running
    | Leaving                // gate held, removed from the map by its own disconnect
    | Stale                  // gate held, was no longer current: suppressed
    | Superseded             // gate held, a newer socket was registered: suppressed
    | Firing                 // gate held, disconnected handler running
    | Fired                  // gate held, disconnected handler returned
    | Left                   // gate released, teardownDone still open
    | Gone                   // teardownDone closed

  datatype State = State(
    connections: map<Id, Socket>,
    gate: map<Id, nat>,
    stopped: bool,
    phase: map<Socket, Phase>,
    fired: multiset<Socket>)   // disconnect events

  function Init(): State { State(map[], map[], false, map[], multiset{}) }

  datatype Step =
    | Arrive(s: Socket) | Register(s: Socket, keepNew: bool) | Reap(s: Socket) | TimeOut(s: Socket) | Install(s: Socket)
    | Release(s: Socket) | Disconnect(s: Socket) | Recheck(s: Socket) | Return(s: Socket) | CloseDone(s: Socket) | StopAll

  function GateOf(gate: map<Id, nat>, id: Id): nat { if id in gate then gate[id] else 0 }

  function Raised(gate: map<Id, nat>, id: Id): map<Id, nat> { gate[id := GateOf(gate, id) + 1] }

  /** decrementGate: the entry goes away with its last holder. */
  function Lowered(gate: map<Id, nat>, id: Id): map<Id, nat> {
    if GateOf(gate, id) <= 1 then gate - {id} else gate[id := gate[id] - 1]
  }

  predicate To(r: State, s: Socket, p: Phase, r': State) { r'.phase == r.phase[s := p] }

  predicate Same(r: State, r': State) { r'.connections == r.connections && r'.gate == r.gate && r'.fired == r.fired }

  predicate Registers(r: State, s: Socket, keepNew: bool, r': State) {
    && r' == r.(connections := r'.connections, gate := r'.gate, phase := r'.phase)
    && Lookup(r.phase, s) == Some(Arriving)
    && if r.stopped || GateOf(r.gate, s.id) > 0 then Same(r, r') && To(r, s, Rejected, r')
       else if s.id !in r.connections then
         r'.connections == r.connections[s.id := s] && r'.gate == r.gate && To(r, s, Live, r')
       else if !keepNew then Same(r, r') && To(r, s, Rejected, r')
       else r'.connections == r.connections && r'.gate == Raised(r.gate, s.id) && To(r, s, Evicting(r.connections[s.id]), r')
  }

  predicate Installs(r: State, s: Socket, r': State) {
    && r' == r.(connections := r'.connections, phase := r'.phase)
    && Lookup(r.phase, s) == Some(Reaped)
    && if r.stopped || s.id in r.connections then r'.connections == r.connections && To(r, s, Turned, r')
       else r'.connections == r.connections[s.id := s] && To(r, s, Installed, r')
  }

  predicate Releases(r: State, s: Socket, r': State) {
    && r' == r.(gate := r'.gate, phase := r'.phase)
    && s in r.phase && r'.gate == Lowered(r.gate, s.id)
    && match r.phase[s]
       case Installed => To(r, s, Live, r')
       case Turned => To(r, s, Rejected, r')
       case Stale => To(r, s, Left, r')
       case Superseded => To(r, s, Left, r')
       case Fired => To(r, s, Left, r')
       case _ => false
  }

  /** handleDisconnect: gate up, and the socket removes itself if it is current. */
  predicate Disconnects(r: State, s: Socket, r': State) {
    && r' == r.(connections := r'.connections, gate := r'.gate, phase := r'.phase)
    && Lookup(r.phase, s) == Some(Live) && r'.gate == Raised(r.gate, s.id)
    && if Lookup(r.connections, s.id) == Some(s) then r'.connections == r.connections - {s.id} && To(r, s, Leaving, r')
       else r'.connections == r.connections && To(r, s, Stale, r')
  }

  predicate Rechecks(r: State, s: Socket, r': State) {
    && r' == r.(phase := r'.phase, fired := r'.fired)
    && Lookup(r.phase, s) == Some(Leaving)
    && if s.id in r.connections then r'.fired == r.fired && To(r, s, Superseded, r')
       else r'.fired == r.fired + multiset{s} && To(r, s, Firing, r')
  }

  predicate Moves(r: State, s: Socket, r': State, from: Phase, to: Phase) {
    r' == r.(phase := r.phase[s := to]) && Lookup(r.phase, s) == Some(from)
  }

  predicate Next(r: State, l: Step, r': State) {
    match l
    case Arrive(s) => s !in r.phase && r' == r.(phase := r.phase[s := Arriving])
    case Register(s, keepNew) => Registers(r, s, keepNew, r')
    case Reap(s) =>
      && s in r.phase && r.phase[s].Evicting? && Lookup(r.phase, r.phase[s].victim) == Some(Gone)
      && r' == r.(phase := r.phase[s := Reaped])
    case TimeOut(s) => s in r.phase && r.phase[s].Evicting? && r' == r.(phase := r.phase[s := Turned])
    case Install(s) => Installs(r, s, r')
    case Release(s) => Releases(r, s, r')
    case Disconnect(s) => Disconnects(r, s, r')
    case Recheck(s) => Rechecks(r, s, r')
    case Return(s) => Moves(r, s, r', Firing, Fired)
    case CloseDone(s) => Moves(r, s, r', Left, Gone)
    case StopAll => r' == r.(stopped := true)
  }

  // ---- invariants ----

  predicate Registered(p: Phase) { p.Live? || p.Installed? }

  /** Registered, or inside its disconnect processing. */
  predicate Occupies(p: Phase) { Registered(p) || p.Leaving? || p.Firing? || p.Fired? }

  /** The goroutine has raised the gate and not lowered it yet. */
  predicate HoldsGate(p: Phase) {
    p.Evicting? || p.Reaped? || p.Installed? || p.Turned? || p.Leaving? || p.Stale? || p.Superseded? || p.Firing? || p.Fired?
  }

  /** An eviction that may still end in a registration. */
  predicate Evicts(p: Phase) { p.Evicting? || p.Reaped? || p.Installed? }

  ghost predicate MutualExclusion(phase: map<Socket, Phase>) {
    forall a, b :: a in phase && b in phase && a.id == b.id && Occupies(phase[a]) && Occupies(phase[b]) ==> a == b
  }

  ghost predicate OneEviction(phase: map<Socket, Phase>) {
    forall a, b :: a in phase && b in phase && a.id == b.id && Evicts(phase[a]) && Evicts(phase[b]) ==> a == b
  }

  /** While an eviction is under way only the evicted socket can occupy the id. */
  ghost predicate EvictedOnly(phase: map<Socket, Phase>) {
    forall a, b :: a in phase && b in phase && a.id == b.id && Occupies(phase[b]) ==>
      && (phase[a].Evicting? ==> b == phase[a].victim)
      && !phase[a].Reaped?
  }

  ghost predicate ConnectionsOk(connections: map<Id, Socket>, phase: map<Socket, Phase>) {
    && (forall id :: id in connections ==> connections[id].id == id && connections[id] in phase && Registered(phase[connections[id]]))
    && (forall s :: s in phase && Registered(phase[s]) ==> Lookup(connections, s.id) == Some(s))
  }

  predicate NeverSuppressed(phase: map<Socket, Phase>) {
    forall s :: s in phase ==> !phase[s].Stale? && !phase[s].Superseded?
  }

  function Holders(phase: map<Socket, Phase>, id: Id): set<Socket> {
    set s | s in phase && s.id == id && HoldsGate(phase[s])
  }

  /** The gate counts the transitions in progress. */
  ghost predicate GateOk(gate: map<Id, nat>, phase: map<Socket, Phase>) {
    forall id :: GateOf(gate, id) == |Holders(phase, id)|
  }

  predicate HasFired(p: Phase) { p.Firing? || p.Fired? || p.Left? || p.Gone? }

  ghost predicate FiredOk(fired: multiset<Socket>, phase: map<Socket, Phase>) {
    forall s :: fired[s] == if s in phase && HasFired(phase[s]) then 1 else 0
  }

  ghost predicate Inv(r: State) {
    && MutualExclusion(r.phase) && OneEviction(r.phase) && EvictedOnly(r.phase)
    && ConnectionsOk(r.connections, r.phase) && NeverSuppressed(r.phase)
    && GateOk(r.gate, r.phase) && FiredOk(r.fired, r.phase)
  }

  lemma HoldersKeep(phase: map<Socket, Phase>, s: Socket, p: Phase, id: Id)
    requires (s in phase && HoldsGate(phase[s])) == HoldsGate(p)
    ensures Holders(phase[s := p], id) == Holders(phase, id)
  {
  }

  lemma HoldersJoin(phase: map<Socket, Phase>, s: Socket, p: Phase, id: Id)
    requires s in phase && !HoldsGate(phase[s]) && HoldsGate(p)
    ensures |Holders(phase[s := p], id)| == |Holders(phase, id)| + (if id == s.id then 1 else 0)
  {
    if id == s.id { assert Holders(phase[s := p], id) == Holders(phase, id) + {s}; }
    else { assert Holders(phase[s := p], id) == Holders(phase, id); }
  }

  lemma HoldersLeave(phase: map<Socket, Phase>, s: Socket, p: Phase, id: Id)
    requires s in phase && HoldsGate(phase[s]) && !HoldsGate(p)
    ensures |Holders(phase[s := p], id)| == |Holders(phase, id)| - (if id == s.id then 1 else 0)
    ensures |Holders(phase, s.id)| > 0
  {
    assert s in Holders(phase, s.id);
    if id == s.id { assert Holders(phase[s := p], id) == Holders(phase, id) - {s}; }
    else { assert Holders(phase[s := p], id) == Holders(phase, id); }
  }

  lemma GateStays(gate: map<Id, nat>, phase: map<Socket, Phase>, s: Socket, p: Phase)
    requires GateOk(gate, phase) && (s in phase && HoldsGate(phase[s])) == HoldsGate(p)
    ensures GateOk(gate, phase[s := p])
  {
    forall id ensures Holders(phase[s := p], id) == Holders(phase, id) { HoldersKeep(phase, s, p, id); }
  }

  lemma GateUp(gate: map<Id, nat>, phase: map<Socket, Phase>, s: Socket, p: Phase)
    requires GateOk(gate, phase) && s in phase && !HoldsGate(phase[s]) && HoldsGate(p)
    ensures GateOk(Raised(gate, s.id), phase[s := p])
  {
    forall id ensures GateOf(Raised(gate, s.id), id) == |Holders(phase[s := p], id)| { HoldersJoin(phase, s, p, id); }
  }

  lemma GateDown(gate: map<Id, nat>, phase: map<Socket, Phase>, s: Socket, p: Phase)
    requires GateOk(gate, phase) && s in phase && HoldsGate(phase[s]) && !HoldsGate(p)
    ensures GateOk(Lowered(gate, s.id), phase[s := p])
  {
    forall id ensures GateOf(Lowered(gate, s.id), id) == |Holders(phase[s := p], id)| { HoldersLeave(phase, s, p, id); }
  }

  // ---- one socket changes phase: one clause at a time ----

  ghost predicate Unoccupied(phase: map<Socket, Phase>, id: Id) {
    forall t :: t in phase && t.id == id ==> !Occupies(phase[t])
  }

  ghost predicate NoEviction(phase: map<Socket, Phase>, id: Id) {
    forall t :: t in phase && t.id == id ==> !Evicts(phase[t])
  }

  lemma ExclusionKeeps(phase: map<Socket, Phase>, s: Socket, p: Phase)
    requires MutualExclusion(phase)
    requires Occupies(p) ==> (s in phase && Occupies(phase[s])) || Unoccupied(phase, s.id)
    ensures MutualExclusion(phase[s := p])
  {
  }

  lemma OneEvictionKeeps(phase: map<Socket, Phase>, s: Socket, p: Phase)
    requires OneEviction(phase)
    requires Evicts(p) ==> (s in phase && Evicts(phase[s])) || NoEviction(phase, s.id)
    ensures OneEviction(phase[s := p])
  {
  }

  lemma EvictedKeeps(phase: map<Socket, Phase>, s: Socket, p: Phase)
    requires EvictedOnly(phase)
    requires Occupies(p) ==> (s in phase && Occupies(phase[s])) ||
                             forall t :: t in phase && t.id == s.id && t != s ==> !phase[t].Evicting? && !phase[t].Reaped?
    requires p.Evicting? ==> !Occupies(p) && forall t :: t in phase && t.id == s.id && Occupies(phase[t]) ==> t == p.victim
    requires p.Reaped? ==> forall t :: t in phase && t.id == s.id && t != s ==> !Occupies(phase[t])
    ensures EvictedOnly(phase[s := p])
  {
  }

  lemma ConnectionsKeep(connections: map<Id, Socket>, phase: map<Socket, Phase>, s: Socket, p: Phase)
    requires ConnectionsOk(connections, phase) && (s in phase && Registered(phase[s])) == Registered(p)
    ensures ConnectionsOk(connections, phase[s := p])
  {
  }

  lemma ConnectionsAdd(connections: map<Id, Socket>, phase: map<Socket, Phase>, s: Socket, p: Phase)
    requires ConnectionsOk(connections, phase) && s.id !in connections && Registered(p)
    ensures ConnectionsOk(connections[s.id := s], phase[s := p])
  {
  }

  lemma ConnectionsDrop(connections: map<Id, Socket>, phase: map<Socket, Phase>, s: Socket, p: Phase)
    requires ConnectionsOk(connections, phase) && Lookup(connections, s.id) == Some(s) && !Registered(p)
    ensures ConnectionsOk(connections - {s.id}, phase[s := p])
  {
  }

  lemma FiredKeeps(fired: multiset<Socket>, phase: map<Socket, Phase>, s: Socket, p: Phase)
    requires FiredOk(fired, phase) && HasFired(p) == (s in phase && HasFired(phase[s]))
    ensures FiredOk(fired, phase[s := p])
  {
  }

  lemma FiredOnce(fired: multiset<Socket>, phase: map<Socket, Phase>, s: Socket, p: Phase)
    requires FiredOk(fired, phase) && HasFired(p) && !(s in phase && HasFired(phase[s]))
    ensures FiredOk(fired + multiset{s}, phase[s := p])
  {
  }

  /** A lowered gate means no transition is in progress for the id. */
  lemma GateFree(r: State, id: Id)
    requires GateOk(r.gate, r.phase) && GateOf(r.gate, id) == 0
    ensures forall t :: t in r.phase && t.id == id ==> !HoldsGate(r.phase[t])
    ensures NoEviction(r.phase, id)
  {
    assert Holders(r.phase, id) == {};
    forall t | t in r.phase && t.id == id ensures !HoldsGate(r.phase[t]) { assert t !in Holders(r.phase, id); }
  }

  // ---- the steps ----

  /** A phase change that moves nobody in or out of the map. */
  lemma InvOnMove(r: State, s: Socket, p: Phase)
    requires Inv(r) && (s in r.phase && HoldsGate(r.phase[s])) == HoldsGate(p)
    requires (s in r.phase && Registered(r.phase[s])) == Registered(p) && !p.Stale? && !p.Superseded?
    requires Occupies(p) ==> s in r.phase && Occupies(r.phase[s])
    requires Evicts(p) ==> s in r.phase && Evicts(r.phase[s])
    requires !p.Evicting?
    requires p.Reaped? ==> r.phase[s].Evicting? && Lookup(r.phase, r.phase[s].victim) == Some(Gone)
    requires HasFired(p) == (s in r.phase && HasFired(r.phase[s]))
    ensures Inv(r.(phase := r.phase[s := p]))
  {
    ExclusionKeeps(r.phase, s, p);
    OneEvictionKeeps(r.phase, s, p);
    EvictedKeeps(r.phase, s, p);
    ConnectionsKeep(r.connections, r.phase, s, p);
    GateStays(r.gate, r.phase, s, p);
    FiredKeeps(r.fired, r.phase, s, p);
  }

  lemma InvOnAccept(r: State, s: Socket)
    requires Inv(r) && Lookup(r.phase, s) == Some(Arriving) && GateOf(r.gate, s.id) == 0 && s.id !in r.connections
    ensures Inv(r.(connections := r.connections[s.id := s], phase := r.phase[s := Live]))
  {
    GateFree(r, s.id);
    ExclusionKeeps(r.phase, s, Live);
    OneEvictionKeeps(r.phase, s, Live);
    EvictedKeeps(r.phase, s, Live);
    ConnectionsAdd(r.connections, r.phase, s, Live);
    GateStays(r.gate, r.phase, s, Live);
    FiredKeeps(r.fired, r.phase, s, Live);
  }

  lemma InvOnEvict(r: State, s: Socket)
    requires Inv(r) && Lookup(r.phase, s) == Some(Arriving) && GateOf(r.gate, s.id) == 0 && s.id in r.connections
    ensures Inv(r.(gate := Raised(r.gate, s.id), phase := r.phase[s := Evicting(r.connections[s.id])]))
  {
    var p := Evicting(r.connections[s.id]);
    GateFree(r, s.id);
    ExclusionKeeps(r.phase, s, p);
    OneEvictionKeeps(r.phase, s, p);
    EvictedKeeps(r.phase, s, p);
    ConnectionsKeep(r.connections, r.phase, s, p);
    GateUp(r.gate, r.phase, s, p);
    FiredKeeps(r.fired, r.phase, s, p);
  }

  lemma InvOnRegister(r: State, s: Socket, keepNew: bool, r': State)
    requires Inv(r) && Registers(r, s, keepNew, r')
    ensures Inv(r')
  {
    if r'.phase[s].Live? { InvOnAccept(r, s); }
    else if r'.phase[s].Evicting? { InvOnEvict(r, s); }
    else { InvOnMove(r, s, Rejected); }
  }

  lemma NoneRegistered(r: State, s: Socket)
    requires ConnectionsOk(r.connections, r.phase) && EvictedOnly(r.phase) && Lookup(r.phase, s) == Some(Reaped)
    ensures s.id !in r.connections && Unoccupied(r.phase, s.id)
  {
    if s.id in r.connections { assert Occupies(r.phase[r.connections[s.id]]); }
  }

  lemma InvOnSeat(r: State, s: Socket)
    requires Inv(r) && Lookup(r.phase, s) == Some(Reaped) && s.id !in r.connections && Unoccupied(r.phase, s.id)
    ensures Inv(r.(connections := r.connections[s.id := s], phase := r.phase[s := Installed]))
  {
    ExclusionKeeps(r.phase, s, Installed);
    OneEvictionKeeps(r.phase, s, Installed);
    OnlyEviction(r.phase, s);
    EvictedKeeps(r.phase, s, Installed);
    ConnectionsAdd(r.connections, r.phase, s, Installed);
    GateStays(r.gate, r.phase, s, Installed);
    FiredKeeps(r.fired, r.phase, s, Installed);
  }

  lemma OnlyEviction(phase: map<Socket, Phase>, s: Socket)
    requires OneEviction(phase) && Lookup(phase, s) == Some(Reaped)
    ensures forall t :: t in phase && t.id == s.id && t != s ==> !phase[t].Evicting? && !phase[t].Reaped?
  {
  }

  /** After the eviction nobody is registered: the replacement is installed. */
  lemma InvOnInstall(r: State, s: Socket, r': State)
    requires Inv(r) && Installs(r, s, r')
    ensures Inv(r') && s.id !in r.connections
  {
    NoneRegistered(r, s);
    if r.stopped { InvOnMove(r, s, Turned); } else { InvOnSeat(r, s); }
  }

  lemma InvOnLower(r: State, s: Socket, p: Phase)
    requires Inv(r) && s in r.phase && HoldsGate(r.phase[s]) && !HoldsGate(p) && !Evicts(p)
    requires Registered(r.phase[s]) == Registered(p) && HasFired(r.phase[s]) == HasFired(p) && (Occupies(p) ==> Occupies(r.phase[s]))
    ensures Inv(r.(gate := Lowered(r.gate, s.id), phase := r.phase[s := p]))
  {
    ExclusionKeeps(r.phase, s, p);
    OneEvictionKeeps(r.phase, s, p);
    EvictedKeeps(r.phase, s, p);
    ConnectionsKeep(r.connections, r.phase, s, p);
    GateDown(r.gate, r.phase, s, p);
    FiredKeeps(r.fired, r.phase, s, p);
  }

  lemma InvOnRelease(r: State, s: Socket, r': State)
    requires Inv(r) && Releases(r, s, r')
    ensures Inv(r')
  {
    match r.phase[s]
    case Installed => InvOnLower(r, s, Live);
    case Turned => InvOnLower(r, s, Rejected);
    case Fired => InvOnLower(r, s, Left);
  }

  /** A live socket is the current one: its disconnect is never taken for stale. */
  lemma InvOnDisconnect(r: State, s: Socket, r': State)
    requires Inv(r) && Disconnects(r, s, r')
    ensures Inv(r') && r'.phase[s] == Leaving
  {
    ExclusionKeeps(r.phase, s, Leaving);
    OneEvictionKeeps(r.phase, s, Leaving);
    EvictedKeeps(r.phase, s, Leaving);
    ConnectionsDrop(r.connections, r.phase, s, Leaving);
    GateUp(r.gate, r.phase, s, Leaving);
    FiredKeeps(r.fired, r.phase, s, Leaving);
  }

  /** Nobody registers before the leaving socket has fired its disconnect. */
  lemma InvOnRecheck(r: State, s: Socket, r': State)
    requires Inv(r) && Rechecks(r, s, r')
    ensures Inv(r') && r'.phase[s] == Firing
  {
    assert s.id in r.connections ==> Occupies(r.phase[r.connections[s.id]]);
    ExclusionKeeps(r.phase, s, Firing);
    OneEvictionKeeps(r.phase, s, Firing);
    EvictedKeeps(r.phase, s, Firing);
    ConnectionsKeep(r.connections, r.phase, s, Firing);
    GateStays(r.gate, r.phase, s, Firing);
    FiredOnce(r.fired, r.phase, s, Firing);
  }

  lemma InvOnWait(r: State, l: Step, r': State)
    requires Inv(r) && Next(r, l, r') && (l.Reap? || l.TimeOut?)
    ensures Inv(r')
  {
    InvOnMove(r, l.s, if l.Reap? then Reaped else Turned);
  }

  lemma InvOnEnd(r: State, l: Step, r': State)
    requires Inv(r) && Next(r, l, r') && (l.Return? || l.CloseDone?)
    ensures Inv(r')
  {
    InvOnMove(r, l.s, if l.Return? then Fired else Gone);
  }

  lemma InvStep(r: State, l: Step, r': State)
    requires Inv(r) && Next(r, l, r')
    ensures Inv(r')
  {
    match l
    case Register(s, keepNew) => InvOnRegister(r, s, keepNew, r');
    case Install(s) => InvOnInstall(r, s, r');
    case Release(s) => InvOnRelease(r, s, r');
    case Disconnect(s) => InvOnDisconnect(r, s, r');
    case Recheck(s) => InvOnRecheck(r, s, r');
    case StopAll =>
    case Arrive(s) => InvOnMove(r, s, Arriving);
    case Reap(_) => InvOnWait(r, l, r');
    case TimeOut(_) => InvOnWait(r, l, r');
    case Return(_) => InvOnEnd(r, l, r');
    case CloseDone(_) => InvOnEnd(r, l, r');
  }

  lemma {:induction false} InvInRun(states: seq<State>, steps: seq<Step>, n: nat)
    requires IsChain(states, steps, Next) && states[0] == Init() && n < |states|
    ensures Inv(states[n])
  {
    if n > 0 {
      InvInRun(states, steps, n - 1);
      InvStep(states[n - 1], steps[n - 1], states[n]);
    }
  }

  // ---- the results, over every run ----

  /** At most one socket per id is registered or inside its disconnect
      processing, and the gate is the number of transitions in progress. */
  lemma RegistryIsExclusive(states: seq<State>, steps: seq<Step>, n: nat, a: Socket, b: Socket)
    requires IsChain(states, steps, Next) && states[0] == Init() && n < |states|
    ensures var r := states[n];
            && (a in r.phase && b in r.phase && a.id == b.id && Occupies(r.phase[a]) && Occupies(r.phase[b]) ==> a == b)
            && GateOf(r.gate, a.id) == |Holders(r.phase, a.id)|
            && (a in r.phase && Registered(r.phase[a]) <==> Lookup(r.connections, a.id) == Some(a))
  {
    InvInRun(states, steps, n);
  }

  /** A socket that tears down fires one disconnect: neither suppression branch is taken. */
  lemma OneDisconnectEach(states: seq<State>, steps: seq<Step>, n: nat, s: Socket)
    requires IsChain(states, steps, Next) && states[0] == Init() && n < |states|
    ensures var r := states[n];
            && (s in r.phase ==> !r.phase[s].Stale? && !r.phase[s].Superseded?)
            && r.fired[s] == (if s in r.phase && HasFired(r.phase[s]) then 1 else 0)
  {
    InvInRun(states, steps, n);
  }
}
