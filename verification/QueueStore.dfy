/**
 The heap of FIFO queue objects behind the server's queue map. Queues stay in
 the heap after the map dropped them: a goroutine may still hold a reference.
 */
module QueueStore {
  import opened Basics
  import Fifo

  type Client = nat
  type QRef = nat
  datatype Req = Req(client: Client, id: nat)

  datatype Queue = Queue(client: Client, log: Fifo.Log<Req>)

  datatype Loc = Loc(q: QRef, i: nat)

  datatype Store = Store(
    capacity: nat,                // per queue, 0 = unbounded
    queues: map<QRef, Queue>,     // every queue object ever created
    live: map<Client, QRef>,      // FIFOQueueMap.data
    home: map<Req, Loc>,          // where each request was pushed
    removed: set<QRef>)           // queues a disconnect took out of the map

  function At(st: Store, q: QRef): Queue {
    if q in st.queues then st.queues[q] else Queue(0, Fifo.Fresh())
  }

  function Contents(st: Store, q: QRef): seq<Req> {
    Fifo.Contents(At(st, q).log)
  }

  function Front(st: Store, q: QRef): Option<Req> {
    Fifo.Front(At(st, q).log)
  }

  predicate Full(st: Store, q: QRef) {
    Fifo.Full(At(st, q).log, st.capacity)
  }

  function Push(st: Store, q: QRef, r: Req): Store {
    var it := At(st, q);
    st.(queues := st.queues[q := it.(log := Fifo.Push(it.log, r))], home := st.home[r := Loc(q, |it.log.pushed|)])
  }

  function Pop(st: Store, q: QRef): Store {
    var it := At(st, q);
    st.(queues := st.queues[q := it.(log := Fifo.Pop(it.log))])
  }

  function Drain(st: Store, q: QRef): Store {
    var it := At(st, q);
    st.(queues := st.queues[q := it.(log := Fifo.Drain(it.log))])
  }

  function Wrote(st: Store, q: QRef, r: Req): Store {
    var it := At(st, q);
    st.(queues := st.queues[q := if r in st.home then it.(log := Fifo.Wrote(it.log, st.home[r].i)) else it])
  }

  function GetOrCreate(st: Store, c: Client, q: QRef): Store {
    if c in st.live then st else st.(queues := st.queues[q := Queue(c, Fifo.Fresh())], live := st.live[c := q])
  }

  function Remove(st: Store, c: Client): Store {
    if c in st.live then st.(live := st.live - {c}, removed := st.removed + {st.live[c]}) else st
  }

  /** FIFOQueueMap.DrainAll: the map is emptied in one step. */
  function Detach(st: Store): Store { st.(live := map[]) }

  // ---- consistency of the heap ----

  predicate RefOk(st: Store, q: QRef, c: Client) { q in st.queues && st.queues[q].client == c }

  ghost predicate QueueOk(st: Store, q: QRef)
    requires q in st.queues
  {
    var it := st.queues[q];
    && it.log.taken <= |it.log.pushed|
    && forall i :: 0 <= i < |it.log.pushed| ==>
         it.log.pushed[i].client == it.client && Lookup(st.home, it.log.pushed[i]) == Some(Loc(q, i))
  }

  predicate HomeOk(st: Store, r: Req)
    requires r in st.home
  {
    var Loc(q, i) := st.home[r];
    q in st.queues && i < |st.queues[q].log.pushed| && st.queues[q].log.pushed[i] == r
  }

  ghost predicate StoreOk(st: Store) {
    && (forall q :: q in st.queues ==> QueueOk(st, q))
    && (forall r :: r in st.home ==> HomeOk(st, r))
    && (forall c :: c in st.live ==> RefOk(st, st.live[c], c))
  }

  /** `r` has left the queue it was pushed to. */
  predicate Taken(st: Store, r: Req) {
    r in st.home && st.home[r].i < At(st, st.home[r].q).log.taken
  }

  /** Queue objects keep their owner and are never destroyed. */
  ghost predicate Grows(a: Store, b: Store) {
    forall q :: q in a.queues ==> q in b.queues && b.queues[q].client == a.queues[q].client
  }

  lemma PushOk(st: Store, q: QRef, r: Req)
    requires StoreOk(st) && r !in st.home && RefOk(st, q, r.client)
    ensures StoreOk(Push(st, q, r)) && Grows(st, Push(st, q, r))
  {
  }

  lemma PushTakes(st: Store, q: QRef, r: Req, x: Req)
    requires StoreOk(st) && r !in st.home && q in st.queues
    ensures Taken(Push(st, q, r), x) <==> Taken(st, x)
  {
  }

  lemma PopOk(st: Store, q: QRef)
    requires StoreOk(st) && Front(st, q).Some?
    ensures StoreOk(Pop(st, q)) && Grows(st, Pop(st, q))
    ensures forall x :: Taken(Pop(st, q), x) <==> Taken(st, x) || Front(st, q) == Some(x)
    ensures !Taken(st, Front(st, q).value)
  {
    var r := Front(st, q).value;
    assert Lookup(st.home, r) == Some(Loc(q, st.queues[q].log.taken));
  }

  lemma DrainStore(st: Store, q: QRef)
    requires StoreOk(st) && q in st.queues
    ensures StoreOk(Drain(st, q)) && Grows(st, Drain(st, q))
  {
  }

  /** What a queue holds is what was pushed to it and not taken. */
  lemma ContentsOk(st: Store, q: QRef, x: Req)
    requires StoreOk(st) && q in st.queues
    ensures x in Contents(st, q) <==> x in st.home && st.home[x].q == q && !Taken(st, x)
  {
    var it, xs := st.queues[q], Contents(st, q);
    assert QueueOk(st, q);
    if x in xs {
      var j :| 0 <= j < |xs| && xs[j] == x;
      assert xs[j] == it.log.pushed[it.log.taken + j];
    }
    if x in st.home && st.home[x].q == q && !Taken(st, x) {
      assert HomeOk(st, x) && xs[st.home[x].i - it.log.taken] == x;
    }
  }

  lemma ContentsDistinct(st: Store, q: QRef)
    requires StoreOk(st) && q in st.queues
    ensures Distinct(Contents(st, q))
  {
    var it, xs := st.queues[q], Contents(st, q);
    assert QueueOk(st, q);
    forall i, j | 0 <= i < j < |xs| ensures xs[i] != xs[j] {
      assert xs[i] == it.log.pushed[it.log.taken + i] && xs[j] == it.log.pushed[it.log.taken + j];
    }
  }

  lemma DrainTakes(st: Store, q: QRef, x: Req)
    requires StoreOk(st) && q in st.queues
    ensures Taken(Drain(st, q), x) <==> Taken(st, x) || x in Contents(st, q)
  {
    ContentsOk(st, q, x);
    if x in st.home { assert HomeOk(st, x); }
  }

  lemma DrainOk(st: Store, q: QRef)
    requires StoreOk(st) && q in st.queues
    ensures StoreOk(Drain(st, q)) && Grows(st, Drain(st, q)) && Distinct(Contents(st, q))
    ensures forall x :: Taken(Drain(st, q), x) <==> Taken(st, x) || x in Contents(st, q)
    ensures forall x :: x in Contents(st, q) ==> x in st.home && !Taken(st, x)
  {
    DrainStore(st, q);
    ContentsDistinct(st, q);
    forall x ensures Taken(Drain(st, q), x) <==> Taken(st, x) || x in Contents(st, q) { DrainTakes(st, q, x); }
    forall x | x in Contents(st, q) ensures x in st.home && !Taken(st, x) { ContentsOk(st, q, x); }
  }

  lemma CreateOk(st: Store, c: Client, q: QRef)
    requires StoreOk(st) && q !in st.queues
    ensures StoreOk(GetOrCreate(st, c, q)) && Grows(st, GetOrCreate(st, c, q))
    ensures forall x :: Taken(GetOrCreate(st, c, q), x) <==> Taken(st, x)
  {
  }

  lemma RemoveOk(st: Store, c: Client)
    requires StoreOk(st)
    ensures StoreOk(Remove(st, c)) && Grows(st, Remove(st, c))
    ensures StoreOk(Detach(st)) && Grows(st, Detach(st))
  {
  }

  lemma WroteOk(st: Store, q: QRef, r: Req)
    requires StoreOk(st) && q in st.queues
    ensures StoreOk(Wrote(st, q, r)) && Grows(st, Wrote(st, q, r))
    ensures forall x :: Taken(Wrote(st, q, r), x) <==> Taken(st, x)
  {
  }
}
