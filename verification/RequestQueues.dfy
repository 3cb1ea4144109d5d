/**
 The lock-protected objects the dispatchers share, each operation as one locked
 method: the FIFO request queue and the map of queues. The queue refines the
 value functions of `Fifo`, the map and the queue objects it ever handed out
 refine the heap of `QueueStore`, which is what the step systems work on.
 */
module RequestQueues {
  import opened Basics
  import Fifo
  import QueueStore

  type Client = QueueStore.Client
  type QRef = QueueStore.QRef
  type Req = QueueStore.Req

  /** A slice-backed FIFO queue. */
  class FifoQueue<T> {
    const capacity: nat          // 0 = unbounded
    var elements: seq<T>
    ghost var log: Fifo.Log<T>

    /** What is queued is the untaken rest of what was pushed. */
    ghost predicate Valid() reads this {
      && log.taken <= |log.pushed| && elements == Fifo.Contents(log)
      && (capacity > 0 ==> |elements| <= capacity)
    }

    constructor (capacity: nat)
      ensures Valid() && this.capacity == capacity && log == Fifo.Fresh()
    {
      this.capacity, elements, log := capacity, [], Fifo.Fresh();
    }

    method Push(x: T) returns (ok: bool)
      requires Valid()
      modifies this
      ensures Valid() && ok == !Fifo.Full(old(log), capacity)
      ensures log == if ok then Fifo.Push(old(log), x) else old(log)
    {
      if |elements| >= capacity && capacity > 0 { return false; }
      elements := elements + [x];
      log := Fifo.Push(log, x);
      return true;
    }

    method Peek() returns (front: Option<T>)
      requires Valid()
      ensures front == Fifo.Front(log)
    {
      if |elements| == 0 { return None; }
      return Some(elements[0]);
    }

    /** Compare-and-pop under one lock: at most one caller takes an element. */
    method PopIf(wanted: T -> bool) returns (front: Option<T>)
      requires Valid()
      modifies this
      ensures Valid()
      ensures front == if Fifo.Front(old(log)).Some? && wanted(Fifo.Front(old(log)).value) then Fifo.Front(old(log)) else None
      ensures log == if front.Some? then Fifo.Pop(old(log)) else old(log)
    {
      if |elements| == 0 { return None; }
      if !wanted(elements[0]) { return None; }
      front := Some(elements[0]);
      elements := elements[1..];
      log := Fifo.Pop(log);
    }

    method Pop() returns (front: Option<T>)
      requires Valid()
      modifies this
      ensures Valid() && front == Fifo.Front(old(log))
      ensures log == if front.Some? then Fifo.Pop(old(log)) else old(log)
    {
      front := PopIf(_ => true);
    }

    method DrainAll() returns (drained: seq<T>)
      requires Valid()
      modifies this
      ensures Valid() && drained == Fifo.Contents(old(log)) && log == Fifo.Drain(old(log))
    {
      drained := elements;
      elements := [];
      log := Fifo.Drain(log);
    }

    method IsEmpty() returns (empty: bool)
      requires Valid()
      ensures empty <==> Fifo.Front(log).None?
    {
      return |elements| == 0;
    }

    method IsFull() returns (full: bool)
      requires Valid()
      ensures full <==> Fifo.Full(log, capacity)
    {
      return |elements| >= capacity && capacity > 0;
    }
  }

  /** The same pushes and takes; what was written is not the queue's business. */
  ghost predicate SameQueue(a: Fifo.Log<Req>, b: Fifo.Log<Req>) { a.pushed == b.pushed && a.taken == b.taken }

  type Objects = map<QRef, FifoQueue<Req>>

  /** The object known as `q` holds what queue `q` of the heap holds. */
  ghost predicate Holds(x: FifoQueue<Req>, it: QueueStore.Queue, capacity: nat)
    reads x
  {
    x.Valid() && x.capacity == capacity && SameQueue(x.log, it.log)
  }

  /** The objects are the queues of the heap `st`, one object each. */
  ghost predicate AreQueues(objects: Objects, st: QueueStore.Store)
    reads objects.Values
  {
    && (forall q :: q in st.queues ==> q in objects)
    && (forall q :: q in objects ==> q in st.queues && Holds(objects[q], st.queues[q], st.capacity))
    && (forall a, b :: a in objects && b in objects && a != b ==> objects[a] != objects[b])
  }

  /** The entries are the objects behind the live references of `st`. */
  ghost predicate MapsTo(data: map<Client, FifoQueue<Req>>, objects: Objects, st: QueueStore.Store) {
    && (forall c :: c in st.live ==> c in data)
    && forall c :: c in data ==> c in st.live && st.live[c] in objects && data[c] == objects[st.live[c]]
  }

  lemma NewEntry(data: map<Client, FifoQueue<Req>>, objects: Objects, st: QueueStore.Store, c: Client, q: QRef, x: FifoQueue<Req>)
    requires MapsTo(data, objects, st) && q !in objects && c !in st.live
    ensures MapsTo(data[c := x], objects[q := x], QueueStore.GetOrCreate(st, c, q))
  {
  }

  lemma NoEntry(data: map<Client, FifoQueue<Req>>, objects: Objects, st: QueueStore.Store, c: Client)
    requires MapsTo(data, objects, st)
    ensures MapsTo(data - {c}, objects, QueueStore.Remove(st, c))
  {
  }

  /** A new object for a client without a queue. */
  lemma NewObject(objects: Objects, st: QueueStore.Store, c: Client, q: QRef, x: FifoQueue<Req>)
    requires AreQueues(objects, st) && q !in st.queues && c !in st.live && (forall y :: y in objects ==> objects[y] != x)
    requires x.Valid() && x.capacity == st.capacity && x.log == Fifo.Fresh()
    ensures AreQueues(objects[q := x], QueueStore.GetOrCreate(st, c, q))
  {
  }

  /** Dropping entries leaves the objects alone. */
  lemma SameObjects(objects: Objects, st: QueueStore.Store, st': QueueStore.Store)
    requires AreQueues(objects, st) && st'.queues == st.queues && st'.capacity == st.capacity
    ensures AreQueues(objects, st')
  {
  }

  /** One queue object per client. `objects` are all queues it ever made, by the
      reference the step systems know them under. */
  class FifoQueueMap {
    const queueCapacity: nat
    var data: map<Client, FifoQueue<Req>>
    ghost var objects: Objects

    ghost predicate Maps(st: QueueStore.Store)
      reads this
    {
      st.capacity == queueCapacity && MapsTo(data, objects, st)
    }

    constructor (queueCapacity: nat)
      ensures var st := QueueStore.Store(queueCapacity, map[], map[], map[], {}); Maps(st) && AreQueues(objects, st)
    {
      this.queueCapacity, data, objects := queueCapacity, map[], map[];
    }

    /** A client is found exactly while the map knows it, and what is found is
        the object behind its reference. */
    method Get(c: Client, ghost st: QueueStore.Store) returns (q: Option<FifoQueue<Req>>)
      requires Maps(st)
      ensures q.Some? <==> c in st.live
      ensures q.Some? ==> st.live[c] in objects && q.value == objects[st.live[c]]
    {
      if c in data { return Some(data[c]); }
      return None;
    }

    /** A client keeps the queue object it has; only a client without one gets
        a new, empty object. No other object changes. */
    method GetOrCreate(c: Client, ghost st: QueueStore.Store, ghost q: QRef) returns (found: FifoQueue<Req>)
      requires Maps(st) && AreQueues(objects, st) && q !in st.queues
      modifies this
      ensures var st' := QueueStore.GetOrCreate(st, c, q);
              Maps(st') && AreQueues(objects, st') && st'.live[c] in objects && found == objects[st'.live[c]]
      ensures forall x :: x in old(objects) ==> x in objects && objects[x] == old(objects[x])
      ensures c !in st.live ==> fresh(found)
    {
      if c in data { return data[c]; }
      found := Create(c, st, q);
    }

    method Create(c: Client, ghost st: QueueStore.Store, ghost q: QRef) returns (found: FifoQueue<Req>)
      requires Maps(st) && AreQueues(objects, st) && q !in st.queues && c !in st.live
      modifies this
      ensures Maps(QueueStore.GetOrCreate(st, c, q)) && AreQueues(objects, QueueStore.GetOrCreate(st, c, q))
      ensures objects == old(objects)[q := found] && fresh(found)
    {
      found := new FifoQueue(queueCapacity);
      NewObject(objects, st, c, q, found);
      NewEntry(data, objects, st, c, q, found);
      data := data[c := found];
      objects := objects[q := found];
    }

    /** The client is unknown from here on. Its queue object lives on, with
        everything it holds, for whoever fetched it before. */
    method Remove(c: Client, ghost st: QueueStore.Store)
      requires Maps(st) && AreQueues(objects, st)
      modifies this
      ensures Maps(QueueStore.Remove(st, c)) && objects == old(objects) && AreQueues(objects, QueueStore.Remove(st, c))
    {
      SameObjects(objects, st, QueueStore.Remove(st, c));
      NoEntry(data, objects, st, c);
      data := data - {c};
    }

    /** The whole map is detached in one step; every object lives on untouched. */
    method DrainAll(ghost st: QueueStore.Store) returns (detached: map<Client, FifoQueue<Req>>)
      requires Maps(st) && AreQueues(objects, st)
      modifies this
      ensures Maps(QueueStore.Detach(st)) && objects == old(objects) && AreQueues(objects, QueueStore.Detach(st))
      ensures detached.Keys == st.live.Keys
      ensures forall c :: c in detached ==> c in st.live && st.live[c] in objects && detached[c] == objects[st.live[c]]
    {
      SameObjects(objects, st, QueueStore.Detach(st));
      detached := data;
      data := map[];
    }
  }

  // ---- operations on an object somebody fetched, still in the map or not ----

  /** SendRequest pushes to the object it found. */
  method PushTo(q: FifoQueue<Req>, r: Req, ghost objects: Objects, ghost st: QueueStore.Store, ghost ref: QRef) returns (ok: bool)
    requires AreQueues(objects, st) && ref in objects && objects[ref] == q
    modifies q
    ensures ok == !QueueStore.Full(st, ref) && AreQueues(objects, if ok then QueueStore.Push(st, ref, r) else st)
  {
    ok := q.Push(r);
  }

  /** completeRequestOwned pops the object it found, if the request is in front. */
  method PopFrom(q: FifoQueue<Req>, r: Req, ghost objects: Objects, ghost st: QueueStore.Store, ghost ref: QRef) returns (won: bool)
    requires AreQueues(objects, st) && ref in objects && objects[ref] == q
    modifies q
    ensures won <==> QueueStore.Front(st, ref) == Some(r)
    ensures AreQueues(objects, if won then QueueStore.Pop(st, ref) else st)
  {
    var front := q.PopIf(x => x == r);
    won := front.Some?;
  }

  /** The stop drain empties a detached object. */
  method DrainFrom(q: FifoQueue<Req>, ghost objects: Objects, ghost st: QueueStore.Store, ghost ref: QRef) returns (drained: seq<Req>)
    requires AreQueues(objects, st) && ref in objects && objects[ref] == q
    modifies q
    ensures drained == QueueStore.Contents(st, ref) && AreQueues(objects, QueueStore.Drain(st, ref))
  {
    drained := q.DrainAll();
  }
}
