/**
 The facade's callback registry. TryQueue holds the callbacks mutex from before
 the send until the callback is registered; it is split at the call it makes.
 The registry refines the callbacks of the step system.
 */
module CallbackQueues {
  import opened Basics
  import opened QueueStore
  import ServerStack

  type Callback = nat

  /** What the send inside TryQueue came back with. */
  datatype Sent = SendFailed | SentAs(requestId: string)
  datatype Outcome = Registered | NotSent | EmptyRequestId | Duplicate

  class CallbackQueue {
    var callbacks: map<Client, map<string, Callback>>
    var locked: bool          // callbacksMutex, while a send runs inside TryQueue

    /** No client is kept with an empty inner map. */
    ghost predicate Valid() reads this { forall c :: c in callbacks ==> callbacks[c] != map[] }

    function Find(c: Client, id: string): Option<Callback> reads this {
      if c in callbacks then Lookup(callbacks[c], id) else None
    }

    /** The registry holds what the facade `f` of the step system holds. */
    ghost predicate Represents(f: ServerStack.Facade) reads this {
      && (locked <==> f.mutexBy.Some?)
      && forall r: Req :: r in f.registered <==> Find(r.client, Spell(r.id)).Some?
    }

    constructor ()
      ensures Valid() && !locked && forall c, id :: Find(c, id) == None
    {
      callbacks, locked := map[], false;
    }

    /** TryQueue up to its call of `try`: the mutex is taken for the send of `r`. */
    method BeginTry(ghost f: ServerStack.Facade, ghost r: Req)
      requires Valid() && !locked && Represents(f)
      modifies this
      ensures Valid() && locked && Represents(f.(mutexBy := Some(r)))
    {
      locked := true;
    }

    /** TryQueue from the return of `try`: registers the callback exactly when
        the send succeeded under a fresh, non-empty id; nothing else ever
        changes, and the mutex is released. */
    method EndTry(c: Client, sent: Sent, callback: Callback) returns (outcome: Outcome)
      requires Valid() && locked
      modifies this
      ensures Valid() && !locked
      ensures outcome == match sent
              case SendFailed => NotSent
              case SentAs(id) => if id == "" then EmptyRequestId else if old(Find(c, id)).Some? then Duplicate else Registered
      ensures forall x, id :: Find(x, id) ==
                (if outcome == Registered && x == c && id == sent.requestId then Some(callback) else old(Find(x, id)))
    {
      locked := false;
      if sent.SendFailed? { return NotSent; }
      var id := sent.requestId;
      if id == "" { return EmptyRequestId; }
      var inner := map[];
      if c in callbacks {
        if id in callbacks[c] { return Duplicate; }
        inner := callbacks[c];
      }
      assert id in inner[id := callback];
      callbacks := callbacks[c := inner[id := callback]];
      return Registered;
    }

    /** The send of `r` returned: its callback is registered if it succeeded. */
    method Register(c: Client, sent: Sent, callback: Callback, ghost f: ServerStack.Facade, ghost r: Req)
      requires Valid() && Represents(f) && f.mutexBy == Some(r) && r.client == c && r !in f.registered
      requires sent == SentAs(Spell(r.id)) || sent == SendFailed
      modifies this
      ensures Valid() && Represents(ServerStack.Unlocked(if sent.SentAs? then ServerStack.Registered(f, r) else f, r))
    {
      var outcome := EndTry(c, sent, callback);
      forall x: Req ensures x in (if sent.SentAs? then f.registered + {r} else f.registered) <==> Find(x.client, Spell(x.id)).Some? {
        if Spell(x.id) == Spell(r.id) { assert x.id == r.id; }
      }
    }

    /** Hands a callback out at most once. */
    method Dequeue(c: Client, id: string) returns (cb: Option<Callback>)
      requires Valid() && !locked
      modifies this
      ensures Valid() && !locked && cb == old(Find(c, id))
      ensures forall x, y :: Find(x, y) == if x == c && y == id then None else old(Find(x, y))
    {
      if c !in callbacks { return None; }
      var inner := callbacks[c];
      if id !in inner { return None; }
      cb := Some(inner[id]);
      if inner - {id} == map[] {
        assert forall x :: x in inner && x != id ==> x in (inner - {id}).Keys;
        callbacks := callbacks - {c};
      } else {
        callbacks := callbacks[c := inner - {id}];
      }
    }

    /** The owner of `r` takes its callback: found exactly when it is registered. */
    method Settle(c: Client, id: string, ghost f: ServerStack.Facade, ghost r: Req) returns (cb: Option<Callback>)
      requires Valid() && !locked && Represents(f) && r.client == c && id == Spell(r.id)
      modifies this
      ensures Valid() && (cb.Some? <==> r in f.registered) && Represents(ServerStack.Dequeued(f, r))
    {
      cb := Dequeue(c, id);
      forall x: Req ensures x in ServerStack.Dequeued(f, r).registered <==> Find(x.client, Spell(x.id)).Some? {
        if Spell(x.id) == Spell(r.id) { assert x.id == r.id; }
      }
    }

    /** Every callback of the client, each once, in no particular order. */
    method DrainAll(c: Client) returns (drained: seq<Callback>, ghost keys: seq<string>)
      requires Valid() && !locked
      modifies this
      ensures Valid() && !locked && |keys| == |drained| && Distinct(keys)
      ensures forall i :: 0 <= i < |keys| ==> old(Find(c, keys[i])) == Some(drained[i])
      ensures forall id :: old(Find(c, id)).Some? ==> id in keys
      ensures forall x, id :: Find(x, id) == if x == c then None else old(Find(x, id))
    {
      drained, keys := [], [];
      if c !in callbacks { return; }
      var inner := callbacks[c];
      var todo := inner.Keys;
      while todo != {}
        invariant todo <= inner.Keys && |keys| == |drained| && Distinct(keys)
        invariant forall i :: 0 <= i < |keys| ==> keys[i] in inner && keys[i] !in todo && inner[keys[i]] == drained[i]
        invariant forall id :: id in inner ==> id in todo || id in keys
      {
        var id :| id in todo;
        drained, keys := drained + [inner[id]], keys + [id];
        todo := todo - {id};
      }
      callbacks := callbacks - {c};
    }

    /** onClientDisconnected drains: exactly the client's registered callbacks come out. */
    method DrainClient(c: Client, ghost f: ServerStack.Facade) returns (drained: seq<Callback>, ghost keys: seq<string>)
      requires Valid() && !locked && Represents(f)
      modifies this
      ensures Valid() && Represents(ServerStack.DrainCallbacks(f, c)) && |keys| == |drained| && Distinct(keys)
      ensures forall r: Req :: r.client == c ==> (Spell(r.id) in keys <==> r in f.registered)
    {
      drained, keys := DrainAll(c);
    }
  }
}
