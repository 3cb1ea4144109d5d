/**
 The one-slot pending state, per connection and per server. The server's state
 refines the slots of the step system.
 */
module PendingState {
  import opened Basics
  import opened QueueStore
  import ServerStack

  function Added(slot: Option<string>, id: string): (r: Option<string>)
    ensures slot.Some? ==> r == slot
    ensures r.Some? ==> r == slot || r == Some(id)
  {
    if id != "" && slot.None? then Some(id) else slot
  }

  function Deleted(slot: Option<string>, id: string): (r: Option<string>)
    ensures r != Some(id) && (r == slot || r.None?)
  {
    if slot == Some(id) then None else slot
  }

  class ClientState {
    var requestId: string      // "" = nothing pending
    var payload: string

    ghost function Slot(): Option<string> reads this { if requestId == "" then None else Some(requestId) }

    constructor ()
      ensures Slot() == None
    {
      requestId, payload := "", "";
    }

    method AddPendingRequest(id: string, request: string)
      modifies this
      ensures Slot() == Added(old(Slot()), id)
      ensures payload == if old(Slot()).None? && id != "" then request else old(payload)
    {
      if id != "" && requestId == "" { requestId, payload := id, request; }
    }

    /** Asking for the empty id with nothing pending reports a stale request. */
    method GetPendingRequest(id: string) returns (request: Option<string>)
      ensures request.Some? <==> Slot() == Some(id) || (id == "" && Slot().None?)
      ensures request.Some? ==> request.value == payload
    {
      if requestId != id { return None; }
      return Some(payload);
    }

    method DeletePendingRequest(id: string)
      modifies `requestId
      ensures Slot() == if id == "" then old(Slot()) else Deleted(old(Slot()), id)
    {
      if requestId != id { return; }
      requestId := "";
    }

    method ClearPendingRequests()
      modifies `requestId
      ensures Slot() == None
    {
      requestId := "";
    }

    method HasPendingRequest() returns (has: bool)
      ensures has <==> Slot().Some?
    {
      return requestId != "";
    }
  }

  /** The slot of `c` in the step system, with the id spelled out. */
  function SlotOf(pending: map<Client, Req>, c: Client): Option<string> {
    if c in pending then Some(Spell(pending[c].id)) else None
  }

  /** A slot holds a request of its own client. */
  predicate OwnSlots(pending: map<Client, Req>) { forall c :: c in pending ==> pending[c].client == c }

  lemma AddRefines(pending: map<Client, Req>, r: Req, x: Client)
    ensures SlotOf(ServerStack.WithPending(pending, r.client, r), x) ==
            if x == r.client then Added(SlotOf(pending, x), Spell(r.id)) else SlotOf(pending, x)
  {
  }

  lemma DeleteRefines(pending: map<Client, Req>, r: Req, x: Client)
    requires OwnSlots(pending)
    ensures SlotOf(ServerStack.WithoutPending(pending, r), x) ==
            if x == r.client then Deleted(SlotOf(pending, x), Spell(r.id)) else SlotOf(pending, x)
  {
    if r.client in pending && Spell(pending[r.client].id) == Spell(r.id) { assert pending[r.client].id == r.id; }
  }

  class ServerState {
    var states: map<Client, ClientState>

    ghost predicate Valid() reads this {
      forall a, b :: a in states && b in states && a != b ==> states[a] != states[b]
    }

    ghost function Slot(c: Client): Option<string> reads this, states.Values {
      if c in states then states[c].Slot() else None
    }

    /** The object holds the slots `pending` of the step system. */
    ghost predicate Represents(pending: map<Client, Req>)
      reads this, states.Values
    {
      OwnSlots(pending) && forall c: Client :: Slot(c) == SlotOf(pending, c)
    }

    constructor ()
      ensures Valid() && Represents(map[])
    {
      states := map[];
    }

    method AddPendingRequest(c: Client, id: string, request: string)
      requires Valid()
      modifies this, states.Values
      ensures Valid() && Slot(c) == Added(old(Slot(c)), id)
      ensures forall x :: x != c ==> Slot(x) == old(Slot(x))
    {
      var state;
      if c in states {
        state := states[c];
      } else {
        state := new ClientState();
        states := states[c := state];
      }
      state.AddPendingRequest(id, request);
    }

    method DeletePendingRequest(c: Client, id: string)
      requires Valid()
      modifies states.Values
      ensures Valid() && Slot(c) == if id == "" then old(Slot(c)) else Deleted(old(Slot(c)), id)
      ensures forall x :: x != c ==> Slot(x) == old(Slot(x))
    {
      if c !in states { return; }
      states[c].DeletePendingRequest(id);
    }

    method HasPendingRequest(c: Client) returns (has: bool)
      ensures has <==> Slot(c).Some?
    {
      if c !in states { return false; }
      has := states[c].HasPendingRequest();
    }

    method HasPendingRequests() returns (has: bool)
      ensures has <==> exists c :: Slot(c).Some?
    {
      var todo := states.Keys;
      while todo != {}
        invariant todo <= states.Keys
        invariant forall c :: c in states && c !in todo ==> Slot(c).None?
      {
        var c :| c in todo;
        var pending := states[c].HasPendingRequest();
        if pending {
          assert Slot(c).Some?;
          return true;
        }
        todo := todo - {c};
      }
      return false;
    }

    method ClearClientPendingRequest(c: Client)
      requires Valid()
      modifies this
      ensures Valid() && Slot(c) == None
      ensures forall x :: x != c ==> Slot(x) == old(Slot(x))
    {
      states := states - {c};
    }

    method ClearAllPendingRequests()
      modifies this
      ensures Valid() && Represents(map[])
    {
      states := map[];
    }

    // ---- the steps of the dispatcher on this object ----

    /** dispatchNextRequest makes `r` pending: the step `WithPending`. */
    method Pend(r: Req, request: string, ghost pending: map<Client, Req>)
      requires Valid() && Represents(pending)
      modifies this, states.Values
      ensures Valid() && Represents(ServerStack.WithPending(pending, r.client, r))
    {
      AddPendingRequest(r.client, Spell(r.id), request);
      forall x: Client ensures Slot(x) == SlotOf(ServerStack.WithPending(pending, r.client, r), x) { AddRefines(pending, r, x); }
    }

    /** completeRequestOwned clears the slot of `r`: the step `WithoutPending`. */
    method Unpend(r: Req, ghost pending: map<Client, Req>)
      requires Valid() && Represents(pending)
      modifies states.Values
      ensures Valid() && Represents(ServerStack.WithoutPending(pending, r))
    {
      DeletePendingRequest(r.client, Spell(r.id));
      forall x: Client ensures Slot(x) == SlotOf(ServerStack.WithoutPending(pending, r), x) { DeleteRefines(pending, r, x); }
    }

    /** onClientDisconnected clears the client's slot. */
    method UnpendClient(c: Client, ghost pending: map<Client, Req>)
      requires Valid() && Represents(pending)
      modifies this
      ensures Valid() && Represents(pending - {c})
    {
      ClearClientPendingRequest(c);
    }
  }
}
