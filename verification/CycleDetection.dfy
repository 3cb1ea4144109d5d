/**
 DetectCycles: the three-colour depth-first search over one file's
 definitions. It reports nothing exactly when the reference graph is acyclic,
 and what it reports is a closed walk of that graph.
 */
module CycleDetection {
  import opened Basics
  import opened SchemaGraph

  datatype Mark = Visiting | Done

  function Names(trail: seq<Hop>): seq<string> { seq(|trail|, i requires 0 <= i < |trail| => trail[i].name) }

  /** Definitions by name; the last of a name wins. */
  function ByName(definitions: seq<Definition>): map<string, Definition> {
    if definitions == [] then map[]
    else
      var d := definitions[|definitions| - 1];
      ByName(definitions[..|definitions| - 1])[d.name := d]
  }

  lemma {:induction false} ByNameKeys(definitions: seq<Definition>, n: string)
    ensures n in ByName(definitions) <==> exists i :: 0 <= i < |definitions| && definitions[i].name == n
  {
    if definitions != [] {
      var rest := definitions[..|definitions| - 1];
      ByNameKeys(rest, n);
      if i :| 0 <= i < |definitions| && definitions[i].name == n {
        if i < |rest| { assert rest[i].name == n; }
      }
      if i :| 0 <= i < |rest| && rest[i].name == n { assert definitions[i].name == n; }
    }
  }

  /** Every edge out of a finished name leads to a name finished before it. */
  ghost predicate Topological(byName: map<string, Definition>, order: seq<string>) {
    forall i, b :: 0 <= i < |order| && Edge(byName, order[i], b) ==> b in order[..i]
  }

  /** A closed walk cannot descend in a topological order for ever. */
  lemma {:induction false} WalkDescends(byName: map<string, Definition>, order: seq<string>, w: seq<string>, k: nat)
    requires Topological(byName, order) && IsWalk(byName, w) && 0 < k < |w| && w[0] in order
    ensures exists i, j :: 0 <= j < i < |order| && order[i] == w[0] && order[j] == w[k]
  {
    if k == 1 {
      var i :| 0 <= i < |order| && order[i] == w[0];
      assert Edge(byName, order[i], w[1]);
      var j :| 0 <= j < i && order[..i][j] == w[1];
      assert order[j] == w[1];
    } else {
      WalkDescends(byName, order, w, k - 1);
      var i, j :| 0 <= j < i < |order| && order[i] == w[0] && order[j] == w[k - 1];
      assert Edge(byName, order[j], w[k]);
      var m :| 0 <= m < j && order[..j][m] == w[k];
      assert order[m] == w[k];
    }
  }

  lemma TopologicalIsAcyclic(byName: map<string, Definition>, order: seq<string>)
    requires Topological(byName, order) && Distinct(order) && forall n :: n in byName ==> n in order
    ensures Acyclic(byName)
  {
    forall w ensures !IsClosedWalk(byName, w) {
      if IsClosedWalk(byName, w) {
        assert Edge(byName, w[0], w[1]);
        WalkDescends(byName, order, w, |w| - 1);
      }
    }
  }

  lemma DistinctGrows(xs: seq<string>, x: string)
    ensures Distinct(xs + [x]) <==> Distinct(xs) && x !in xs
  {
    if Distinct(xs + [x]) {
      forall i, j | 0 <= i < j < |xs| ensures xs[i] != xs[j] { assert (xs + [x])[i] != (xs + [x])[j]; }
      forall i | 0 <= i < |xs| ensures xs[i] != x { assert (xs + [x])[i] != (xs + [x])[|xs|]; }
    }
  }

  /** The colours agree with the trail and with the finished names. */
  ghost predicate Coloured(state: map<string, Mark>, trail: seq<string>, order: seq<string>) {
    && Distinct(trail) && Distinct(order)
    && (forall n :: Lookup(state, n) == Some(Visiting) <==> n in trail)
    && (forall n :: Lookup(state, n) == Some(Done) <==> n in order)
  }

  lemma EnterColoured(state: map<string, Mark>, trail: seq<string>, order: seq<string>, n: string)
    requires Coloured(state, trail, order) && n !in state
    ensures Coloured(state[n := Visiting], trail + [n], order)
  {
    DistinctGrows(trail, n);
  }

  lemma LeaveColoured(state: map<string, Mark>, trail: seq<string>, order: seq<string>, n: string)
    requires Coloured(state, trail + [n], order)
    ensures Coloured(state[n := Done], trail, order + [n])
  {
    DistinctGrows(trail, n);
    assert n in trail + [n];
    DistinctGrows(order, n);
    assert forall m :: m in trail + [n] <==> m in trail || m == n;
    assert forall m :: m in order + [n] <==> m in order || m == n;
  }

  lemma FinishTopological(byName: map<string, Definition>, order: seq<string>, n: string)
    requires Topological(byName, order) && forall b :: Edge(byName, n, b) ==> b in order
    ensures Topological(byName, order + [n])
  {
    forall i, b | 0 <= i < |order| + 1 && Edge(byName, (order + [n])[i], b) ensures b in (order + [n])[..i] {
      assert (order + [n])[..i] == order[..i];
      assert i == |order| ==> order[..i] == order;
    }
  }

  /** The property `hop` points at belongs to the definition of `a`. */
  predicate Carries(byName: map<string, Definition>, a: string, hop: Hop) {
    a in byName && hop in ReferencedHops(byName[a])
  }

  predicate Linked(byName: map<string, Definition>, trail: seq<Hop>) {
    forall i :: 0 < i < |trail| ==> Carries(byName, trail[i - 1].name, trail[i])
  }

  /** The chain is a closed walk, and each pointer is that of a reference
      from one of its names to the next. */
  predicate IsCycle(byName: map<string, Definition>, chain: seq<string>, pointers: seq<string>) {
    && IsClosedWalk(byName, chain) && |pointers| == |chain| - 1
    && forall i :: 0 <= i < |pointers| ==> Carries(byName, chain[i], Hop(chain[i + 1], pointers[i]))
  }

  lemma EdgesAreHops(byName: map<string, Definition>, n: string)
    requires n in byName
    ensures forall b :: Edge(byName, n, b) <==> b in HopNames(ReferencedHops(byName[n]))
    ensures forall hop :: Carries(byName, n, hop) ==> Edge(byName, n, hop.name)
  {
    var d := byName[n];
    HopsNames(d.properties, if d.kind == RootKind then "#/properties" else PREFIX + d.name + "/properties");
    forall hop | Carries(byName, n, hop) ensures hop.name in HopNames(ReferencedHops(d)) {
      var i :| 0 <= i < |ReferencedHops(d)| && ReferencedHops(d)[i] == hop;
    }
  }

  lemma CarriedChain(byName: map<string, Definition>, chain: seq<string>, pointers: seq<string>)
    requires |chain| > 1 && |pointers| == |chain| - 1 && chain[0] == chain[|chain| - 1]
    requires forall i :: 0 <= i < |pointers| ==> Carries(byName, chain[i], Hop(chain[i + 1], pointers[i]))
    ensures IsCycle(byName, chain, pointers)
  {
    forall i | 0 < i < |chain| ensures Edge(byName, chain[i - 1], chain[i]) {
      assert Carries(byName, chain[i - 1], Hop(chain[i], pointers[i - 1]));
      EdgesAreHops(byName, chain[i - 1]);
    }
  }

  class CycleSearch {
    const byName: map<string, Definition>
    ghost const universe: set<string>    // every name defined or referred to
    var state: map<string, Mark>         // absent = unvisited
    var trail: seq<Hop>
    ghost var order: seq<string>         // finished names, first finished first

    ghost predicate Valid() reads this {
      && state.Keys <= universe
      && (forall a, b :: Edge(byName, a, b) ==> b in universe)
      && Coloured(state, Names(trail), order) && Topological(byName, order)
      && Linked(byName, trail)
    }

    constructor (byName: map<string, Definition>, ghost universe: set<string>)
      requires forall a, b :: Edge(byName, a, b) ==> b in universe
      ensures Valid() && this.byName == byName && this.universe == universe
      ensures state == map[] && trail == [] && order == []
    {
      this.byName, this.universe := byName, universe;
      state, trail, order := map[], [], [];
    }

    /** `hop` may follow the current trail. */
    ghost predicate Follows(hop: Hop) reads this {
      hop.name in universe && (trail != [] ==> Carries(byName, trail[|trail| - 1].name, hop))
    }

    method Enter(hop: Hop)
      requires Valid() && Follows(hop) && hop.name !in state
      modifies this
      ensures Valid() && trail == old(trail) + [hop] && order == old(order) && state == old(state)[hop.name := Visiting]
    {
      EnterColoured(state, Names(trail), order, hop.name);
      state := state[hop.name := Visiting];
      trail := trail + [hop];
      assert Names(trail) == Names(old(trail)) + [hop.name];
    }

    method Leave()
      requires Valid() && trail != []
      requires var n := trail[|trail| - 1].name; forall b :: Edge(byName, n, b) ==> b in order
      modifies this
      ensures Valid() && trail == old(trail)[..|old(trail)| - 1]
      ensures var n := old(trail)[|old(trail)| - 1].name; order == old(order) + [n] && state == old(state)[n := Done]
    {
      var n := trail[|trail| - 1].name;
      assert Names(trail) == Names(trail[..|trail| - 1]) + [n];
      assert n in Names(trail);
      trail := trail[..|trail| - 1];
      LeaveColoured(state, Names(trail), order, n);
      FinishTopological(byName, order, n);
      state := state[n := Done];
      order := order + [n];
    }

    /** The part of the trail from the revisited name on, closed by the hop. */
    method Report(hop: Hop) returns (chain: seq<string>, pointers: seq<string>)
      requires Valid() && Follows(hop) && Lookup(state, hop.name) == Some(Visiting)
      ensures IsCycle(byName, chain, pointers) && chain[0] == hop.name
    {
      var hops := trail;
      assert hop.name in Names(hops);
      var start := 0;
      while hops[start].name != hop.name
        invariant 0 <= start < |hops| && hop.name in Names(hops)[start..]
        decreases |hops| - start
      {
        start := start + 1;
      }
      var loop := hops[start..] + [hop];
      assert Linked(byName, loop);
      chain := Names(loop);
      pointers := seq(|loop| - 1, i requires 0 <= i < |loop| - 1 => loop[i + 1].pointer);
      forall i | 0 <= i < |pointers| ensures Carries(byName, chain[i], Hop(chain[i + 1], pointers[i])) {
        assert Hop(chain[i + 1], pointers[i]) == loop[i + 1];
      }
      CarriedChain(byName, chain, pointers);
    }

    /** Finishes `hop.name` and everything it leads to, or finds a closed walk. */
    method Visit(hop: Hop) returns (chain: seq<string>, pointers: seq<string>)
      requires Valid() && Follows(hop)
      modifies this
      ensures chain != [] ==> IsCycle(byName, chain, pointers)
      ensures chain == [] ==> Valid() && trail == old(trail) && hop.name in order
      ensures chain == [] ==> old(order) <= order && old(state).Keys <= state.Keys
      decreases universe - state.Keys, 1
    {
      chain, pointers := [], [];
      if hop.name in state {
        if state[hop.name] == Visiting { chain, pointers := Report(hop); }
        return;
      }
      Enter(hop);
      assert hop.name in universe - old(state).Keys;
      chain, pointers := VisitAll(hop.name);
      if chain == [] { Leave(); }
    }

    /** Visits everything the definition on top of the trail refers to. */
    method VisitAll(n: string) returns (chain: seq<string>, pointers: seq<string>)
      requires Valid() && trail != [] && trail[|trail| - 1].name == n
      modifies this
      ensures chain != [] ==> IsCycle(byName, chain, pointers)
      ensures chain == [] ==> Valid() && trail == old(trail) && forall b :: Edge(byName, n, b) ==> b in order
      ensures chain == [] ==> old(order) <= order && old(state).Keys <= state.Keys
      decreases universe - state.Keys, 2
    {
      chain, pointers := [], [];
      if n !in byName { return; }
      var hops := ReferencedHops(byName[n]);
      EdgesAreHops(byName, n);
      var i := 0;
      while i < |hops|
        invariant 0 <= i <= |hops| && Valid() && trail == old(trail) && chain == []
        invariant old(order) <= order && old(state).Keys <= state.Keys
        invariant forall k :: 0 <= k < i ==> hops[k].name in order
      {
        assert hops[i].name in HopNames(hops);
        chain, pointers := Visit(hops[i]);
        if chain != [] { return; }
        i := i + 1;
      }
    }
  }

  // ---- the whole search ----

  /** Every name a file defines or refers to. */
  function Universe(byName: map<string, Definition>): set<string> {
    byName.Keys + set n, b | n in byName && b in Targets(byName[n].properties) :: b
  }

  /** Reports no cycle exactly when there is none; what it reports is one. */
  method DetectCycles(definitions: seq<Definition>) returns (chain: seq<string>, pointers: seq<string>)
    ensures chain == [] <==> Acyclic(ByName(definitions))
    ensures chain != [] ==> IsCycle(ByName(definitions), chain, pointers)
  {
    chain, pointers := [], [];
    var byName := ByName(definitions);
    var search := new CycleSearch(byName, Universe(byName));
    var i := 0;
    while i < |definitions|
      invariant 0 <= i <= |definitions| && search.Valid() && search.trail == [] && chain == []
      invariant search.byName == byName && search.universe == Universe(byName)
      invariant forall k :: 0 <= k < i ==> definitions[k].name in search.order
    {
      ByNameKeys(definitions, definitions[i].name);
      if definitions[i].name !in search.state {
        chain, pointers := search.Visit(Hop(definitions[i].name, ""));
        if chain != [] {
          assert !Acyclic(byName);
          return;
        }
      } else {
        assert definitions[i].name !in Names(search.trail);
        assert search.state[definitions[i].name] == Done;
      }
      i := i + 1;
    }
    forall n | n in byName ensures n in search.order { ByNameKeys(definitions, n); }
    TopologicalIsAcyclic(byName, search.order);
  }
}
