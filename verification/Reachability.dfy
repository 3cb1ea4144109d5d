/**
 computeReach: the names a message's two roots reach by one or more
 references, as a sorted list without duplicates, cycles included.
 */
module Reachability {
  import opened Basics
  import opened Names
  import opened SchemaGraph
  import opened CycleDetection

  /** Everything a finished name refers to has been reached. */
  ghost predicate ClosedOn(lookup: map<string, Definition>, reached: set<string>, names: set<string>) {
    forall n :: n in names && n in lookup ==> Targets(lookup[n].properties) <= reached
  }

  /** A closed set with the first name of a walk has its last. */
  lemma {:induction false} WalkStays(lookup: map<string, Definition>, reached: set<string>, w: seq<string>, k: nat)
    requires ClosedOn(lookup, reached, reached) && IsWalk(lookup, w) && w[0] in reached && k < |w|
    ensures w[k] in reached
  {
    if k > 0 {
      WalkStays(lookup, reached, w, k - 1);
      assert Edge(lookup, w[k - 1], w[k]);
    }
  }

  lemma ReachesRoot(lookup: map<string, Definition>, roots: set<string>, n: string)
    requires n in roots
    ensures Reaches(lookup, roots, n)
  {
    assert IsWalk(lookup, [n]) && [n][0] in roots && [n][|[n]| - 1] == n;
  }

  lemma ReachesOn(lookup: map<string, Definition>, roots: set<string>, a: string, b: string)
    requires Reaches(lookup, roots, a) && Edge(lookup, a, b)
    ensures Reaches(lookup, roots, b)
  {
    var w :| IsWalk(lookup, w) && w[0] in roots && w[|w| - 1] == a;
    var v := w + [b];
    assert IsWalk(lookup, v) && v[0] in roots && v[|v| - 1] == b;
  }

  class ReachSearch {
    const lookup: map<string, Definition>
    ghost const roots: set<string>
    ghost const universe: set<string>
    var reached: set<string>

    ghost predicate Valid() reads this {
      && reached <= universe && roots <= universe
      && (forall a, b :: Edge(lookup, a, b) ==> b in universe)
      && forall n :: n in reached ==> Reaches(lookup, roots, n)
    }

    constructor (lookup: map<string, Definition>, ghost roots: set<string>)
      ensures Valid() && this.lookup == lookup && this.roots == roots && reached == {}
    {
      this.lookup, this.roots, this.universe := lookup, roots, Universe(lookup) + roots;
      reached := {};
    }

    /** Follows one property's reference, then its items. Names reached on the
        way are finished before it returns. */
    method VisitProperty(p: Property)
      requires Valid() && forall n :: n in PropertyTargets(p) ==> n in universe && Reaches(lookup, roots, n)
      modifies this
      ensures Valid() && old(reached) <= reached && PropertyTargets(p) <= reached
      ensures ClosedOn(lookup, reached, reached - old(reached))
      decreases universe - reached, 0, p
    {
      if p.ref != "" {
        var name := Target(p.ref);
        if name !in reached {
          assert name in universe - reached;
          reached := reached + {name};
          if name in lookup {
            forall n | n in Targets(lookup[name].properties) ensures n in universe && Reaches(lookup, roots, n) {
              assert Edge(lookup, name, n);
              ReachesOn(lookup, roots, name, n);
            }
            Visit(lookup[name].properties);
          }
        }
      }
      ghost var between := reached;
      if p.items.Some? {
        VisitProperty(p.items.value);
        assert ClosedOn(lookup, reached, reached - between);
      }
    }

    method Visit(properties: seq<Property>)
      requires Valid() && forall n :: n in Targets(properties) ==> n in universe && Reaches(lookup, roots, n)
      modifies this
      ensures Valid() && old(reached) <= reached && Targets(properties) <= reached
      ensures ClosedOn(lookup, reached, reached - old(reached))
      decreases universe - reached, 1
    {
      var i := 0;
      while i < |properties|
        invariant 0 <= i <= |properties| && Valid() && old(reached) <= reached
        invariant forall k :: 0 <= k < i ==> PropertyTargets(properties[k]) <= reached
        invariant ClosedOn(lookup, reached, reached - old(reached))
      {
        forall n | n in PropertyTargets(properties[i]) ensures n in Targets(properties) { TargetsMember(properties, n); }
        VisitProperty(properties[i]);
        i := i + 1;
      }
      forall n | n in Targets(properties) ensures n in reached { TargetsMember(properties, n); }
    }
  }

  /** Definitions of both files; the response's copy of a name wins. */
  function Definitions(request: Document, response: Document): map<string, Definition> {
    ByName(request.definitions + response.definitions)
  }

  function RootTargets(request: Document, response: Document): set<string> {
    Targets(request.root.properties) + Targets(response.root.properties)
  }

  /** The result lists exactly the names a walk from the roots reaches. */
  method ComputeReach(request: Document, response: Document) returns (reach: seq<string>)
    ensures Ascending(reach)
    ensures forall n :: n in reach <==> Reaches(Definitions(request, response), RootTargets(request, response), n)
  {
    var lookup := Definitions(request, response);
    ghost var roots := RootTargets(request, response);
    var search := new ReachSearch(lookup, roots);
    forall n | n in roots ensures Reaches(lookup, roots, n) { ReachesRoot(lookup, roots, n); }
    search.Visit(request.root.properties);
    search.Visit(response.root.properties);
    forall n ensures n in search.reached <==> Reaches(lookup, roots, n) {
      if Reaches(lookup, roots, n) {
        var w :| IsWalk(lookup, w) && w[0] in roots && w[|w| - 1] == n;
        WalkStays(lookup, search.reached, w, |w| - 1);
      }
    }
    reach := Sorted(search.reached);
  }
}
