/**
 The generator's intermediate representation, and the graph its `$ref`s make:
 names, the references one definition carries, and walks along them.
 */
module SchemaGraph {
  import opened Basics

  datatype Kind = ObjectKind | EnumKind | RootKind

  /** `keywords` stands for every schema keyword that is compared and copied
      but never interpreted here; "" is an absent keyword. */
  datatype Property = Property(
    name: string, pointer: string, typ: string, format: string, required: bool, ref: string,
    enumDefinition: string, keywords: string, items: Option<Property>)

  datatype Definition = Definition(
    name: string, kind: Kind, properties: seq<Property>, values: seq<string>,
    additionalProperties: Option<bool>, reserved: bool, files: seq<string>, occurrences: nat)

  datatype Document = Document(root: Definition, definitions: seq<Definition>)

  const PREFIX := "#/definitions/"

  /** The definition a reference names. */
  function Target(ref: string): string { if PREFIX <= ref then ref[|PREFIX|..] else ref }

  /** One reference: the name it leads to and the pointer of the property carrying it. */
  datatype Hop = Hop(name: string, pointer: string)

  /** References one property carries, following array items to any depth. */
  function PropertyHops(p: Property, pointer: string): seq<Hop> {
    var own := if p.ref != "" then [Hop(Target(p.ref), pointer)] else [];
    match p.items
    case None => own
    case Some(items) => own + PropertyHops(items, if items.pointer == "" then pointer + "/items" else items.pointer)
  }

  function HopsOf(properties: seq<Property>, prefix: string): seq<Hop> {
    if properties == [] then []
    else
      var p := properties[0];
      PropertyHops(p, if p.pointer == "" then prefix + "/" + p.name else p.pointer) + HopsOf(properties[1..], prefix)
  }

  function ReferencedHops(d: Definition): seq<Hop> {
    HopsOf(d.properties, if d.kind == RootKind then "#/properties" else PREFIX + d.name + "/properties")
  }

  /** Names a property refers to, itself or through its items. */
  function PropertyTargets(p: Property): set<string> {
    (if p.ref != "" then {Target(p.ref)} else {}) + (if p.items.Some? then PropertyTargets(p.items.value) else {})
  }

  function Targets(properties: seq<Property>): set<string> {
    if properties == [] then {} else PropertyTargets(properties[0]) + Targets(properties[1..])
  }

  function HopNames(hops: seq<Hop>): set<string> { set i | 0 <= i < |hops| :: hops[i].name }

  lemma HopNamesSplit(a: seq<Hop>, b: seq<Hop>)
    ensures HopNames(a + b) == HopNames(a) + HopNames(b)
  {
    forall n | n in HopNames(a) + HopNames(b) ensures n in HopNames(a + b) {
      if n in HopNames(a) {
        var i :| 0 <= i < |a| && a[i].name == n;
        assert (a + b)[i].name == n;
      } else {
        var i :| 0 <= i < |b| && b[i].name == n;
        assert (a + b)[|a| + i].name == n;
      }
    }
  }

  lemma {:induction false} PropertyHopsNames(p: Property, pointer: string)
    ensures HopNames(PropertyHops(p, pointer)) == PropertyTargets(p)
  {
    var own := if p.ref != "" then [Hop(Target(p.ref), pointer)] else [];
    assert HopNames(own) == if p.ref != "" then {Target(p.ref)} else {} by {
      if p.ref != "" { assert own[0].name in HopNames(own); }
    }
    if p.items.Some? {
      var at := if p.items.value.pointer == "" then pointer + "/items" else p.items.value.pointer;
      PropertyHopsNames(p.items.value, at);
      HopNamesSplit(own, PropertyHops(p.items.value, at));
    }
  }

  /** The hops of the cycle search and the names of the reach search are the same references. */
  lemma {:induction false} HopsNames(properties: seq<Property>, prefix: string)
    ensures HopNames(HopsOf(properties, prefix)) == Targets(properties)
  {
    if properties != [] {
      var p := properties[0];
      var at := if p.pointer == "" then prefix + "/" + p.name else p.pointer;
      PropertyHopsNames(p, at);
      HopsNames(properties[1..], prefix);
      HopNamesSplit(PropertyHops(p, at), HopsOf(properties[1..], prefix));
    }
  }

  lemma {:induction false} TargetsMember(properties: seq<Property>, n: string)
    ensures n in Targets(properties) <==> exists i :: 0 <= i < |properties| && n in PropertyTargets(properties[i])
  {
    if properties != [] {
      TargetsMember(properties[1..], n);
      if i :| 0 <= i < |properties| && n in PropertyTargets(properties[i]) {
        if i > 0 { assert properties[1..][i - 1] == properties[i]; }
      }
    }
  }

  // ---- walks ----

  /** `a` is defined and refers to `b`. */
  predicate Edge(byName: map<string, Definition>, a: string, b: string) {
    a in byName && b in Targets(byName[a].properties)
  }

  /** A sequence of names joined by references. */
  predicate IsWalk(byName: map<string, Definition>, w: seq<string>) {
    w != [] && forall i :: 0 < i < |w| ==> Edge(byName, w[i - 1], w[i])
  }

  predicate IsClosedWalk(byName: map<string, Definition>, w: seq<string>) {
    |w| > 1 && IsWalk(byName, w) && w[0] == w[|w| - 1]
  }

  ghost predicate Acyclic(byName: map<string, Definition>) { forall w :: !IsClosedWalk(byName, w) }

  /** `n` is reached from one of `roots` by a walk. */
  ghost predicate Reaches(byName: map<string, Definition>, roots: set<string>, n: string) {
    exists w :: IsWalk(byName, w) && w[0] in roots && w[|w| - 1] == n
  }
}
