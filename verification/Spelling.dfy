/**
 The Go type a field is given, and the package its name is looked up in: when
 the bare or qualified spelling names the package the type is really found in,
 and the two shapes for which it does not.
 */
module Spelling {
  import opened Basics
  import opened SchemaGraph
  import opened Reachability
  import opened Deduplication
  import opened Placement
  import Names

  /** `pkg` is "" for a bare name. */
  datatype Wrap = Value | Pointer | Slice | SliceOfPointer
  datatype GoType = GoType(wrap: Wrap, pkg: string, name: string)

  const TYPES := "types"

  /** findDefinitionByName: the definition of that name, if there is one. */
  function Find(definitions: seq<Definition>, n: string): (d: Option<Definition>)
    ensures d.Some? ==> d.value in definitions && d.value.name == n
    ensures d.None? ==> forall x :: x in definitions ==> x.name != n
  {
    if definitions == [] then None
    else if definitions[0].name == n then Some(definitions[0])
    else Find(definitions[1..], n)
  }

  /** mapRefType, before placement is known; names are left as the schema has them. */
  function RefType(p: Property, definitions: seq<Definition>): Option<GoType> {
    if p.enumDefinition != "" then Some(GoType(Value, "", p.enumDefinition))
    else
      match Find(definitions, Target(p.ref))
      case None => None
      case Some(d) =>
        if d.reserved then Some(GoType(Pointer, TYPES, "CustomData"))
        else Some(GoType(if p.required then Value else Pointer, "", d.name))
  }

  function Scalar(typ: string): Option<GoType> {
    if typ in {"integer", "number", "boolean", "string"} then Some(GoType(Value, "", typ)) else None
  }

  /** mapArrayElementType under the slice. */
  function ElementType(item: Property, definitions: seq<Definition>): Option<GoType> {
    if item.enumDefinition != "" then Some(GoType(Slice, "", item.enumDefinition))
    else if item.ref != "" then
      match Find(definitions, Target(item.ref))
      case None => None
      case Some(d) => Some(if d.reserved then GoType(Slice, TYPES, "CustomData") else GoType(Slice, "", d.name))
    else if item.format == "date-time" then Some(GoType(SliceOfPointer, TYPES, "DateTime"))
    else if Scalar(item.typ).Some? then Some(Scalar(item.typ).value.(wrap := Slice))
    else None
  }

  /** mapGoType: None is the error path. */
  function MapGoType(p: Property, definitions: seq<Definition>): Option<GoType> {
    if p.typ == "" && p.ref == "" then Some(GoType(Value, "", "any"))
    else if p.format == "date-time" then Some(GoType(Pointer, TYPES, "DateTime"))
    else if p.ref != "" then RefType(p, definitions)
    else if p.typ == "array" then (if p.items.None? then None else ElementType(p.items.value, definitions))
    else Scalar(p.typ)
  }

  /** The definition whose package the field's spelling has to name. */
  function RefName(p: Property): string {
    if p.ref != "" then Target(p.ref)
    else if p.typ == "array" && p.items.Some? && p.items.value.ref != "" then Target(p.items.value.ref)
    else ""
  }

  /** qualifiedFieldMapping: bare inside types, qualified elsewhere when the
      target lives in types. */
  function Qualified(g: GoType, p: Property, home: map<string, Home>, inTypes: bool): GoType {
    if inTypes then (if g.pkg == TYPES then g.(pkg := "") else g)
    else if RefName(p) != "" && Lookup(home, RefName(p)) == Some(TypesHome) then
      g.(pkg := if g.pkg == "" then TYPES else TYPES + "." + g.pkg)
    else g
  }

  /** Where a spelling is looked up from a file of package `here`. */
  function Resolve(g: GoType, here: string): string { if g.pkg == "" then here else g.pkg }

  /** What the reader makes of a property: a reference carries no type, format
      or items, and names the enum it refers to. */
  predicate RefShaped(p: Property, definitions: seq<Definition>) {
    && (p.ref != "" ==> p.typ == "" && p.format == "" && p.items.None?)
    && (p.enumDefinition != "" ==> p.ref != "" && p.enumDefinition == Target(p.ref))
    && (p.ref != "" && Find(definitions, Target(p.ref)).Some? ==>
          (p.enumDefinition != "" <==> Find(definitions, Target(p.ref)).value.kind == EnumKind))
  }

  predicate Shaped(p: Property, definitions: seq<Definition>) {
    RefShaped(p, definitions) && (p.items.Some? ==> RefShaped(p.items.value, definitions))
  }

  /** The field is a date, whatever it refers to. */
  predicate Dated(p: Property) { p.format == "date-time" && (p.typ != "" || p.ref != "") }

  /** The spelling, looked up in package `pkg`, is found: the hand-written date
      lives in types, a definition where it is emitted. */
  ghost predicate FoundIn(messages: seq<Message>, definitions: seq<Definition>, home: map<string, Home>, p: Property, pkg: string) {
    if Dated(p) then pkg == TYPES else EmittedIn(messages, definitions, home, RefName(p), pkg)
  }

  /** The package a definition is emitted into: the shared types package for a
      reserved or types-homed one, its message's block otherwise. */
  ghost predicate EmittedIn(messages: seq<Message>, definitions: seq<Definition>, home: map<string, Home>, n: string, pkg: string) {
    exists e :: e in definitions && e.name == n &&
      if e.reserved || Lookup(home, n) == Some(TypesHome) then pkg == TYPES
      else exists k :: 0 <= k < |messages| && Lookup(home, n) == Some(MessageHome(messages[k].name)) && messages[k].block == pkg
  }

  // ---- the spelling names the real package ----

  lemma RefNameIsTarget(d: Definition, p: Property)
    requires p in d.properties && RefName(p) != ""
    ensures RefName(p) in Targets(d.properties)
  {
    var i :| 0 <= i < |d.properties| && d.properties[i] == p;
    assert RefName(p) in PropertyTargets(p);
    TargetsMember(d.properties, RefName(p));
  }

  lemma NamesUnique(messages: seq<Message>, definitions: seq<Definition>, d: Definition, e: Definition)
    requires CorpusOk(messages, definitions) && d in definitions && e in definitions && d.name == e.name
    ensures d == e
  {
    var i :| 0 <= i < |definitions| && definitions[i] == d;
    var j :| 0 <= j < |definitions| && definitions[j] == e;
    var names := ResultNames(definitions);
    if i < j { Names.AscendingDistinct(names, i, j); }
    if j < i { Names.AscendingDistinct(names, j, i); }
  }

  /** Before placement a reference is bare, except to the reserved definition;
      an enum is spelled bare even when it is reserved. */
  lemma MappedPackage(p: Property, definitions: seq<Definition>, e: Definition)
    requires Shaped(p, definitions) && RefName(p) != "" && MapGoType(p, definitions).Some? && Find(definitions, RefName(p)) == Some(e)
    ensures MapGoType(p, definitions).value.pkg == if Dated(p) || (e.reserved && e.kind != EnumKind) then TYPES else ""
  {
  }

  /** Inside the types package every reference is spelled bare, and its target
      is emitted there: types depends on no block package. */
  lemma TypesSpelling(messages: seq<Message>, definitions: seq<Definition>, home: map<string, Home>, d: Definition, p: Property)
    requires PlacementOk(messages, definitions, home)
    requires d in definitions && Lookup(home, d.name) == Some(TypesHome) && p in d.properties && Shaped(p, definitions)
    requires RefName(p) != "" && MapGoType(p, definitions).Some?
    ensures var g := Qualified(MapGoType(p, definitions).value, p, home, true);
            g.pkg == "" && Resolve(g, TYPES) == TYPES && EmittedIn(messages, definitions, home, RefName(p), TYPES)
  {
    RefNameIsTarget(d, p);
    var e := TypesClosed(messages, definitions, home, d, RefName(p));
    NamesUnique(messages, definitions, e, Find(definitions, RefName(p)).value);
    MappedPackage(p, definitions, e);
  }

  /** `d` is emitted into the file of message `k`. */
  predicate EmittedWith(messages: seq<Message>, home: map<string, Home>, d: Definition, k: nat) {
    && k < |messages|
    && if d.kind == RootKind then d.name == messages[k].request.root.name || d.name == messages[k].response.root.name
       else Lookup(home, d.name) == Some(MessageHome(messages[k].name))
  }

  /** The message whose file holds `d` reaches what `d` refers to. */
  lemma EmitterReaches(messages: seq<Message>, definitions: seq<Definition>, home: map<string, Home>, d: Definition, k: nat, t: string)
    requires PlacementOk(messages, definitions, home) && d in definitions && EmittedWith(messages, home, d, k) && t in Targets(d.properties)
    ensures t in messages[k].reach
  {
    var m := messages[k];
    assert MessageOk(m);
    if d.kind == RootKind {
      var root := if d.name == m.request.root.name then m.request.root else m.response.root;
      InCorpus(messages, k, root);
      MergedIsCopy(messages, definitions, d, root);
      assert root.properties == Core(root).properties && d.properties == Core(d).properties;
      ReachesRoot(LookupOf(m), RootsOf(m), t);
    } else {
      var j := OnlyReacher(messages, d.name, home[d.name]);
      assert j == k;
      assert k in Reaching(messages, d.name);
      ReachGoesOn(messages, definitions, k, d, t);
    }
  }

  /** The shapes whose spelling goes wrong in a message's file: a dated array of
      references to a shared definition is qualified twice, and a reserved enum
      is not qualified at all. */
  predicate Misspelt(home: map<string, Home>, p: Property, e: Definition, block: string) {
    if Dated(p) then Lookup(home, RefName(p)) == Some(TypesHome) else e.reserved && e.kind == EnumKind && block != TYPES
  }

  /** In a message's file the spelling is found exactly when it is not misspelt. */
  lemma MessageSpelling(messages: seq<Message>, definitions: seq<Definition>, home: map<string, Home>, d: Definition, k: nat, p: Property)
    requires PlacementOk(messages, definitions, home)
    requires d in definitions && EmittedWith(messages, home, d, k) && p in d.properties && Shaped(p, definitions)
    requires RefName(p) != "" && MapGoType(p, definitions).Some?
    ensures Find(definitions, RefName(p)).Some?
    ensures var g := Qualified(MapGoType(p, definitions).value, p, home, false);
            FoundIn(messages, definitions, home, p, Resolve(g, messages[k].block)) <==>
              !Misspelt(home, p, Find(definitions, RefName(p)).value, messages[k].block)
  {
    var e := TargetHomed(messages, definitions, home, d, k, p);
    MappedPackage(p, definitions, e);
    SpellingOf(messages, definitions, home, p, e, k, MapGoType(p, definitions).value);
  }

  lemma SpellingOf(messages: seq<Message>, definitions: seq<Definition>, home: map<string, Home>, p: Property, e: Definition, k: nat, g: GoType)
    requires CorpusOk(messages, definitions) && k < |messages| && e in definitions && e.name == RefName(p) != ""
    requires g.pkg == if Dated(p) || (e.reserved && e.kind != EnumKind) then TYPES else ""
    requires e.reserved ==> e.name !in home
    requires !e.reserved ==> Lookup(home, e.name) in {Some(TypesHome), Some(MessageHome(messages[k].name))}
    ensures FoundIn(messages, definitions, home, p, Resolve(Qualified(g, p, home, false), messages[k].block)) <==>
            !Misspelt(home, p, e, messages[k].block)
  {
    if Dated(p) { DatedPackage(p, home, g, messages[k].block); }
    else if e.reserved && e.kind == EnumKind { OnlyInTypes(messages, definitions, home, e, messages[k].block); }
    else { SpelledRight(messages, definitions, home, p, e, k, g); }
  }

  lemma DatedPackage(p: Property, home: map<string, Home>, g: GoType, block: string)
    requires RefName(p) != "" && g.pkg == TYPES
    ensures Resolve(Qualified(g, p, home, false), block) == TYPES <==> Lookup(home, RefName(p)) != Some(TypesHome)
  {
    assert |TYPES + "." + TYPES| > |TYPES|;
  }

  /** A reserved definition is found in types and nowhere else. */
  lemma OnlyInTypes(messages: seq<Message>, definitions: seq<Definition>, home: map<string, Home>, e: Definition, pkg: string)
    requires CorpusOk(messages, definitions) && e in definitions && e.reserved
    ensures EmittedIn(messages, definitions, home, e.name, pkg) <==> pkg == TYPES
  {
    forall x | x in definitions && x.name == e.name ensures x == e { NamesUnique(messages, definitions, x, e); }
  }

  /** The target is reserved, or homed in types, or homed in the same file. */
  lemma TargetHomed(messages: seq<Message>, definitions: seq<Definition>, home: map<string, Home>, d: Definition, k: nat, p: Property)
      returns (e: Definition)
    requires PlacementOk(messages, definitions, home) && d in definitions && EmittedWith(messages, home, d, k)
    requires p in d.properties && RefName(p) != ""
    ensures e in definitions && e.name == RefName(p) && Find(definitions, RefName(p)) == Some(e)
    ensures e.reserved ==> e.name !in home
    ensures !e.reserved ==> Lookup(home, e.name) in {Some(TypesHome), Some(MessageHome(messages[k].name))}
  {
    RefNameIsTarget(d, p);
    EmitterReaches(messages, definitions, home, d, k, RefName(p));
    e := ReachedIsMerged(messages, definitions, k, RefName(p));
    NamesUnique(messages, definitions, e, Find(definitions, RefName(p)).value);
    if e.reserved { ReservedNotCandidate(messages, definitions, e); } else { HomeOfReached(messages, definitions, home, k, e); }
  }

  lemma SpelledRight(messages: seq<Message>, definitions: seq<Definition>, home: map<string, Home>, p: Property, e: Definition, k: nat, g: GoType)
    requires k < |messages| && e in definitions && e.name == RefName(p) != "" && g.pkg == (if e.reserved then TYPES else "")
    requires e.reserved ==> e.name !in home
    requires !e.reserved ==> Lookup(home, e.name) in {Some(TypesHome), Some(MessageHome(messages[k].name))}
    ensures EmittedIn(messages, definitions, home, RefName(p), Resolve(Qualified(g, p, home, false), messages[k].block))
  {
    if e.reserved || home[e.name].TypesHome? { InTypes(messages, definitions, home, e); }
    else { InMessage(messages, definitions, home, e, k); }
  }

  lemma InTypes(messages: seq<Message>, definitions: seq<Definition>, home: map<string, Home>, e: Definition)
    requires e in definitions && (e.reserved || Lookup(home, e.name) == Some(TypesHome))
    ensures EmittedIn(messages, definitions, home, e.name, TYPES)
  {
  }

  lemma InMessage(messages: seq<Message>, definitions: seq<Definition>, home: map<string, Home>, e: Definition, k: nat)
    requires e in definitions && !e.reserved && k < |messages| && Lookup(home, e.name) == Some(MessageHome(messages[k].name))
    ensures EmittedIn(messages, definitions, home, e.name, messages[k].block)
  {
  }

  lemma ReservedNotCandidate(messages: seq<Message>, definitions: seq<Definition>, e: Definition)
    requires CorpusOk(messages, definitions) && e in definitions && e.reserved
    ensures !Candidate(definitions, e.name)
  {
    forall i | 0 <= i < |definitions| && definitions[i].name == e.name ensures definitions[i] == e {
      NamesUnique(messages, definitions, definitions[i], e);
    }
  }

  lemma HomeOfReached(messages: seq<Message>, definitions: seq<Definition>, home: map<string, Home>, k: nat, e: Definition)
    requires PlacementOk(messages, definitions, home) && k < |messages| && e in definitions && e.kind != RootKind
    requires e.name in messages[k].reach && !e.reserved
    ensures e.name in home && (home[e.name].TypesHome? || home[e.name] == MessageHome(messages[k].name))
  {
    assert Candidate(definitions, e.name);
    ReacherIsHome(messages, e.name, home[e.name], k);
  }

  lemma ReacherIsHome(messages: seq<Message>, n: string, home: Home, k: nat)
    requires Placed(messages, n, home) && k < |messages| && n in messages[k].reach
    ensures home.TypesHome? || home == MessageHome(messages[k].name)
  {
    assert k in Reaching(messages, n);
    if home.MessageHome? {
      var j := OnlyReacher(messages, n, home);
      assert k in {j};
    }
  }
}
