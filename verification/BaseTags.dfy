/**
 The base tag list of a property: what it accepts against what the schema
 accepts, with the exact inputs on which the two part; that it is well-scoped;
 and that the loader reads back exactly the tokens the mapping rendered.
 */
module BaseTags {
  import opened Basics
  import opened Tags
  import opened Overrides

  /** Bounds as the schema states them; the two value bounds as the decimal
      text they are rendered with. */
  datatype Bounds = Bounds(minLength: Option<nat>, maxLength: Option<nat>, minimum: Option<string>, maximum: Option<string>)

  /** What decides a property's Go type. */
  datatype Shape = Boolean | Numeric | Textual | Listed | Dated | EnumRef | ObjectRef | ReservedRef | Untyped

  /** What the mapping reads off a property. */
  datatype Facets = Facets(
    required: bool, shape: Shape, minItems: Option<nat>, maxItems: Option<nat>,
    bounds: Bounds,
    items: Option<Bounds>,        // the element schema's own bounds
    elementIsRef: bool,           // ... and whether it refers to a definition
    enumToken: Option<string>)    // the validator the property's enum registers

  const FAMILIES := {"min", "max", "gte", "lte"}

  function Valued(family: string, value: string): string { family + "=" + value }

  function Tok(family: string, value: Option<string>): seq<string> { if value.Some? then [Valued(family, value.value)] else [] }

  function Text(n: Option<nat>): Option<string> { if n.Some? then Some(Digits(n.value)) else None }

  /** Length or item count: min= before max=. */
  function CountTokens(min: Option<nat>, max: Option<nat>): seq<string> { Tok("min", Text(min)) + Tok("max", Text(max)) }

  /** Value: gte= before lte=. */
  function ValueTokens(min: Option<string>, max: Option<string>): seq<string> { Tok("gte", min) + Tok("lte", max) }

  function BoundTokens(b: Bounds): seq<string> { CountTokens(b.minLength, b.maxLength) + ValueTokens(b.minimum, b.maximum) }

  function Optionality(f: Facets): seq<string> {
    if f.required && f.shape.Boolean? then [] else if f.required then ["required"] else ["omitempty"]
  }

  /** dive and the element's tokens, when the element has anything to say. */
  function ElementTokens(f: Facets): seq<string> {
    if f.items.None? || (!f.elementIsRef && BoundTokens(f.items.value) == []) then []
    else ["dive"] + BoundTokens(f.items.value)
  }

  /** BaseTagSet, with the enum token MapProperty appends. */
  function BaseTagSet(f: Facets): seq<string> {
    Optionality(f)
    + (if f.shape.Listed? then CountTokens(f.minItems, f.maxItems) + ElementTokens(f) else BoundTokens(f.bounds))
    + (if f.enumToken.Some? then [f.enumToken.value] else [])
  }

  // ---- families come in a fixed order, so none repeats ----

  function Rank(family: string): int {
    if family in OPTIONALITY then 0
    else if family == "min" then 1 else if family == "max" then 2
    else if family == "gte" then 3 else if family == "lte" then 4
    else if family == ENUM_FAMILY then 5 else 6
  }

  /** Families of strictly rising rank below `bound`, and no dive. */
  ghost predicate Ranked(tokens: seq<string>, registered: set<string>, bound: int) {
    && (forall i :: 0 <= i < |tokens| ==> tokens[i] != "dive" && 0 <= Rank(Family(tokens[i], registered)) < bound)
    && (forall i, j :: 0 <= i < j < |tokens| ==> Rank(Family(tokens[i], registered)) < Rank(Family(tokens[j], registered)))
  }

  /** A valued token splits at its "=". */
  lemma ValuedParts(family: string, value: string)
    requires '=' !in family
    ensures TagFamily(Valued(family, value)) == family && TagValue(Valued(family, value)) == Some(value)
  {
    var token := Valued(family, value);
    assert token[|family|] == '=' && forall k :: 0 <= k < |family| ==> token[k] == family[k];
    assert IndexOf(token, '=') == |family|;
    assert token[..|family|] == family && token[|family| + 1..] == value;
  }

  lemma ValuedIsPlain(family: string, value: string, registered: set<string>)
    requires '=' !in family && RegisteredOk(registered)
    ensures Family(Valued(family, value), registered) == family
    ensures Valued(family, value) != "dive" && Valued(family, value) !in OPTIONALITY
  {
    var token := Valued(family, value);
    ValuedParts(family, value);
    assert token[|family|] == '=';
    if token in OPTIONALITY || token == "dive" { FamilyOfPlain(token); }
  }

  lemma FamiliesPlain(family: string)
    requires family in FAMILIES
    ensures '=' !in family && (family in FLOORS || family in CEILINGS)
  {
  }

  lemma RankTok(tokens: seq<string>, registered: set<string>, family: string, value: Option<string>, rank: int)
    requires RegisteredOk(registered) && family in FAMILIES && Rank(family) == rank && Ranked(tokens, registered, rank)
    ensures Ranked(tokens + Tok(family, value), registered, rank + 1)
  {
    FamiliesPlain(family);
    if value.Some? { ValuedIsPlain(family, value.value, registered); }
  }

  lemma RankCount(tokens: seq<string>, min: Option<nat>, max: Option<nat>, registered: set<string>)
    requires RegisteredOk(registered) && Ranked(tokens, registered, 1)
    ensures Ranked(tokens + CountTokens(min, max), registered, 3)
  {
    RankTok(tokens, registered, "min", Text(min), 1);
    RankTok(tokens + Tok("min", Text(min)), registered, "max", Text(max), 2);
    assert tokens + CountTokens(min, max) == tokens + Tok("min", Text(min)) + Tok("max", Text(max));
  }

  lemma RankValue(tokens: seq<string>, min: Option<string>, max: Option<string>, registered: set<string>)
    requires RegisteredOk(registered) && Ranked(tokens, registered, 3)
    ensures Ranked(tokens + ValueTokens(min, max), registered, 5)
  {
    RankTok(tokens, registered, "gte", min, 3);
    RankTok(tokens + Tok("gte", min), registered, "lte", max, 4);
    assert tokens + ValueTokens(min, max) == tokens + Tok("gte", min) + Tok("lte", max);
  }

  lemma RankBounds(tokens: seq<string>, b: Bounds, registered: set<string>)
    requires RegisteredOk(registered) && Ranked(tokens, registered, 1)
    ensures Ranked(tokens + BoundTokens(b), registered, 5)
  {
    RankCount(tokens, b.minLength, b.maxLength, registered);
    RankValue(tokens + CountTokens(b.minLength, b.maxLength), b.minimum, b.maximum, registered);
    assert tokens + BoundTokens(b) == tokens + CountTokens(b.minLength, b.maxLength) + ValueTokens(b.minimum, b.maximum);
  }

  lemma OptionalityFamily(t: string, registered: set<string>)
    requires RegisteredOk(registered) && t in OPTIONALITY
    ensures Family(t, registered) == t && t != "dive" && Rank(t) == 0
  {
    FamilyOfPlain(t);
  }

  lemma RankOptionality(f: Facets, registered: set<string>)
    requires RegisteredOk(registered)
    ensures Ranked(Optionality(f), registered, 1)
  {
    forall i | 0 <= i < |Optionality(f)| ensures Optionality(f)[i] in OPTIONALITY { }
    if Optionality(f) != [] { OptionalityFamily(Optionality(f)[0], registered); }
  }

  lemma RankEnum(tokens: seq<string>, registered: set<string>, enumToken: Option<string>)
    requires RegisteredOk(registered) && Ranked(tokens, registered, 5) && (enumToken.Some? ==> enumToken.value in registered)
    ensures Ranked(tokens + (if enumToken.Some? then [enumToken.value] else []), registered, 6)
  {
  }

  lemma {:induction false} ScopeFlat(tokens: seq<string>, i: nat)
    requires i <= |tokens| && forall k :: 0 <= k < i ==> tokens[k] != "dive"
    ensures Scope(tokens, i) == 0
  {
    if i > 0 { ScopeFlat(tokens, i - 1); }
  }

  lemma RankedIsScoped(tokens: seq<string>, registered: set<string>)
    requires Ranked(tokens, registered, 6)
    ensures OnePerScope(tokens, registered)
  {
    forall i | 0 <= i < |tokens| ensures Scope(tokens, i) == 0 { ScopeFlat(tokens, i); }
  }

  /** No token of the list, by itself or by family, is a dive. */
  predicate NoDive(tokens: seq<string>, registered: set<string>) {
    forall i :: 0 <= i < |tokens| ==> tokens[i] != "dive" && Family(tokens[i], registered) != "dive"
  }

  lemma RankedNoDive(tokens: seq<string>, registered: set<string>)
    requires Ranked(tokens, registered, 6)
    ensures NoDive(tokens, registered)
  {
    assert Rank("dive") == 6;
  }

  lemma {:induction false} ScopeAfterDive(front: seq<string>, back: seq<string>, registered: set<string>, i: nat)
    requires NoDive(front, registered) && NoDive(back, registered) && |front| < i <= |front| + 1 + |back|
    ensures Scope(front + ["dive"] + back, i) == 1
  {
    var all := front + ["dive"] + back;
    if i == |front| + 1 { ScopeFlat(all, |front|); } else { ScopeAfterDive(front, back, registered, i - 1); }
  }

  lemma KeyInFront(front: seq<string>, back: seq<string>, registered: set<string>, i: nat)
    requires NoDive(front, registered) && i < |front|
    ensures KeyAt(front + ["dive"] + back, i, registered) == Key(0, Family(front[i], registered))
  {
    ScopeFlat(front + ["dive"] + back, i);
  }

  lemma KeyInBack(front: seq<string>, back: seq<string>, registered: set<string>, j: nat)
    requires NoDive(front, registered) && NoDive(back, registered) && j < |back|
    ensures KeyAt(front + ["dive"] + back, |front| + 1 + j, registered) == Key(1, Family(back[j], registered))
  {
    ScopeAfterDive(front, back, registered, |front| + 1 + j);
    assert (front + ["dive"] + back)[|front| + 1 + j] == back[j];
  }

  lemma KeyOfDive(front: seq<string>, back: seq<string>, registered: set<string>)
    requires "dive" !in registered
    ensures KeyAt(front + ["dive"] + back, |front|, registered) == Key(-1, "dive")
  {
    FamilyOfPlain("dive");
  }

  /** The key of each position, half by half. */
  function HalfKey(front: seq<string>, back: seq<string>, registered: set<string>, i: nat): Key
    requires i < |front| + 1 + |back|
  {
    if i < |front| then Key(0, Family(front[i], registered))
    else if i == |front| then Key(-1, "dive")
    else Key(1, Family(back[i - |front| - 1], registered))
  }

  lemma KeyOfHalf(front: seq<string>, back: seq<string>, registered: set<string>, i: nat)
    requires NoDive(front, registered) && NoDive(back, registered) && "dive" !in registered && i < |front| + 1 + |back|
    ensures KeyAt(front + ["dive"] + back, i, registered) == HalfKey(front, back, registered, i)
  {
    if i < |front| { KeyInFront(front, back, registered, i); }
    else if i == |front| { KeyOfDive(front, back, registered); }
    else { KeyInBack(front, back, registered, i - |front| - 1); }
  }

  lemma HalfKeysDiffer(front: seq<string>, back: seq<string>, registered: set<string>, i: nat, j: nat)
    requires Ranked(front, registered, 6) && Ranked(back, registered, 6) && i < j < |front| + 1 + |back|
    ensures HalfKey(front, back, registered, i) != HalfKey(front, back, registered, j)
  {
  }

  lemma KeysDiffer(front: seq<string>, back: seq<string>, registered: set<string>, i: nat, j: nat)
    requires Ranked(front, registered, 6) && Ranked(back, registered, 6) && "dive" !in registered && i < j < |front| + 1 + |back|
    ensures KeyAt(front + ["dive"] + back, i, registered) != KeyAt(front + ["dive"] + back, j, registered)
  {
    RankedNoDive(front, registered);
    RankedNoDive(back, registered);
    KeyOfHalf(front, back, registered, i);
    KeyOfHalf(front, back, registered, j);
    HalfKeysDiffer(front, back, registered, i, j);
  }

  /** Two ranked halves around one dive do not collide. */
  lemma HalvesAreScoped(front: seq<string>, back: seq<string>, registered: set<string>)
    requires Ranked(front, registered, 6) && Ranked(back, registered, 6) && "dive" !in registered
    ensures OnePerScope(front + ["dive"] + back, registered)
  {
    var all := front + ["dive"] + back;
    forall i, j | 0 <= i < j < |all| ensures KeyAt(all, i, registered) != KeyAt(all, j, registered) {
      KeysDiffer(front, back, registered, i, j);
    }
  }

  /** An enum-typed array dives: its elements refer to the enum. */
  predicate EnumDives(f: Facets) { f.shape.Listed? && f.enumToken.Some? ==> f.items.Some? && f.elementIsRef }

  predicate FacetsOk(f: Facets, registered: set<string>) {
    (f.enumToken.Some? ==> f.enumToken.value in registered) && EnumDives(f)
  }

  lemma ScalarIsScoped(f: Facets, registered: set<string>)
    requires RegisteredOk(registered) && FacetsOk(f, registered) && !f.shape.Listed?
    ensures OnePerScope(BaseTagSet(f), registered)
  {
    RankOptionality(f, registered);
    RankBounds(Optionality(f), f.bounds, registered);
    RankEnum(Optionality(f) + BoundTokens(f.bounds), registered, f.enumToken);
    RankedIsScoped(BaseTagSet(f), registered);
  }

  /** The tokens of an array in front of dive: optionality and item count. */
  function Front(f: Facets): seq<string> { Optionality(f) + CountTokens(f.minItems, f.maxItems) }

  lemma RankFront(f: Facets, registered: set<string>)
    requires RegisteredOk(registered)
    ensures Ranked(Front(f), registered, 6)
  {
    RankOptionality(f, registered);
    RankCount(Optionality(f), f.minItems, f.maxItems, registered);
  }

  /** The tokens behind dive: the element's bounds and its enum. */
  function Back(f: Facets): seq<string>
    requires f.items.Some?
  {
    BoundTokens(f.items.value) + (if f.enumToken.Some? then [f.enumToken.value] else [])
  }

  lemma RankBack(f: Facets, registered: set<string>)
    requires RegisteredOk(registered) && FacetsOk(f, registered) && f.items.Some?
    ensures Ranked(Back(f), registered, 6)
  {
    RankBounds([], f.items.value, registered);
    assert [] + BoundTokens(f.items.value) == BoundTokens(f.items.value);
    RankEnum(BoundTokens(f.items.value), registered, f.enumToken);
  }

  lemma ArrayShape(f: Facets)
    requires f.shape.Listed?
    ensures ElementTokens(f) == [] && f.enumToken.None? ==> BaseTagSet(f) == Front(f)
    ensures ElementTokens(f) != [] ==> BaseTagSet(f) == Front(f) + ["dive"] + Back(f)
  {
  }

  lemma ArrayIsScoped(f: Facets, registered: set<string>)
    requires RegisteredOk(registered) && FacetsOk(f, registered) && f.shape.Listed?
    ensures OnePerScope(BaseTagSet(f), registered)
  {
    ArrayShape(f);
    RankFront(f, registered);
    if ElementTokens(f) == [] {
      RankedIsScoped(Front(f), registered);
    } else {
      RankBack(f, registered);
      HalvesAreScoped(Front(f), Back(f), registered);
    }
  }

  /** Every base list has at most one dive and one token per family and scope. */
  lemma BaseIsScoped(f: Facets, registered: set<string>)
    requires RegisteredOk(registered) && FacetsOk(f, registered)
    ensures OnePerScope(BaseTagSet(f), registered)
  {
    if f.shape.Listed? { ArrayIsScoped(f, registered); } else { ScalarIsScoped(f, registered); }
  }

  // ---- what the base tags enforce ----

  /** A decimal bound that parses, as the mapping renders it. */
  predicate Rendered(bound: Option<string>) { bound.Some? ==> '=' !in bound.value && DecimalValue(bound.value).Some? }

  predicate BoundsRendered(b: Bounds) { Rendered(b.minimum) && Rendered(b.maximum) }

  predicate CountHolds(min: Option<nat>, max: Option<nat>, v: Value) {
    (min.Some? ==> Measure(v) >= min.value as real) && (max.Some? ==> Measure(v) <= max.value as real)
  }

  predicate ValueHolds(min: Option<string>, max: Option<string>, v: Value)
    requires Rendered(min) && Rendered(max)
  {
    && (min.Some? ==> Measure(v) >= DecimalValue(min.value).value)
    && (max.Some? ==> Measure(v) <= DecimalValue(max.value).value)
  }

  predicate EnumHolds(f: Facets, v: Value, member: (string, Value) -> bool) { f.enumToken.Some? ==> member(f.enumToken.value, v) }

  predicate FacetsRendered(f: Facets) { BoundsRendered(f.bounds) && (f.items.Some? ==> BoundsRendered(f.items.value)) }

  predicate BoundsHold(b: Bounds, v: Value)
    requires BoundsRendered(b)
  {
    CountHolds(b.minLength, b.maxLength, v) && ValueHolds(b.minimum, b.maximum, v)
  }

  /** What the schema asks of a value that is given: of an array its item count,
      and of each element what the element schema says; of anything else its
      own bounds and permitted values. */
  predicate BodyHolds(f: Facets, v: Value, member: (string, Value) -> bool)
    requires FacetsRendered(f)
  {
    if f.shape.Listed? then
      && CountHolds(f.minItems, f.maxItems, v)
      && (f.items.Some? && v.Items? ==> forall e :: e in v.elements ==> BoundsHold(f.items.value, e) && EnumHolds(f, e, member))
    else
      BoundsHold(f.bounds, v) && EnumHolds(f, v, member)
  }

  /** The property in a JSON document. */
  datatype Input = Missing | Given(v: Value)

  /** The schema's own verdict: a required property is there, and one that is
      there meets its constraints. */
  predicate SchemaAccepts(f: Facets, input: Input, member: (string, Value) -> bool)
    requires FacetsRendered(f)
  {
    match input
    case Missing => !f.required
    case Given(v) => BodyHolds(f, v, member)
  }

  /** The Go field is a pointer (or an interface), so that absent is not zero. */
  predicate IsPointer(f: Facets)
    requires FacetsRendered(f)
  {
    match f.shape
    case Numeric => !f.required && (f.bounds.minimum.Some? ==> DecimalValue(f.bounds.minimum.value).value <= 0.0)
    case Boolean => !f.required
    case ObjectRef => !f.required
    case Dated => true
    case ReservedRef => true
    case Untyped => true
    case _ => false
  }

  /** What a value field holds when the property is missing. */
  function ZeroOf(shape: Shape): Value {
    match shape
    case Boolean => Flag(false)
    case Numeric => Number(0.0)
    case Textual => Value.Text("")
    case EnumRef => Value.Text("")
    case Listed => NoItems
    case _ => Opaque
  }

  /** The validator's verdict on the decoded field under the tags `tokens`. */
  predicate FieldAccepts(f: Facets, tokens: seq<string>, input: Input, member: (string, Value) -> bool)
    requires FacetsRendered(f)
  {
    match input
    case Missing =>
      if IsPointer(f) then tokens == [] || tokens[0] == "omitempty" else Accepts(tokens, ZeroOf(f.shape), member)
    case Given(v) => AcceptsAt(IsPointer(f), tokens, v, member)
  }

  /** A list of plain constraints accepts what each half accepts. */
  lemma {:induction false} AcceptsBoth(a: seq<string>, b: seq<string>, v: Value, member: (string, Value) -> bool)
    requires Plain(a)
    ensures Accepts(a + b, v, member) <==> Accepts(a, v, member) && Accepts(b, v, member)
    decreases a
  {
    if a == [] {
      assert a + b == b;
    } else {
      assert (a + b)[1..] == a[1..] + b;
      AcceptsBoth(a[1..], b, v, member);
    }
  }

  /** A valued token is exactly its bound. */
  lemma ValuedHolds(family: string, value: string, v: Value, member: (string, Value) -> bool)
    requires family in FAMILIES && DecimalValue(value).Some?
    ensures Accepts([Valued(family, value)], v, member) <==>
            if family in FLOORS then Measure(v) >= DecimalValue(value).value else Measure(v) <= DecimalValue(value).value
  {
    FamiliesPlain(family);
    ValuedParts(family, value);
    ValuedIsPlain(family, value, {});
    assert [Valued(family, value)][1..] == [];
  }

  predicate Plain(tokens: seq<string>) { forall i :: 0 <= i < |tokens| ==> tokens[i] !in OPTIONALITY && tokens[i] != "dive" }

  lemma TokAccepts(family: string, value: Option<string>, v: Value, member: (string, Value) -> bool)
    requires family in FAMILIES && (value.Some? ==> DecimalValue(value.value).Some?)
    ensures Accepts(Tok(family, value), v, member) <==>
            (value.Some? ==> if family in FLOORS then Measure(v) >= DecimalValue(value.value).value
                             else Measure(v) <= DecimalValue(value.value).value)
    ensures Plain(Tok(family, value))
  {
    if value.Some? {
      FamiliesPlain(family);
      ValuedHolds(family, value.value, v, member);
      ValuedIsPlain(family, value.value, {});
    }
  }

  lemma CountAccepts(min: Option<nat>, max: Option<nat>, v: Value, member: (string, Value) -> bool)
    ensures Accepts(CountTokens(min, max), v, member) <==> CountHolds(min, max, v)
    ensures Plain(CountTokens(min, max))
  {
    CountTokAccepts("min", min, v, member);
    CountTokAccepts("max", max, v, member);
    AcceptsBoth(Tok("min", Text(min)), Tok("max", Text(max)), v, member);
  }

  lemma CountTokAccepts(family: string, n: Option<nat>, v: Value, member: (string, Value) -> bool)
    requires family in FAMILIES
    ensures Accepts(Tok(family, Text(n)), v, member) <==>
            (n.Some? ==> if family in FLOORS then Measure(v) >= n.value as real else Measure(v) <= n.value as real)
    ensures Plain(Tok(family, Text(n)))
  {
    if n.Some? { RenderedNumber(n.value); }
    TokAccepts(family, Text(n), v, member);
  }

  lemma ValueAccepts(min: Option<string>, max: Option<string>, v: Value, member: (string, Value) -> bool)
    requires Rendered(min) && Rendered(max)
    ensures Accepts(ValueTokens(min, max), v, member) <==> ValueHolds(min, max, v)
    ensures Plain(ValueTokens(min, max))
  {
    TokAccepts("gte", min, v, member);
    TokAccepts("lte", max, v, member);
    AcceptsBoth(Tok("gte", min), Tok("lte", max), v, member);
  }

  function EnumTokens(f: Facets): seq<string> { if f.enumToken.Some? then [f.enumToken.value] else [] }

  /** Registered names are read by their own check alone. */
  predicate EnumPlain(f: Facets) {
    f.enumToken.Some? ==> f.enumToken.value !in OPTIONALITY && f.enumToken.value != "dive" && Bound(f.enumToken.value).None?
  }

  lemma EnumAccepts(f: Facets, v: Value, member: (string, Value) -> bool)
    requires EnumPlain(f)
    ensures Accepts(EnumTokens(f), v, member) <==> EnumHolds(f, v, member)
  {
  }

  lemma BoundsAccept(b: Bounds, f: Facets, v: Value, member: (string, Value) -> bool)
    requires BoundsRendered(b) && EnumPlain(f)
    ensures Accepts(BoundTokens(b) + EnumTokens(f), v, member) <==>
            BoundsHold(b, v) && EnumHolds(f, v, member)
  {
    var count, value := CountTokens(b.minLength, b.maxLength), ValueTokens(b.minimum, b.maximum);
    CountAccepts(b.minLength, b.maxLength, v, member);
    ValueAccepts(b.minimum, b.maximum, v, member);
    EnumAccepts(f, v, member);
    AcceptsBoth(value, EnumTokens(f), v, member);
    AcceptsBoth(count, value + EnumTokens(f), v, member);
    assert BoundTokens(b) + EnumTokens(f) == count + (value + EnumTokens(f));
  }

  lemma ElementsAccept(f: Facets, v: Value, member: (string, Value) -> bool)
    requires f.items.Some? && BoundsRendered(f.items.value) && EnumPlain(f)
    ensures Accepts(["dive"] + (BoundTokens(f.items.value) + EnumTokens(f)), v, member) <==>
            (v.Items? ==> forall e :: e in v.elements ==> BoundsHold(f.items.value, e) && EnumHolds(f, e, member))
  {
    var rest := BoundTokens(f.items.value) + EnumTokens(f);
    assert (["dive"] + rest)[1..] == rest;
    if v.Items? {
      forall e | e in v.elements
        ensures Accepts(rest, e, member) <==> BoundsHold(f.items.value, e) && EnumHolds(f, e, member)
      {
        BoundsAccept(f.items.value, f, e, member);
      }
    }
  }

  /** The tokens after optionality. */
  function BodyTokens(f: Facets): seq<string> {
    (if f.shape.Listed? then CountTokens(f.minItems, f.maxItems) + ElementTokens(f) else BoundTokens(f.bounds)) + EnumTokens(f)
  }

  /** An element schema that renders no token asks nothing. */
  lemma NothingToSay(f: Facets, e: Value, member: (string, Value) -> bool)
    requires FacetsRendered(f) && f.items.Some? && ElementTokens(f) == [] && f.enumToken.None?
    ensures BoundsHold(f.items.value, e) && EnumHolds(f, e, member)
  {
    var b := f.items.value;
    assert |BoundTokens(b)| == |CountTokens(b.minLength, b.maxLength)| + |ValueTokens(b.minimum, b.maximum)|;
  }

  lemma BodyAccepts(f: Facets, v: Value, member: (string, Value) -> bool)
    requires FacetsRendered(f) && EnumPlain(f) && EnumDives(f)
    ensures Accepts(BodyTokens(f), v, member) <==> BodyHolds(f, v, member)
  {
    if !f.shape.Listed? {
      BoundsAccept(f.bounds, f, v, member);
    } else {
      var count := CountTokens(f.minItems, f.maxItems);
      CountAccepts(f.minItems, f.maxItems, v, member);
      AcceptsBoth(count, ElementTokens(f) + EnumTokens(f), v, member);
      assert BodyTokens(f) == count + (ElementTokens(f) + EnumTokens(f));
      if ElementTokens(f) != [] {
        ElementsAccept(f, v, member);
        assert ElementTokens(f) + EnumTokens(f) == ["dive"] + (BoundTokens(f.items.value) + EnumTokens(f));
      } else if f.items.Some? && v.Items? {
        forall e | e in v.elements ensures BoundsHold(f.items.value, e) && EnumHolds(f, e, member) { NothingToSay(f, e, member); }
      }
    }
  }

  lemma HeadAccepts(f: Facets, body: seq<string>, v: Value, member: (string, Value) -> bool)
    ensures Accepts(Optionality(f) + body, v, member) <==>
            (!f.required && IsZero(v)) || ((f.required && !f.shape.Boolean? ==> !IsZero(v)) && Accepts(body, v, member))
  {
    if Optionality(f) == [] { assert Optionality(f) + body == body; }
    else { assert (Optionality(f) + body)[1..] == body; }
  }

  /** A pointer field skips the optionality token and meets the rest. */
  lemma PointerAccepts(f: Facets, v: Value, member: (string, Value) -> bool)
    requires FacetsRendered(f) && EnumPlain(f) && EnumDives(f) && IsPointer(f)
    ensures AcceptsAt(true, BaseTagSet(f), v, member) <==> BodyHolds(f, v, member)
  {
    BodyAccepts(f, v, member);
    assert BaseTagSet(f) == Optionality(f) + BodyTokens(f) && Optionality(f) != [];
    assert BaseTagSet(f)[1..] == BodyTokens(f);
  }

  lemma ValueFieldAccepts(f: Facets, v: Value, member: (string, Value) -> bool)
    requires FacetsRendered(f) && EnumPlain(f) && EnumDives(f)
    ensures Accepts(BaseTagSet(f), v, member) <==>
            (!f.required && IsZero(v)) || ((f.required && !f.shape.Boolean? ==> !IsZero(v)) && BodyHolds(f, v, member))
  {
    BodyAccepts(f, v, member);
    assert BaseTagSet(f) == Optionality(f) + BodyTokens(f);
    HeadAccepts(f, BodyTokens(f), v, member);
  }

  /** Where the tags cannot see what the schema sees, all of them about value
      fields: a given zero is refused by `required` though the schema admits it,
      or excused by `omitempty` though the schema does not; and a missing
      required boolean or object looks like a legitimate zero. */
  predicate Blind(f: Facets, input: Input, member: (string, Value) -> bool)
    requires FacetsRendered(f)
  {
    && !IsPointer(f)
    && match input
       case Missing => f.required && (f.shape.Boolean? || !IsZero(ZeroOf(f.shape))) && BodyHolds(f, ZeroOf(f.shape), member)
       case Given(v) => IsZero(v) && if f.required then !f.shape.Boolean? && BodyHolds(f, v, member) else !BodyHolds(f, v, member)
  }

  /** The base tags and the schema agree on an input exactly when the tags are
      not blind to it: a bound in front of dive counts items, one behind it
      constrains each element, and a pointer tells absent from zero. */
  lemma BaseTagsMeanTheSchema(f: Facets, input: Input, member: (string, Value) -> bool)
    requires FacetsRendered(f) && EnumPlain(f) && EnumDives(f)
    ensures (FieldAccepts(f, BaseTagSet(f), input, member) <==> SchemaAccepts(f, input, member)) <==> !Blind(f, input, member)
  {
    match input
    case Missing =>
      if IsPointer(f) { assert BaseTagSet(f)[0] == Optionality(f)[0]; } else { ValueFieldAccepts(f, ZeroOf(f.shape), member); }
    case Given(v) => if IsPointer(f) { PointerAccepts(f, v, member); } else { ValueFieldAccepts(f, v, member); }
  }

  const NO_BOUNDS := Bounds(None, None, None, None)

  /** A required number with minimum 0 refuses a given 0. */
  lemma RequiredZeroIsRefused(member: (string, Value) -> bool)
    ensures var f := Facets(true, Numeric, None, None, Bounds(None, None, Some(Digits(0)), None), None, false, None);
            && FacetsRendered(f) && SchemaAccepts(f, Given(Number(0.0)), member)
            && !FieldAccepts(f, BaseTagSet(f), Given(Number(0.0)), member)
  {
    var f := Facets(true, Numeric, None, None, Bounds(None, None, Some(Digits(0)), None), None, false, None);
    RenderedNumber(0);
    BaseTagsMeanTheSchema(f, Given(Number(0.0)), member);
  }

  /** An optional text of length at least 1 lets the empty text through. */
  lemma OptionalEmptyIsAccepted(member: (string, Value) -> bool)
    ensures var f := Facets(false, Textual, None, None, Bounds(Some(1), None, None, None), None, false, None);
            && !SchemaAccepts(f, Given(Value.Text("")), member) && FieldAccepts(f, BaseTagSet(f), Given(Value.Text("")), member)
  {
    var f := Facets(false, Textual, None, None, Bounds(Some(1), None, None, None), None, false, None);
    BaseTagsMeanTheSchema(f, Given(Value.Text("")), member);
  }

  /** A missing required boolean is not noticed. */
  lemma MissingBooleanIsAccepted(member: (string, Value) -> bool)
    ensures var f := Facets(true, Boolean, None, None, NO_BOUNDS, None, false, None);
            !SchemaAccepts(f, Missing, member) && FieldAccepts(f, BaseTagSet(f), Missing, member)
  {
    BaseTagsMeanTheSchema(Facets(true, Boolean, None, None, NO_BOUNDS, None, false, None), Missing, member);
  }

  /** The pointer rule for optional numbers does its job: the tags are blind to a
      given number only if it is 0, and then exactly when the property is
      required and admits it, or is optional with a positive minimum. */
  lemma NumbersAreSeen(f: Facets, x: real, member: (string, Value) -> bool)
    requires FacetsRendered(f) && f.shape.Numeric?
    ensures Blind(f, Given(Number(x)), member) <==>
            && x == 0.0
            && if f.required then BodyHolds(f, Number(0.0), member)
               else f.bounds.minimum.Some? && DecimalValue(f.bounds.minimum.value).value > 0.0
  {
  }

  // ---- the text form ----

  function Join(tokens: seq<string>): string {
    if tokens == [] then "" else if |tokens| == 1 then tokens[0] else tokens[0] + "," + Join(tokens[1..])
  }

  function Split(s: string): seq<string>
    decreases |s|
  {
    var i := IndexOf(s, ',');
    if i == |s| then [s] else [s[..i]] + Split(s[i + 1..])
  }

  const OPENING := "validate:\""
  const CLOSING := "\""

  /** The rendered fragment; nothing at all for an empty list. */
  function ValidateTag(tokens: seq<string>): string { if tokens == [] then "" else OPENING + Join(tokens) + CLOSING }

  function SplitValidateTag(tag: string): seq<string> {
    var rest := TrimPrefix(tag, OPENING);
    var inner := if |rest| > 0 && rest[|rest| - 1..] == CLOSING then rest[..|rest| - 1] else rest;
    if inner == "" then [] else Split(inner)
  }

  predicate TokensOk(tokens: seq<string>) { forall i :: 0 <= i < |tokens| ==> tokens[i] != "" && ',' !in tokens[i] }

  lemma IndexOfAt(s: string, c: char, i: nat)
    requires i < |s| && s[i] == c && forall k :: 0 <= k < i ==> s[k] != c
    ensures IndexOf(s, c) == i
  {
  }

  lemma SplitStep(token: string, rest: string)
    requires ',' !in token
    ensures Split(token + "," + rest) == [token] + Split(rest)
  {
    var s := token + "," + rest;
    IndexOfAt(s, ',', |token|);
    assert s[..|token|] == token && s[|token| + 1..] == rest;
  }

  lemma SplitLast(token: string)
    requires ',' !in token
    ensures Split(token) == [token]
  {
    assert IndexOf(token, ',') == |token|;
  }

  lemma {:induction false} SplitJoin(tokens: seq<string>)
    requires tokens != [] && TokensOk(tokens)
    ensures Split(Join(tokens)) == tokens && Join(tokens) != ""
  {
    if |tokens| == 1 {
      SplitLast(tokens[0]);
    } else {
      SplitJoin(tokens[1..]);
      SplitStep(tokens[0], Join(tokens[1..]));
    }
  }

  /** The loader composes onto the very tokens the mapping rendered. */
  lemma TagTextRoundTrip(tokens: seq<string>)
    requires TokensOk(tokens)
    ensures SplitValidateTag(ValidateTag(tokens)) == tokens
  {
    if tokens != [] {
      SplitJoin(tokens);
      var tag := ValidateTag(tokens);
      assert TrimPrefix(tag, OPENING) == Join(tokens) + CLOSING;
      assert (Join(tokens) + CLOSING)[..|Join(tokens)|] == Join(tokens);
    } else {
      assert TrimPrefix("", OPENING) == "";
    }
  }

  predicate PlainText(s: Option<string>) { s.Some? ==> ',' !in s.value }

  /** Rendered numbers and registered names carry no comma. */
  predicate FacetsPlain(f: Facets) {
    && PlainText(f.enumToken) && f.enumToken != Some("")
    && BoundsPlain(f.bounds) && (f.items.Some? ==> BoundsPlain(f.items.value))
  }

  predicate BoundsPlain(b: Bounds) { PlainText(b.minimum) && PlainText(b.maximum) }

  lemma NumberPlain(n: Option<nat>)
    ensures PlainText(Text(n))
  {
    if n.Some? { DigitsOk(n.value); }
  }

  lemma TokPlain(family: string, value: Option<string>)
    requires ',' !in family && PlainText(value)
    ensures TokensOk(Tok(family, value))
  {
  }

  lemma TokensAppend(a: seq<string>, b: seq<string>)
    requires TokensOk(a) && TokensOk(b)
    ensures TokensOk(a + b)
  {
  }

  lemma CountTokensPlain(min: Option<nat>, max: Option<nat>)
    ensures TokensOk(CountTokens(min, max))
  {
    NumberPlain(min);
    NumberPlain(max);
    TokPlain("min", Text(min));
    TokPlain("max", Text(max));
    TokensAppend(Tok("min", Text(min)), Tok("max", Text(max)));
  }

  lemma BoundTokensPlain(b: Bounds)
    requires BoundsPlain(b)
    ensures TokensOk(BoundTokens(b))
  {
    CountTokensPlain(b.minLength, b.maxLength);
    TokPlain("gte", b.minimum);
    TokPlain("lte", b.maximum);
    TokensAppend(Tok("gte", b.minimum), Tok("lte", b.maximum));
    TokensAppend(CountTokens(b.minLength, b.maxLength), ValueTokens(b.minimum, b.maximum));
  }

  lemma ElementTokensPlain(f: Facets)
    requires FacetsPlain(f)
    ensures TokensOk(ElementTokens(f))
  {
    if f.items.Some? {
      BoundTokensPlain(f.items.value);
      assert TokensOk(["dive"]);
      TokensAppend(["dive"], BoundTokens(f.items.value));
    }
  }

  lemma BaseTokensPlain(f: Facets)
    requires FacetsPlain(f)
    ensures TokensOk(BaseTagSet(f))
  {
    assert TokensOk(Optionality(f));
    ElementTokensPlain(f);
    BoundTokensPlain(f.bounds);
    CountTokensPlain(f.minItems, f.maxItems);
    TokensAppend(CountTokens(f.minItems, f.maxItems), ElementTokens(f));
    var middle := if f.shape.Listed? then CountTokens(f.minItems, f.maxItems) + ElementTokens(f) else BoundTokens(f.bounds);
    TokensAppend(Optionality(f), middle);
    TokensAppend(Optionality(f) + middle, if f.enumToken.Some? then [f.enumToken.value] else []);
  }

  /** The mapping the loader is given: the base tags read back from their text.
      It is what the emitter starts from, and it is well-scoped. */
  lemma MappingIsBase(f: Facets, registered: set<string>)
    requires RegisteredOk(registered) && FacetsOk(f, registered) && FacetsPlain(f)
    ensures SplitValidateTag(ValidateTag(BaseTagSet(f))) == BaseTagSet(f)
    ensures OnePerScope(SplitValidateTag(ValidateTag(BaseTagSet(f))), registered)
  {
    BaseTokensPlain(f);
    TagTextRoundTrip(BaseTagSet(f));
    BaseIsScoped(f, registered);
  }

  // ---- from the schema to the emitted tags ----

  /** The mappings the loader is given for the properties of a corpus. */
  function Mappings(facets: map<Target, Facets>, kinds: map<Target, string>): map<Target, Mapping>
    requires facets.Keys <= kinds.Keys
  {
    map t | t in facets :: Mapping(SplitValidateTag(ValidateTag(BaseTagSet(facets[t]))), kinds[t])
  }

  predicate CorpusOk(facets: map<Target, Facets>, registered: set<string>) {
    forall t :: t in facets ==>
      FacetsOk(facets[t], registered) && FacetsPlain(facets[t]) && FacetsRendered(facets[t]) && EnumPlain(facets[t])
  }

  /** A row never touches the optionality token in front. */
  lemma ApplyKeepsHead(tokens: seq<string>, row: Row, next: seq<string>, registered: set<string>)
    requires FirstPassOk(row, registered) && Apply(tokens, row) == Some(next) && tokens != [] && tokens[0] in OPTIONALITY
    ensures next != [] && next[0] == tokens[0]
  {
  }

  lemma {:induction false} EmittedKeepsHead(base: seq<string>, rows: seq<Row>, t: Target, registered: set<string>)
    requires (forall i :: 0 <= i < |rows| ==> FirstPassOk(rows[i], registered)) && Emitted(base, rows, t).Some?
    requires base != [] && base[0] in OPTIONALITY
    ensures Emitted(base, rows, t).value != [] && Emitted(base, rows, t).value[0] == base[0]
  {
    if rows != [] {
      EmittedKeepsHead(base, rows[..|rows| - 1], t, registered);
      if TargetOf(rows[|rows| - 1]) == t {
        ApplyKeepsHead(Emitted(base, rows[..|rows| - 1], t).value, rows[|rows| - 1], Emitted(base, rows, t).value, registered);
      }
    }
  }

  /** Stricter tags with the same head refuse more, missing inputs included. */
  lemma StricterRefusesMore(f: Facets, tags: seq<string>, input: Input, member: (string, Value) -> bool)
    requires FacetsRendered(f) && Stricter(tags, BaseTagSet(f))
    requires BaseTagSet(f) != [] && BaseTagSet(f)[0] in OPTIONALITY ==> tags != [] && tags[0] == BaseTagSet(f)[0]
    requires FieldAccepts(f, tags, input, member)
    ensures FieldAccepts(f, BaseTagSet(f), input, member)
  {
    match input
    case Missing =>
      if IsPointer(f) { assert BaseTagSet(f)[0] == Optionality(f)[0]; }
      else { assert AcceptsAt(false, tags, ZeroOf(f.shape), member); assert AcceptsAt(false, BaseTagSet(f), ZeroOf(f.shape), member); }
    case Given(v) =>
  }

  lemma MappingsAreBase(facets: map<Target, Facets>, kinds: map<Target, string>, registered: set<string>)
    requires facets.Keys <= kinds.Keys && RegisteredOk(registered) && CorpusOk(facets, registered)
    ensures MappingsOk(Mappings(facets, kinds), registered)
    ensures forall t :: t in facets ==> Mappings(facets, kinds)[t].baseTags == BaseTagSet(facets[t])
  {
    forall t | t in facets ensures Mappings(facets, kinds)[t].baseTags == BaseTagSet(facets[t]) && OnePerScope(BaseTagSet(facets[t]), registered) {
      MappingIsBase(facets[t], registered);
    }
  }

  /** From the schema to the field: with any accepted override table, the tags a
      property is emitted with are the reported ones, well-scoped, and accept an
      input only if the schema does, or the base tags were blind to it. */
  lemma EmittedTagsGuardTheSchema(facets: map<Target, Facets>, kinds: map<Target, string>, rows: seq<Row>, registered: set<string>,
                                  f64: real -> real, t: Target, input: Input, member: (string, Value) -> bool)
    requires facets.Keys <= kinds.Keys && RegisteredOk(registered) && CorpusOk(facets, registered) && Monotone(f64) && t in facets
    requires forall i :: 0 <= i < |rows| ==> FirstPassOk(rows[i], registered)
    requires JudgeAll(rows, Mappings(facets, kinds), registered, f64).Some?
    ensures Emitted(BaseTagSet(facets[t]), rows, t).Some?
    ensures var tags := Emitted(BaseTagSet(facets[t]), rows, t).value;
            && OnePerScope(tags, registered)
            && (FieldAccepts(facets[t], tags, input, member) ==>
                  SchemaAccepts(facets[t], input, member) || Blind(facets[t], input, member))
  {
    MappingsAreBase(facets, kinds, registered);
    GovernedTags(rows, Mappings(facets, kinds), registered, t, f64);
    var f, tags := facets[t], Emitted(BaseTagSet(facets[t]), rows, t).value;
    if BaseTagSet(f) != [] && BaseTagSet(f)[0] in OPTIONALITY { EmittedKeepsHead(BaseTagSet(f), rows, t, registered); }
    if FieldAccepts(f, tags, input, member) {
      StricterRefusesMore(f, tags, input, member);
      BaseTagsMeanTheSchema(f, input, member);
    }
  }
}
