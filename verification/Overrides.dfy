/**
 Governed tag overrides: the loader's second pass, which judges every row
 against the tag list it really composes onto, and the composition the
 emitter and the report perform on the rows it accepted.
 */
module Overrides {
  import opened Basics
  import opened Tags

  datatype Rule = Add | Tighten | OtherRule(text: string)
  datatype Row = Row(definition: string, property: string, tag: string, rule: Rule, from: string)
  datatype Target = Target(definition: string, property: string)
  datatype Mapping = Mapping(baseTags: seq<string>, goKind: string)

  function TargetOf(row: Row): Target { Target(row.definition, row.property) }

  // ---- composing one row ----

  function FirstIndex(tokens: seq<string>, x: string): (i: nat)
    ensures i <= |tokens| && (i < |tokens| ==> tokens[i] == x) && forall k :: 0 <= k < i ==> tokens[k] != x
  {
    if tokens == [] || tokens[0] == x then 0 else 1 + FirstIndex(tokens[1..], x)
  }

  /** What ApplyTagOverride composes; None is its error. */
  function Apply(base: seq<string>, row: Row): Option<seq<string>> {
    if row.tag in OPTIONALITY then None
    else
      match row.rule
      case Add => Some(base + [row.tag])
      case Tighten =>
        var i := FirstIndex(base, row.from);
        if i == |base| then None else Some(base[i := row.tag])
      case OtherRule(_) => None
  }

  method ApplyTagOverride(base: seq<string>, row: Row) returns (result: Option<seq<string>>)
    ensures result == Apply(base, row)
  {
    if row.tag == "required" || row.tag == "omitempty" { return None; }
    match row.rule
    case Add => return Some(base + [row.tag]);
    case Tighten =>
      var i := 0;
      while i < |base| && base[i] != row.from
        invariant 0 <= i <= |base| && forall k :: 0 <= k < i ==> base[k] != row.from
      {
        i := i + 1;
      }
      if i == |base| { return None; }
      return Some(base[i := row.tag]);
    case OtherRule(_) => return None;
  }

  /** MapProperty's fold: the rows of one target, in order, onto its base tags. */
  function Emitted(base: seq<string>, rows: seq<Row>, target: Target): Option<seq<string>> {
    if rows == [] then Some(base)
    else
      var before := Emitted(base, rows[..|rows| - 1], target);
      var row := rows[|rows| - 1];
      if before.None? || TargetOf(row) != target then before else Apply(before.value, row)
  }

  predicate Touched(rows: seq<Row>, target: Target) { exists i :: 0 <= i < |rows| && TargetOf(rows[i]) == target }

  // ---- families and dive scopes ----

  /** How many dives precede position `i`: the scope of the token there. */
  function Scope(tokens: seq<string>, i: nat): nat
    requires i <= |tokens|
  {
    if i == 0 then 0 else Scope(tokens, i - 1) + (if tokens[i - 1] == "dive" then 1 else 0)
  }

  function DiveCount(tokens: seq<string>): nat { Scope(tokens, |tokens|) }

  const ENUM_FAMILY := "enum value set"

  /** Every registered validator names the one value set a field can have. */
  function Family(token: string, registered: set<string>): string {
    if token in registered then ENUM_FAMILY else TagFamily(token)
  }

  datatype Key = Key(scope: int, family: string)

  function OwnershipKey(scope: nat, family: string): Key { if family == "dive" then Key(-1, family) else Key(scope, family) }

  function KeyAt(tokens: seq<string>, i: nat, registered: set<string>): Key
    requires i < |tokens|
  {
    OwnershipKey(Scope(tokens, i), Family(tokens[i], registered))
  }

  /** At most one dive, and one token per family in each scope. */
  ghost predicate OnePerScope(tokens: seq<string>, registered: set<string>) {
    forall i, j :: 0 <= i < j < |tokens| ==> KeyAt(tokens, i, registered) != KeyAt(tokens, j, registered)
  }

  /** `row` is "" for a token of the base mapping. */
  datatype Owner = Owner(token: string, row: string)

  /** Every family of the composed list has an owner in its scope. */
  ghost predicate OwnersCover(tokens: seq<string>, owners: map<Key, Owner>, registered: set<string>) {
    forall i :: 0 <= i < |tokens| ==> KeyAt(tokens, i, registered) in owners
  }

  /** Owners of the first `n` base tokens; the first of a family in a scope wins. */
  function BaseOwners(tokens: seq<string>, n: nat, registered: set<string>): map<Key, Owner>
    requires n <= |tokens|
  {
    if n == 0 then map[]
    else
      var before := BaseOwners(tokens, n - 1, registered);
      var key := KeyAt(tokens, n - 1, registered);
      if key in before then before else before[key := Owner(tokens[n - 1], "")]
  }

  lemma {:induction false} BaseOwnersCover(tokens: seq<string>, n: nat, registered: set<string>)
    requires n <= |tokens|
    ensures forall i :: 0 <= i < n ==> KeyAt(tokens, i, registered) in BaseOwners(tokens, n, registered)
  {
    if n > 0 { BaseOwnersCover(tokens, n - 1, registered); }
  }

  method BaseFamilyOwners(tokens: seq<string>, registered: set<string>) returns (owners: map<Key, Owner>)
    ensures owners == BaseOwners(tokens, |tokens|, registered)
  {
    owners := map[];
    var scope, i := 0, 0;
    while i < |tokens|
      invariant 0 <= i <= |tokens| && scope == Scope(tokens, i) && owners == BaseOwners(tokens, i, registered)
    {
      var key := OwnershipKey(scope, Family(tokens[i], registered));
      if key !in owners { owners := owners[key := Owner(tokens[i], "")]; }
      if tokens[i] == "dive" { scope := scope + 1; }
      i := i + 1;
    }
  }

  // ---- the checks of the second pass ----

  const INTEGERS := {"int", "int8", "int16", "int32", "int64", "uint", "uint8", "uint16", "uint32", "uint64"}
  const UNSIGNED := {"uint", "uint8", "uint16", "uint32", "uint64"}
  const FLOATS := {"float32", "float64"}
  const MAX_INT64 := 9223372036854775807
  const MAX_UINT64 := 18446744073709551615

  function TrimPrefix(s: string, prefix: string): string { if prefix <= s then s[|prefix|..] else s }

  predicate IsStringKind(kind: string) { TrimPrefix(kind, "*") == "string" }

  predicate IsSliceOrMap(kind: string) { "[]" <= kind || "map[" <= kind }

  /** checkBoundValueFitsGoKind: an integer field takes a whole number in range. */
  predicate BoundFits(tag: string, goKind: string) {
    var kind := TrimPrefix(goKind, "*");
    TagValue(tag).Some? && kind in INTEGERS ==>
      var value := TagValue(tag).value;
      && '.' !in value && DecimalValue(value).Some?
      && if kind in UNSIGNED then !("-" <= value) && DecimalValue(value).value <= MAX_UINT64 as real
         else -(MAX_INT64 as real) - 1.0 <= DecimalValue(value).value <= MAX_INT64 as real
  }

  predicate FieldKindOk(tag: string, goKind: string) {
    var family := TagFamily(tag);
    if family == "dive" then IsSliceOrMap(goKind)
    else if family == "gte" || family == "lte" then TrimPrefix(goKind, "*") in INTEGERS + FLOATS && BoundFits(tag, goKind)
    else if family == "max" || family == "min" then IsStringKind(goKind) || IsSliceOrMap(goKind)
    else true
  }

  predicate RegisteredTargetOk(tag: string, goKind: string, tokens: seq<string>, scope: nat, registered: set<string>) {
    tag in registered ==>
      || IsStringKind(if scope > 0 then TrimPrefix(goKind, "[]") else goKind)
      || exists i :: 0 <= i < |tokens| && Scope(tokens, i) == scope && tokens[i] in registered
  }

  function Occurrences(tokens: seq<string>, x: string): nat { multiset(tokens)[x] }

  /** Rounding to float64 keeps the order of numbers. */
  ghost predicate Monotone(f64: real -> real) { forall x, y :: x <= y ==> f64(x) <= f64(y) }

  /** checkTightenSource; the two bounds are compared as the float64 numbers
      their texts are parsed to. */
  predicate TightenSourceOk(row: Row, mapping: Mapping, tokens: seq<string>, registered: set<string>, f64: real -> real) {
    && row.from in mapping.baseTags && Occurrences(tokens, row.from) <= 1
    && Family(row.from, registered) == Family(row.tag, registered) && row.tag != row.from
    && var family := Family(row.from, registered);
       if family in FLOORS + CEILINGS then
         && Bound(row.from).Some? && Bound(row.tag).Some?
         && (family in FLOORS ==> f64(Bound(row.tag).value) > f64(Bound(row.from).value))
         && (family in CEILINGS ==> f64(Bound(row.tag).value) < f64(Bound(row.from).value))
       else row.from !in registered
  }

  /** The scope a row lands in. */
  function RowScope(row: Row, tokens: seq<string>): nat {
    if row.rule == Tighten then (var i := FirstIndex(tokens, row.from); if i < |tokens| then Scope(tokens, i) else 0)
    else DiveCount(tokens)
  }

  function RowKey(row: Row, tokens: seq<string>, registered: set<string>): Key {
    OwnershipKey(RowScope(row, tokens), Family(row.tag, registered))
  }

  /** The verdict on one row, against the list it composes onto. */
  predicate RowOk(row: Row, mapping: Mapping, tokens: seq<string>, owners: map<Key, Owner>, registered: set<string>, f64: real -> real) {
    && FieldKindOk(row.tag, mapping.goKind)
    && RegisteredTargetOk(row.tag, mapping.goKind, tokens, RowScope(row, tokens), registered)
    && var key := RowKey(row, tokens, registered);
       match row.rule
       case Tighten => TightenSourceOk(row, mapping, tokens, registered, f64) && (key in owners ==> owners[key].row == "")
       case Add => (DiveCount(tokens) > 0 ==> TagFamily(row.tag) !in {"min", "max"}) && key !in owners
       case OtherRule(_) => true
  }

  // ---- the first pass, as far as the second relies on it ----

  /** checkTagVocabulary: a dive, a well-formed bound, or a registered name. */
  predicate VocabularyOk(token: string, registered: set<string>) {
    && token !in OPTIONALITY
    && (|| token == "dive"
        || (TagFamily(token) in {"min", "max"} && TagValue(token).Some? && WholeNumber(TagValue(token).value))
        || (TagFamily(token) in {"gte", "lte"} && Bound(token).Some?)
        || token in registered)
  }

  predicate FirstPassOk(row: Row, registered: set<string>) {
    && VocabularyOk(row.tag, registered)
    && (row.rule == Add || (row.rule == Tighten && VocabularyOk(row.from, registered)))
  }

  /** Registered names are plain names, apart from the grammar's own families. */
  predicate RegisteredOk(registered: set<string>) {
    forall n :: n in registered ==> '=' !in n && n !in {"dive", "required", "omitempty", "min", "max", "gte", "lte", ENUM_FAMILY}
  }

  // ---- what an accepted row does to the tag list ----

  /** The three kinds of token a row can name. */
  lemma VocabularyFamily(token: string, registered: set<string>)
    requires RegisteredOk(registered) && VocabularyOk(token, registered)
    ensures || (token in registered && Family(token, registered) == ENUM_FAMILY)
            || (token == "dive" && Family(token, registered) == "dive")
            || (token !in registered && Family(token, registered) == TagFamily(token) && TagFamily(token) in FLOORS + CEILINGS)
  {
    if token == "dive" { FamilyOfPlain(token); }
  }

  /** An accepted tighten replaces a bound by a strictly tighter one of its family. */
  lemma TightenIsTight(row: Row, mapping: Mapping, tokens: seq<string>, registered: set<string>, f64: real -> real)
    requires Monotone(f64) && RegisteredOk(registered) && FirstPassOk(row, registered) && row.rule == Tighten
    requires TightenSourceOk(row, mapping, tokens, registered, f64)
    ensures Tightens(row.from, row.tag) && row.from !in registered && row.tag !in registered
  {
    VocabularyFamily(row.from, registered);
    VocabularyFamily(row.tag, registered);
  }

  lemma {:induction false} ScopeGrows(tokens: seq<string>, t: string, i: nat)
    requires i <= |tokens|
    ensures Scope(tokens + [t], i) == Scope(tokens, i)
  {
    if i > 0 { ScopeGrows(tokens, t, i - 1); }
  }

  lemma {:induction false} ScopeKeeps(tokens: seq<string>, k: nat, t: string, i: nat)
    requires k < |tokens| && i <= |tokens| && tokens[k] != "dive" && t != "dive"
    ensures Scope(tokens[k := t], i) == Scope(tokens, i)
  {
    if i > 0 { ScopeKeeps(tokens, k, t, i - 1); }
  }

  lemma AddKeepsScopes(tokens: seq<string>, owners: map<Key, Owner>, registered: set<string>, t: string, owner: Owner)
    requires OnePerScope(tokens, registered) && OwnersCover(tokens, owners, registered)
    requires OwnershipKey(DiveCount(tokens), Family(t, registered)) !in owners
    ensures OnePerScope(tokens + [t], registered)
    ensures OwnersCover(tokens + [t], owners[OwnershipKey(DiveCount(tokens), Family(t, registered)) := owner], registered)
  {
    var next := tokens + [t];
    ScopeGrows(tokens, t, |tokens|);
    forall i | 0 <= i < |tokens| ensures KeyAt(next, i, registered) == KeyAt(tokens, i, registered) { ScopeGrows(tokens, t, i); }
    forall i, j | 0 <= i < j < |next| ensures KeyAt(next, i, registered) != KeyAt(next, j, registered) {
      if j < |tokens| { assert KeyAt(tokens, i, registered) != KeyAt(tokens, j, registered); }
    }
  }

  lemma TightenKeepsScopes(tokens: seq<string>, owners: map<Key, Owner>, registered: set<string>, k: nat, t: string, key: Key, owner: Owner)
    requires k < |tokens| && tokens[k] != "dive" && t != "dive" && Family(tokens[k], registered) == Family(t, registered)
    requires OnePerScope(tokens, registered) && OwnersCover(tokens, owners, registered)
    ensures OnePerScope(tokens[k := t], registered) && OwnersCover(tokens[k := t], owners[key := owner], registered)
  {
    var next := tokens[k := t];
    forall i | 0 <= i < |next| ensures KeyAt(next, i, registered) == KeyAt(tokens, i, registered) { ScopeKeeps(tokens, k, t, i); }
    forall i, j | 0 <= i < j < |next| ensures KeyAt(next, i, registered) != KeyAt(next, j, registered) {
      assert KeyAt(tokens, i, registered) != KeyAt(tokens, j, registered);
    }
  }

  /** The loader's state for one target: what it has composed and who owns what. */
  ghost predicate TargetOk(base: seq<string>, tokens: seq<string>, owners: map<Key, Owner>, registered: set<string>) {
    OnePerScope(tokens, registered) && OwnersCover(tokens, owners, registered) && Stricter(tokens, base)
  }

  /** An accepted row keeps the list well-scoped and only strengthens it. */
  lemma RowKeeps(row: Row, mapping: Mapping, tokens: seq<string>, owners: map<Key, Owner>, registered: set<string>, next: seq<string>, author: string, f64: real -> real)
    requires Monotone(f64) && RegisteredOk(registered) && FirstPassOk(row, registered) && RowOk(row, mapping, tokens, owners, registered, f64)
    requires TargetOk(mapping.baseTags, tokens, owners, registered) && Apply(tokens, row) == Some(next)
    ensures TargetOk(mapping.baseTags, next, owners[RowKey(row, tokens, registered) := Owner(row.tag, author)], registered)
  {
    if row.rule == Add {
      AddKeepsScopes(tokens, owners, registered, row.tag, Owner(row.tag, author));
      forall p: bool, v: Value, member: (string, Value) -> bool | AcceptsAt(p, next, v, member) ensures AcceptsAt(p, tokens, v, member) {
        AppendAcceptsAt(p, tokens, row.tag, v, member);
      }
    } else {
      TightenIsTight(row, mapping, tokens, registered, f64);
      TightensPlain(row.from, row.tag);
      var k := FirstIndex(tokens, row.from);
      TightenKeepsScopes(tokens, owners, registered, k, row.tag, RowKey(row, tokens, registered), Owner(row.tag, author));
      forall p: bool, v: Value, member: (string, Value) -> bool | AcceptsAt(p, next, v, member) ensures AcceptsAt(p, tokens, v, member) {
        ReplaceAcceptsAt(p, tokens, k, row.tag, v, member);
      }
    }
    StricterTransitive(next, tokens, mapping.baseTags);
  }

  // ---- the loader's pass over all rows ----

  /** Tag lists and family owners of every target met so far. */
  datatype Pass = Pass(composed: map<Target, seq<string>>, owners: map<Target, map<Key, Owner>>)

  function Started(pass: Pass, target: Target, mapping: Mapping, registered: set<string>): Pass {
    if target in pass.owners then pass
    else Pass(pass.composed[target := mapping.baseTags],
              pass.owners[target := BaseOwners(mapping.baseTags, |mapping.baseTags|, registered)])
  }

  function Label(row: Row): string { row.definition + "." + row.property }

  /** One row: missing mapping, a failed check and a failed composition all reject. */
  function Judge(pass: Pass, row: Row, mappings: map<Target, Mapping>, registered: set<string>, f64: real -> real): Option<Pass> {
    var target := TargetOf(row);
    if target !in mappings then None
    else
      var now := Started(pass, target, mappings[target], registered);
      if target !in now.composed || target !in now.owners then None
      else
        var tokens, owners := now.composed[target], now.owners[target];
        if !RowOk(row, mappings[target], tokens, owners, registered, f64) then None
        else
          match Apply(tokens, row)
          case None => None
          case Some(next) =>
            Some(Pass(now.composed[target := next],
                      now.owners[target := owners[RowKey(row, tokens, registered) := Owner(row.tag, Label(row))]]))
  }

  function JudgeAll(rows: seq<Row>, mappings: map<Target, Mapping>, registered: set<string>, f64: real -> real): Option<Pass> {
    if rows == [] then Some(Pass(map[], map[]))
    else
      match JudgeAll(rows[..|rows| - 1], mappings, registered, f64)
      case None => None
      case Some(pass) => Judge(pass, rows[|rows| - 1], mappings, registered, f64)
  }

  lemma {:induction false} JudgeStops(rows: seq<Row>, i: nat, mappings: map<Target, Mapping>, registered: set<string>, f64: real -> real)
    requires i <= |rows| && JudgeAll(rows[..i], mappings, registered, f64).None?
    ensures JudgeAll(rows, mappings, registered, f64).None?
  {
    if i < |rows| {
      assert rows[..|rows| - 1][..i] == rows[..i];
      JudgeStops(rows[..|rows| - 1], i, mappings, registered, f64);
    } else {
      assert rows[..i] == rows;
    }
  }

  method JudgeRow(pass: Pass, row: Row, mappings: map<Target, Mapping>, registered: set<string>, f64: real -> real) returns (after: Option<Pass>)
    ensures after == Judge(pass, row, mappings, registered, f64)
  {
    var target := TargetOf(row);
    if target !in mappings { return None; }
    var now := Started(pass, target, mappings[target], registered);
    if target !in now.composed || target !in now.owners { return None; }
    var tokens, owners := now.composed[target], now.owners[target];
    if !RowOk(row, mappings[target], tokens, owners, registered, f64) { return None; }
    var next := ApplyTagOverride(tokens, row);
    if next.None? { return None; }
    var owner := Owner(row.tag, Label(row));
    return Some(Pass(now.composed[target := next.value], now.owners[target := owners[RowKey(row, tokens, registered) := owner]]));
  }

  method ApplySecondPassChecks(rows: seq<Row>, mappings: map<Target, Mapping>, registered: set<string>, f64: real -> real) returns (pass: Option<Pass>)
    ensures pass == JudgeAll(rows, mappings, registered, f64)
  {
    pass := Some(Pass(map[], map[]));
    var i := 0;
    while i < |rows|
      invariant 0 <= i <= |rows| && pass.Some? && JudgeAll(rows[..i], mappings, registered, f64) == pass
    {
      pass := JudgeRow(pass.value, rows[i], mappings, registered, f64);
      assert rows[..i + 1][..i] == rows[..i];
      i := i + 1;
      if pass.None? {
        JudgeStops(rows, i, mappings, registered, f64);
        return;
      }
    }
    assert rows[..i] == rows;
  }

  // ---- what the loader accepted ----

  /** Every target of the pass is well-scoped, and stricter than its base tags. */
  ghost predicate PassOk(pass: Pass, mappings: map<Target, Mapping>, registered: set<string>) {
    && pass.composed.Keys == pass.owners.Keys
    && forall t :: t in pass.composed ==> t in mappings && TargetOk(mappings[t].baseTags, pass.composed[t], pass.owners[t], registered)
  }

  /** What the base mapping guarantees: each of its lists is well-scoped. */
  ghost predicate MappingsOk(mappings: map<Target, Mapping>, registered: set<string>) {
    forall t :: t in mappings ==> OnePerScope(mappings[t].baseTags, registered)
  }

  lemma StartedOk(pass: Pass, target: Target, mappings: map<Target, Mapping>, registered: set<string>)
    requires PassOk(pass, mappings, registered) && MappingsOk(mappings, registered) && target in mappings
    ensures PassOk(Started(pass, target, mappings[target], registered), mappings, registered)
    ensures target in Started(pass, target, mappings[target], registered).composed
  {
    BaseOwnersCover(mappings[target].baseTags, |mappings[target].baseTags|, registered);
  }

  lemma JudgeOk(pass: Pass, row: Row, mappings: map<Target, Mapping>, registered: set<string>, f64: real -> real)
    requires Monotone(f64) && RegisteredOk(registered) && FirstPassOk(row, registered)
    requires PassOk(pass, mappings, registered) && MappingsOk(mappings, registered) && Judge(pass, row, mappings, registered, f64).Some?
    ensures PassOk(Judge(pass, row, mappings, registered, f64).value, mappings, registered)
  {
    var target := TargetOf(row);
    StartedOk(pass, target, mappings, registered);
    var now := Started(pass, target, mappings[target], registered);
    RowKeeps(row, mappings[target], now.composed[target], now.owners[target], registered, Apply(now.composed[target], row).value, Label(row), f64);
  }

  /** Any number of accepted rows on one property only strengthen it, and leave
      at most one dive and one token per family in each scope. */
  lemma {:induction false} AcceptedOnlyStrengthen(rows: seq<Row>, mappings: map<Target, Mapping>, registered: set<string>, f64: real -> real)
    requires Monotone(f64) && RegisteredOk(registered) && MappingsOk(mappings, registered)
    requires (forall i :: 0 <= i < |rows| ==> FirstPassOk(rows[i], registered)) && JudgeAll(rows, mappings, registered, f64).Some?
    ensures PassOk(JudgeAll(rows, mappings, registered, f64).value, mappings, registered)
  {
    if rows != [] {
      AcceptedOnlyStrengthen(rows[..|rows| - 1], mappings, registered, f64);
      JudgeOk(JudgeAll(rows[..|rows| - 1], mappings, registered, f64).value, rows[|rows| - 1], mappings, registered, f64);
    }
  }

  // ---- the report's and the emitter's folds ----

  /** composeTargetTags: the same fold without the checks. */
  function Reported(rows: seq<Row>, mappings: map<Target, Mapping>): Option<map<Target, seq<string>>> {
    if rows == [] then Some(map[])
    else
      var before := Reported(rows[..|rows| - 1], mappings);
      if before.None? then None else ReportRow(before.value, rows[|rows| - 1], mappings)
  }

  function ReportRow(now: map<Target, seq<string>>, row: Row, mappings: map<Target, Mapping>): Option<map<Target, seq<string>>> {
    var target := TargetOf(row);
    if target !in now && target !in mappings then None
    else
      match Apply(if target in now then now[target] else mappings[target].baseTags, row)
      case None => None
      case Some(next) => Some(now[target := next])
  }

  lemma ReportedNext(rows: seq<Row>, i: nat, mappings: map<Target, Mapping>)
    requires i < |rows| && Reported(rows[..i], mappings).Some?
    ensures Reported(rows[..i + 1], mappings) == ReportRow(Reported(rows[..i], mappings).value, rows[i], mappings)
  {
    assert rows[..i + 1][..i] == rows[..i];
  }

  method ComposeRow(now: map<Target, seq<string>>, row: Row, mappings: map<Target, Mapping>) returns (next: Option<map<Target, seq<string>>>)
    ensures next == ReportRow(now, row, mappings)
  {
    var target := TargetOf(row);
    var tokens := None;
    if target in now { tokens := ApplyTagOverride(now[target], row); }
    else if target in mappings { tokens := ApplyTagOverride(mappings[target].baseTags, row); }
    if tokens.None? { return None; }
    return Some(now[target := tokens.value]);
  }

  lemma {:induction false} ReportStops(rows: seq<Row>, i: nat, mappings: map<Target, Mapping>)
    requires i <= |rows| && Reported(rows[..i], mappings).None?
    ensures Reported(rows, mappings).None?
  {
    if i < |rows| {
      assert rows[..|rows| - 1][..i] == rows[..i];
      ReportStops(rows[..|rows| - 1], i, mappings);
    } else {
      assert rows[..i] == rows;
    }
  }

  method ComposeTargetTags(rows: seq<Row>, mappings: map<Target, Mapping>) returns (composed: Option<map<Target, seq<string>>>)
    ensures composed == Reported(rows, mappings)
  {
    var now: map<Target, seq<string>> := map[];
    var i := 0;
    while i < |rows|
      invariant 0 <= i <= |rows| && Reported(rows[..i], mappings) == Some(now)
    {
      var next := ComposeRow(now, rows[i], mappings);
      ReportedNext(rows, i, mappings);
      if next.None? {
        ReportStops(rows, i + 1, mappings);
        return None;
      }
      now := next.value;
      i := i + 1;
    }
    assert rows[..i] == rows;
    return Some(now);
  }

  ghost predicate ReportAgrees(rows: seq<Row>, mappings: map<Target, Mapping>, pass: Pass) {
    Reported(rows, mappings) == Some(pass.composed) && pass.composed.Keys == pass.owners.Keys
  }

  /** The emitter ends up with the loader's list for a target that has rows,
      and with the base tags for one that has none. */
  ghost predicate EmitterAgrees(rows: seq<Row>, mappings: map<Target, Mapping>, pass: Pass, t: Target) {
    && (t in pass.composed <==> Touched(rows, t))
    && (t in pass.composed ==> t in mappings && Emitted(mappings[t].baseTags, rows, t) == Some(pass.composed[t]))
    && (t in mappings && t !in pass.composed ==> Emitted(mappings[t].baseTags, rows, t) == Some(mappings[t].baseTags))
  }

  lemma TouchedGrows(rows: seq<Row>, t: Target)
    requires rows != []
    ensures Touched(rows, t) <==> Touched(rows[..|rows| - 1], t) || TargetOf(rows[|rows| - 1]) == t
  {
    var rest := rows[..|rows| - 1];
    if i :| 0 <= i < |rows| && TargetOf(rows[i]) == t { if i < |rest| { assert TargetOf(rest[i]) == t; } }
    if i :| 0 <= i < |rest| && TargetOf(rest[i]) == t { assert TargetOf(rows[i]) == t; }
  }

  /** What an accepted row changes in the loader's pass. */
  lemma JudgeShape(before: Pass, row: Row, mappings: map<Target, Mapping>, registered: set<string>, after: Pass, f64: real -> real)
    requires before.composed.Keys == before.owners.Keys && Judge(before, row, mappings, registered, f64) == Some(after)
    ensures var t := TargetOf(row);
            && t in mappings && t in after.composed
            && after.composed == before.composed[t := after.composed[t]]
            && after.composed.Keys == after.owners.Keys
            && Apply(if t in before.composed then before.composed[t] else mappings[t].baseTags, row) == Some(after.composed[t])
  {
    var t := TargetOf(row);
    var now := Started(before, t, mappings[t], registered);
    assert now.composed.Keys == before.composed.Keys + {t} && now.owners.Keys == before.owners.Keys + {t};
  }

  lemma ReportStep(rows: seq<Row>, mappings: map<Target, Mapping>, registered: set<string>, before: Pass, after: Pass, f64: real -> real)
    requires rows != [] && ReportAgrees(rows[..|rows| - 1], mappings, before)
    requires Judge(before, rows[|rows| - 1], mappings, registered, f64) == Some(after)
    ensures ReportAgrees(rows, mappings, after)
  {
    JudgeShape(before, rows[|rows| - 1], mappings, registered, after, f64);
  }

  lemma EmitterStep(rows: seq<Row>, mappings: map<Target, Mapping>, registered: set<string>, before: Pass, after: Pass, t: Target, f64: real -> real)
    requires rows != [] && before.composed.Keys == before.owners.Keys
    requires EmitterAgrees(rows[..|rows| - 1], mappings, before, t)
    requires Judge(before, rows[|rows| - 1], mappings, registered, f64) == Some(after)
    ensures EmitterAgrees(rows, mappings, after, t)
  {
    TouchedGrows(rows, t);
  }

  /** For accepted rows all three folds succeed with the same token lists: the
      loader's, the report's, and the emitter's for every target. */
  lemma {:induction false} FoldsAgree(rows: seq<Row>, mappings: map<Target, Mapping>, registered: set<string>, t: Target, f64: real -> real)
    requires JudgeAll(rows, mappings, registered, f64).Some?
    ensures ReportAgrees(rows, mappings, JudgeAll(rows, mappings, registered, f64).value)
    ensures EmitterAgrees(rows, mappings, JudgeAll(rows, mappings, registered, f64).value, t)
  {
    if rows != [] {
      var before := JudgeAll(rows[..|rows| - 1], mappings, registered, f64).value;
      var after := JudgeAll(rows, mappings, registered, f64).value;
      FoldsAgree(rows[..|rows| - 1], mappings, registered, t, f64);
      ReportStep(rows, mappings, registered, before, after, f64);
      EmitterStep(rows, mappings, registered, before, after, t, f64);
    }
  }

  /** What governance promises of an accepted table, for every property: the
      field is emitted with the list the loader judged and the report prints,
      that list is stricter than the base tags, and it has at most one dive and
      one token per family in each scope. */
  lemma GovernedTags(rows: seq<Row>, mappings: map<Target, Mapping>, registered: set<string>, t: Target, f64: real -> real)
    requires Monotone(f64) && RegisteredOk(registered) && MappingsOk(mappings, registered) && t in mappings
    requires (forall i :: 0 <= i < |rows| ==> FirstPassOk(rows[i], registered)) && JudgeAll(rows, mappings, registered, f64).Some?
    ensures Emitted(mappings[t].baseTags, rows, t).Some? && Reported(rows, mappings).Some?
    ensures var tags := Emitted(mappings[t].baseTags, rows, t).value;
            && OnePerScope(tags, registered) && Stricter(tags, mappings[t].baseTags)
            && (Touched(rows, t) ==> t in Reported(rows, mappings).value && Reported(rows, mappings).value[t] == tags)
            && (!Touched(rows, t) ==> tags == mappings[t].baseTags)
  {
    AcceptedOnlyStrengthen(rows, mappings, registered, f64);
    FoldsAgree(rows, mappings, registered, t, f64);
  }

  // ---- when the composition of a checked row fails ----

  /** A row that passed every check fails to compose exactly when it tightens a
      token that is not in the list any more. */
  lemma ComposeFails(row: Row, mapping: Mapping, tokens: seq<string>, owners: map<Key, Owner>, registered: set<string>, f64: real -> real)
    requires FirstPassOk(row, registered) && RowOk(row, mapping, tokens, owners, registered, f64)
    ensures Apply(tokens, row).None? <==> row.rule == Tighten && row.from !in tokens
  {
  }

  /** The list the next row of `t` composes onto. */
  function ListOf(pass: Pass, t: Target, mappings: map<Target, Mapping>): seq<string>
    requires t in mappings
  {
    if t in pass.composed then pass.composed[t] else mappings[t].baseTags
  }

  /** Row `i` tightened the token `x` of `t` away. */
  predicate ReplacedAt(rows: seq<Row>, i: nat, mappings: map<Target, Mapping>, registered: set<string>, f64: real -> real, t: Target, x: string) {
    && i < |rows| && TargetOf(rows[i]) == t && t in mappings && rows[i].rule == Tighten && rows[i].from == x
    && JudgeAll(rows[..i], mappings, registered, f64).Some?
  }

  /** ... and found it behind a dive. */
  predicate BehindDive(rows: seq<Row>, i: nat, mappings: map<Target, Mapping>, registered: set<string>, f64: real -> real, t: Target, x: string) {
    && ReplacedAt(rows, i, mappings, registered, f64, t, x)
    && RowScope(rows[i], ListOf(JudgeAll(rows[..i], mappings, registered, f64).value, t, mappings)) > 0
  }

  predicate TakenOver(owners: map<Key, Owner>, key: Key) { key in owners && owners[key].row != "" }

  /** Who took the base token `x` of `t` away: a row that found it behind a dive,
      or one that now owns its family in front. */
  ghost predicate Explained(rows: seq<Row>, mappings: map<Target, Mapping>, registered: set<string>, f64: real -> real, pass: Pass, t: Target, x: string) {
    exists i: nat :: ReplacedAt(rows, i, mappings, registered, f64, t, x) &&
      (|| BehindDive(rows, i, mappings, registered, f64, t, x)
       || (t in pass.owners && TakenOver(pass.owners[t], OwnershipKey(0, Family(x, registered)))))
  }

  /** What a prefix of the table did stays done. */
  lemma PrefixStays(rows: seq<Row>, i: nat, mappings: map<Target, Mapping>, registered: set<string>, f64: real -> real, t: Target, x: string)
    requires rows != []
    ensures ReplacedAt(rows[..|rows| - 1], i, mappings, registered, f64, t, x) ==> ReplacedAt(rows, i, mappings, registered, f64, t, x)
    ensures BehindDive(rows[..|rows| - 1], i, mappings, registered, f64, t, x) ==> BehindDive(rows, i, mappings, registered, f64, t, x)
  {
    var rest := rows[..|rows| - 1];
    if i < |rest| { assert rest[..i] == rows[..i] && rest[i] == rows[i]; }
  }

  /** A row never gives a family back to the base mapping. */
  lemma StaysTakenOver(before: Pass, row: Row, mappings: map<Target, Mapping>, registered: set<string>, f64: real -> real, after: Pass, t: Target, key: Key)
    requires Judge(before, row, mappings, registered, f64) == Some(after) && t in before.owners && TakenOver(before.owners[t], key)
    ensures t in after.owners && TakenOver(after.owners[t], key)
  {
    assert |Label(row)| > 0;
  }

  /** One more row of any target keeps the explanation. */
  lemma StillExplained(rows: seq<Row>, mappings: map<Target, Mapping>, registered: set<string>, f64: real -> real, before: Pass, after: Pass, t: Target, x: string)
    requires rows != [] && Judge(before, rows[|rows| - 1], mappings, registered, f64) == Some(after)
    requires Explained(rows[..|rows| - 1], mappings, registered, f64, before, t, x)
    ensures Explained(rows, mappings, registered, f64, after, t, x)
  {
    var rest, key := rows[..|rows| - 1], OwnershipKey(0, Family(x, registered));
    var i: nat :| ReplacedAt(rest, i, mappings, registered, f64, t, x) &&
      (BehindDive(rest, i, mappings, registered, f64, t, x) || (t in before.owners && TakenOver(before.owners[t], key)));
    PrefixStays(rows, i, mappings, registered, f64, t, x);
    if t in before.owners && TakenOver(before.owners[t], key) {
      StaysTakenOver(before, rows[|rows| - 1], mappings, registered, f64, after, t, key);
    }
  }

  lemma KeepsOthers(tokens: seq<string>, row: Row, next: seq<string>, x: string)
    requires Apply(tokens, row) == Some(next) && x in tokens && !(row.rule == Tighten && row.from == x)
    ensures x in next
  {
    var k :| 0 <= k < |tokens| && tokens[k] == x;
    assert next[k] == x;
  }

  /** A token is lost only by the tighten that names it. */
  lemma LosesItsOwn(tokens: seq<string>, row: Row, next: seq<string>, x: string)
    requires Apply(tokens, row) == Some(next) && x in tokens && x !in next
    ensures row.rule == Tighten && row.from == x
  {
    if !(row.rule == Tighten && row.from == x) { KeepsOthers(tokens, row, next, x); }
  }

  lemma NewlyExplained(rows: seq<Row>, mappings: map<Target, Mapping>, registered: set<string>, f64: real -> real, before: Pass, after: Pass, t: Target, x: string)
    requires rows != [] && JudgeAll(rows[..|rows| - 1], mappings, registered, f64) == Some(before)
    requires before.composed.Keys == before.owners.Keys && TargetOf(rows[|rows| - 1]) == t
    requires Judge(before, rows[|rows| - 1], mappings, registered, f64) == Some(after)
    requires x in ListOf(before, t, mappings) && t in after.composed && x !in after.composed[t]
    ensures Explained(rows, mappings, registered, f64, after, t, x)
  {
    var row, tokens := rows[|rows| - 1], ListOf(before, t, mappings);
    JudgeShape(before, row, mappings, registered, after, f64);
    LosesItsOwn(tokens, row, after.composed[t], x);
    assert |Label(row)| > 0;
    assert ReplacedAt(rows, |rows| - 1, mappings, registered, f64, t, x);
    assert RowScope(row, tokens) > 0 ==> BehindDive(rows, |rows| - 1, mappings, registered, f64, t, x);
  }

  lemma {:induction false} LossIsExplained(rows: seq<Row>, mappings: map<Target, Mapping>, registered: set<string>, f64: real -> real, t: Target, x: string)
    requires JudgeAll(rows, mappings, registered, f64).Some? && t in JudgeAll(rows, mappings, registered, f64).value.composed && t in mappings
    requires x in mappings[t].baseTags && x !in JudgeAll(rows, mappings, registered, f64).value.composed[t]
    ensures Explained(rows, mappings, registered, f64, JudgeAll(rows, mappings, registered, f64).value, t, x)
  {
    var after := JudgeAll(rows, mappings, registered, f64).value;
    if rows != [] {
      var before := JudgeAll(rows[..|rows| - 1], mappings, registered, f64).value;
      FoldsAgree(rows[..|rows| - 1], mappings, registered, t, f64);
      JudgeShape(before, rows[|rows| - 1], mappings, registered, after, f64);
      if x in ListOf(before, t, mappings) {
        NewlyExplained(rows, mappings, registered, f64, before, after, t, x);
      } else {
        LossIsExplained(rows[..|rows| - 1], mappings, registered, f64, t, x);
        StillExplained(rows, mappings, registered, f64, before, after, t, x);
      }
    }
  }

  /** When a row passes every check and still fails to compose, an earlier row of
      the same target tightened the same base token, and found it behind a dive. */
  lemma FailsOnlyBehindDive(rows: seq<Row>, row: Row, mappings: map<Target, Mapping>, registered: set<string>, f64: real -> real) returns (i: nat)
    requires JudgeAll(rows, mappings, registered, f64).Some? && TargetOf(row) in mappings && FirstPassOk(row, registered)
    requires var t := TargetOf(row); var now := Started(JudgeAll(rows, mappings, registered, f64).value, t, mappings[t], registered);
             && t in now.composed && t in now.owners && RowOk(row, mappings[t], now.composed[t], now.owners[t], registered, f64)
             && Apply(now.composed[t], row).None?
    ensures BehindDive(rows, i, mappings, registered, f64, TargetOf(row), row.from)
  {
    var t, pass := TargetOf(row), JudgeAll(rows, mappings, registered, f64).value;
    var now := Started(pass, t, mappings[t], registered);
    FoldsAgree(rows, mappings, registered, t, f64);
    ComposeFails(row, mappings[t], now.composed[t], now.owners[t], registered, f64);
    assert t in pass.composed && now == pass;
    LossIsExplained(rows, mappings, registered, f64, t, row.from);
    assert !TakenOver(pass.owners[t], OwnershipKey(0, Family(row.from, registered)));
    i :| ReplacedAt(rows, i, mappings, registered, f64, t, row.from) && BehindDive(rows, i, mappings, registered, f64, t, row.from);
  }
}
