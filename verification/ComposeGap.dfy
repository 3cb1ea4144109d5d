/**
 A row that passes every check of the second pass and cannot be composed: the
 input behind `Overrides.ComposeFails` and `Overrides.FailsOnlyBehindDive`.
 */
module ComposeGap {
  import opened Basics
  import opened Tags
  import opened Overrides
  import opened BaseTags

  /** Small whole numbers are float64 numbers. */
  function Exact(x: real): real { x }

  function Ceiling(n: nat): string { Valued("max", Digits(n)) }

  lemma CeilingIs(n: nat)
    ensures TagFamily(Ceiling(n)) == "max" && Bound(Ceiling(n)) == Some(n as real) && Family(Ceiling(n), {}) == "max"
    ensures TagValue(Ceiling(n)).Some? && WholeNumber(TagValue(Ceiling(n)).value)
    ensures Ceiling(n) !in OPTIONALITY && Ceiling(n) != "dive"
  {
    FamiliesPlain("max");
    ValuedParts("max", Digits(n));
    ValuedIsPlain("max", Digits(n), {});
    RenderedNumber(n);
    DigitsOk(n);
  }

  /** The tags of a list of texts of length at most `n`. */
  function BoundedTexts(n: nat): seq<string> { ["omitempty", "dive", Ceiling(n)] }

  function Lowers(n: nat, m: nat): Row { Row("D", "p", Ceiling(m), Tighten, Ceiling(n)) }

  lemma ScopesOf(n: nat)
    ensures Scope(BoundedTexts(n), 0) == 0 && Scope(BoundedTexts(n), 1) == 0 && Scope(BoundedTexts(n), 2) == 1
    ensures KeyAt(BoundedTexts(n), 0, {}) == Key(0, "omitempty") && KeyAt(BoundedTexts(n), 1, {}) == Key(-1, "dive")
    ensures KeyAt(BoundedTexts(n), 2, {}) == Key(1, "max")
  {
    CeilingIs(n);
    FamilyOfPlain("omitempty");
    FamilyOfPlain("dive");
    assert BoundedTexts(n)[0] == "omitempty" && BoundedTexts(n)[1] == "dive";
  }

  lemma OwnersOf(n: nat)
    ensures var owners := BaseOwners(BoundedTexts(n), 3, {});
            owners.Keys == {Key(0, "omitempty"), Key(-1, "dive"), Key(1, "max")} && forall k :: k in owners ==> owners[k].row == ""
  {
    ScopesOf(n);
    OwnersOfThree(BoundedTexts(n), Key(0, "omitempty"), Key(-1, "dive"), Key(1, "max"));
  }

  lemma OwnersOfThree(tokens: seq<string>, a: Key, b: Key, c: Key)
    requires |tokens| == 3 && KeyAt(tokens, 0, {}) == a && KeyAt(tokens, 1, {}) == b && KeyAt(tokens, 2, {}) == c && a != b && b != c && a != c
    ensures var owners := BaseOwners(tokens, 3, {}); owners.Keys == {a, b, c} && forall k :: k in owners ==> owners[k].row == ""
  {
    assert BaseOwners(tokens, 0, {}) == map[];
    var one := BaseOwners(tokens, 1, {});
    assert one == map[a := Owner(tokens[0], "")];
    var two := BaseOwners(tokens, 2, {});
    assert two == one[b := Owner(tokens[1], "")];
    var three := BaseOwners(tokens, 3, {});
    assert three == two[c := Owner(tokens[2], "")];
  }

  /** Different ceilings are different tokens. */
  lemma CeilingsDiffer(n: nat, m: nat)
    requires n != m
    ensures Ceiling(n) != Ceiling(m) && BoundedTexts(m)[0] != Ceiling(n) && BoundedTexts(m)[1] != Ceiling(n)
  {
    CeilingIs(n);
    CeilingIs(m);
  }

  lemma LowersFromHere(n: nat, m: nat)
    requires m < n
    ensures FirstIndex(BoundedTexts(n), Ceiling(n)) == 2 && Apply(BoundedTexts(n), Lowers(n, m)) == Some(BoundedTexts(m))
  {
    CeilingIs(n);
    CeilingIs(m);
    var base := BoundedTexts(n);
    assert base[0] != Ceiling(n) && base[1] != Ceiling(n) && base[2] == Ceiling(n);
    assert base[2 := Ceiling(m)] == BoundedTexts(m);
  }

  /** The source check of a lowering row looks at the base list only. */
  lemma SourceOk(n: nat, m: nat, k: nat)
    requires m < n
    ensures TightenSourceOk(Lowers(n, m), Mapping(BoundedTexts(n), "[]string"), BoundedTexts(k), {}, Exact)
  {
    CeilingIs(n);
    CeilingIs(m);
    CeilingIs(k);
    AtMostOnce(n, k);
    assert BoundedTexts(n)[2] == Ceiling(n);
  }

  lemma AtMostOnce(n: nat, k: nat)
    ensures Occurrences(BoundedTexts(k), Ceiling(n)) <= 1
  {
    CeilingIs(n);
    CeilingIs(k);
    if k != n { CeilingsDiffer(n, k); }
    assert multiset(BoundedTexts(k)) == multiset{"omitempty", "dive", Ceiling(k)};
  }

  lemma KindOk(m: nat)
    ensures FieldKindOk(Ceiling(m), "[]string")
  {
    CeilingIs(m);
    assert "[]" <= "[]string";
  }

  lemma FirstRowOk()
    ensures RowOk(Lowers(10, 4), Mapping(BoundedTexts(10), "[]string"), BoundedTexts(10), BaseOwners(BoundedTexts(10), 3, {}), {}, Exact)
    ensures RowKey(Lowers(10, 4), BoundedTexts(10), {}) == Key(1, "max")
  {
    LowersFromHere(10, 4);
    ScopesOf(10);
    CeilingIs(4);
    SourceOk(10, 4, 10);
    KindOk(4);
    OwnersOf(10);
  }

  lemma SecondRowOk(owners: map<Key, Owner>)
    requires Key(0, "max") !in owners
    ensures RowOk(Lowers(10, 5), Mapping(BoundedTexts(10), "[]string"), BoundedTexts(4), owners, {}, Exact)
    ensures Apply(BoundedTexts(4), Lowers(10, 5)).None?
  {
    NotAnyMore(10, 4);
    CeilingIs(5);
    SourceOk(10, 5, 4);
    KindOk(5);
    PassesUnseen(Lowers(10, 5), Mapping(BoundedTexts(10), "[]string"), BoundedTexts(4), owners, Exact);
  }

  lemma NotAnyMore(n: nat, m: nat)
    requires n != m
    ensures Ceiling(n) !in BoundedTexts(m)
  {
    CeilingsDiffer(n, m);
  }

  /** A tighten whose token is gone is judged as if it were in front of dive. */
  lemma PassesUnseen(row: Row, mapping: Mapping, tokens: seq<string>, owners: map<Key, Owner>, f64: real -> real)
    requires row.rule == Tighten && row.from !in tokens && FieldKindOk(row.tag, mapping.goKind)
    requires TightenSourceOk(row, mapping, tokens, {}, f64) && OwnershipKey(0, Family(row.tag, {})) !in owners
    ensures RowOk(row, mapping, tokens, owners, {}, f64) && Apply(tokens, row).None?
  {
  }

  lemma LoweringIsVocabulary(n: nat, m: nat)
    ensures FirstPassOk(Lowers(n, m), {})
  {
    CeilingIs(n);
    CeilingIs(m);
  }

  lemma NoFrontCeiling(n: nat)
    ensures Key(0, "max") !in BaseOwners(BoundedTexts(n), 3, {})
  {
    OwnersOf(n);
    assert |"max"| == 3 && |"omitempty"| == 9;
    assert Key(0, "max") != Key(0, "omitempty") && Key(0, "max") != Key(-1, "dive") && Key(0, "max") != Key(1, "max");
  }

  /** `second` passes every check after `first`, and cannot be composed. */
  ghost predicate FailsAfter(first: Row, second: Row, mapping: Mapping, now: seq<string>, f64: real -> real) {
    var owners := BaseOwners(mapping.baseTags, |mapping.baseTags|, {});
    && FirstPassOk(first, {}) && FirstPassOk(second, {})
    && RowOk(first, mapping, mapping.baseTags, owners, {}, f64) && Apply(mapping.baseTags, first) == Some(now)
    && RowOk(second, mapping, now, owners[RowKey(first, mapping.baseTags, {}) := Owner(first.tag, Label(first))], {}, f64)
    && Apply(now, second).None?
  }

  lemma FailsAfterParts(first: Row, second: Row, mapping: Mapping, now: seq<string>, owners: map<Key, Owner>, key: Key, f64: real -> real)
    requires owners == BaseOwners(mapping.baseTags, |mapping.baseTags|, {}) && key == RowKey(first, mapping.baseTags, {})
    requires FirstPassOk(first, {}) && FirstPassOk(second, {})
    requires RowOk(first, mapping, mapping.baseTags, owners, {}, f64) && Apply(mapping.baseTags, first) == Some(now)
    requires RowOk(second, mapping, now, owners[key := Owner(first.tag, Label(first))], {}, f64) && Apply(now, second).None?
    ensures FailsAfter(first, second, mapping, now, f64)
  {
  }

  /** On a list of texts of length at most 10, after a row that lowered 10 to 4,
      a row that lowers 10 to 5 passes every check and cannot be composed. */
  lemma CheckedRowCanFail()
    ensures FailsAfter(Lowers(10, 4), Lowers(10, 5), Mapping(BoundedTexts(10), "[]string"), BoundedTexts(4), Exact)
  {
    var owners := BaseOwners(BoundedTexts(10), 3, {});
    LoweringIsVocabulary(10, 4);
    LoweringIsVocabulary(10, 5);
    FirstRowOk();
    LowersFromHere(10, 4);
    NoFrontCeiling(10);
    SecondRowOk(owners[Key(1, "max") := Owner(Ceiling(4), Label(Lowers(10, 4)))]);
    FailsAfterParts(Lowers(10, 4), Lowers(10, 5), Mapping(BoundedTexts(10), "[]string"), BoundedTexts(4), owners, Key(1, "max"), Exact);
  }
}
