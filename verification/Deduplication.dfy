/**
 Deduplicate: same-named definitions from different files are merged when
 their structure agrees, and the run fails otherwise. Verdict and output do
 not depend on the order of the input.
 */
module Deduplication {
  import opened Basics
  import opened Names
  import opened SchemaGraph

  /** definitionsStructurallyEqual: everything but the values of an object,
      the properties of an enum and where the definition came from. */
  predicate StructurallyEqual(a: Definition, b: Definition) {
    && a.kind == b.kind && a.additionalProperties == b.additionalProperties
    && if a.kind == EnumKind then a.values == b.values
       else |a.properties| == |b.properties| && forall i :: 0 <= i < |a.properties| ==> a.properties[i] == b.properties[i]
  }

  /** Same-named definitions agree pairwise. */
  predicate Agree(definitions: seq<Definition>) {
    forall i, j :: 0 <= i < |definitions| && 0 <= j < |definitions| && definitions[i].name == definitions[j].name ==>
      StructurallyEqual(definitions[i], definitions[j])
  }

  function FilesOf(definitions: seq<Definition>, n: string): set<string> {
    set i, f | 0 <= i < |definitions| && definitions[i].name == n && f in definitions[i].files :: f
  }

  function NamesOf(definitions: seq<Definition>): set<string> { set i | 0 <= i < |definitions| :: definitions[i].name }

  /** `d` is the first definition of its name. */
  ghost predicate First(definitions: seq<Definition>, d: Definition) {
    exists i :: 0 <= i < |definitions| && definitions[i] == d && forall j :: 0 <= j < i ==> definitions[j].name != d.name
  }

  function ResultNames(result: seq<Definition>): seq<string> { seq(|result|, i requires 0 <= i < |result| => result[i].name) }

  /** What a definition is, apart from where it was found. */
  function Core(d: Definition): Definition { d.(files := [], occurrences := 0) }

  /** `m` is the merge of all definitions of its name. */
  ghost predicate Merges(definitions: seq<Definition>, m: Definition) {
    && Lists(m.files, FilesOf(definitions, m.name)) && m.occurrences == |m.files|
    && exists d :: First(definitions, d) && Core(d) == Core(m)
  }

  /** One merged definition per name, in name order. */
  ghost predicate IsMerged(definitions: seq<Definition>, result: seq<Definition>) {
    && Lists(ResultNames(result), NamesOf(definitions))
    && forall k :: 0 <= k < |result| ==> Merges(definitions, result[k])
  }

  lemma FilesGrow(definitions: seq<Definition>, d: Definition, n: string)
    ensures FilesOf(definitions + [d], n) == FilesOf(definitions, n) + (if d.name == n then set f | f in d.files else {})
  {
    var more := definitions + [d];
    forall f | f in FilesOf(definitions, n) ensures f in FilesOf(more, n) {
      var i :| 0 <= i < |definitions| && definitions[i].name == n && f in definitions[i].files;
      assert more[i] == definitions[i];
    }
    if d.name == n {
      forall f | f in d.files ensures f in FilesOf(more, n) { assert more[|definitions|] == d; }
    }
  }

  lemma NamesGrow(definitions: seq<Definition>, d: Definition)
    ensures NamesOf(definitions + [d]) == NamesOf(definitions) + {d.name}
  {
    var more := definitions + [d];
    forall i | 0 <= i < |definitions| ensures definitions[i].name in NamesOf(more) { assert more[i] == definitions[i]; }
    assert more[|definitions|] == d;
  }

  /** What the grouping loop has gathered from the definitions read so far. */
  ghost predicate FirstsOk(definitions: seq<Definition>, canonical: map<string, Definition>) {
    && canonical.Keys == NamesOf(definitions)
    && forall n :: n in canonical ==> canonical[n].name == n && First(definitions, canonical[n])
  }

  ghost predicate FilesOk(definitions: seq<Definition>, files: map<string, set<string>>) {
    && files.Keys == NamesOf(definitions)
    && forall n :: n in files ==> files[n] == FilesOf(definitions, n)
  }

  lemma FirstStays(definitions: seq<Definition>, d: Definition, x: Definition)
    requires First(definitions, d)
    ensures First(definitions + [x], d)
  {
    var i :| 0 <= i < |definitions| && definitions[i] == d && forall j :: 0 <= j < i ==> definitions[j].name != d.name;
    assert (definitions + [x])[i] == d && forall j :: 0 <= j < i ==> (definitions + [x])[j].name != d.name;
  }

  function WithFirst(canonical: map<string, Definition>, d: Definition): map<string, Definition> {
    if d.name in canonical then canonical else canonical[d.name := d]
  }

  function WithFiles(files: map<string, set<string>>, d: Definition): map<string, set<string>> {
    files[d.name := (if d.name in files then files[d.name] else {}) + set x | x in d.files]
  }

  lemma FirstsGrow(definitions: seq<Definition>, canonical: map<string, Definition>, d: Definition)
    requires FirstsOk(definitions, canonical)
    ensures FirstsOk(definitions + [d], WithFirst(canonical, d))
  {
    var more := definitions + [d];
    NamesGrow(definitions, d);
    forall n | n in canonical ensures First(more, canonical[n]) { FirstStays(definitions, canonical[n], d); }
    if d.name !in canonical {
      assert more[|definitions|] == d && forall j :: 0 <= j < |definitions| ==> more[j].name in NamesOf(definitions);
      assert First(more, d);
    }
  }

  lemma FilesOkGrows(definitions: seq<Definition>, files: map<string, set<string>>, d: Definition)
    requires FilesOk(definitions, files)
    ensures FilesOk(definitions + [d], WithFiles(files, d))
  {
    NamesGrow(definitions, d);
    forall n ensures FilesOf(definitions + [d], n) == FilesOf(definitions, n) + (if d.name == n then set f | f in d.files else {}) {
      FilesGrow(definitions, d, n);
    }
    if d.name !in files { assert FilesOf(definitions, d.name) == {}; }
  }

  lemma AgreeGrows(definitions: seq<Definition>, canonical: Definition, d: Definition)
    requires Agree(definitions) && First(definitions, canonical) && canonical.name == d.name && StructurallyEqual(canonical, d)
    ensures Agree(definitions + [d])
  {
    var more := definitions + [d];
    var c :| 0 <= c < |definitions| && definitions[c] == canonical;
    forall i, j | 0 <= i < |more| && 0 <= j < |more| && more[i].name == more[j].name ensures StructurallyEqual(more[i], more[j]) {
      if i < |definitions| && j < |definitions| {
        assert StructurallyEqual(definitions[i], definitions[j]);
      } else if i < |definitions| {
        assert StructurallyEqual(definitions[i], definitions[c]);
      } else if j < |definitions| {
        assert StructurallyEqual(definitions[c], definitions[j]);
      }
    }
  }

  lemma AgreeFresh(definitions: seq<Definition>, d: Definition)
    requires Agree(definitions) && d.name !in NamesOf(definitions)
    ensures Agree(definitions + [d])
  {
    var more := definitions + [d];
    assert forall k :: 0 <= k < |definitions| ==> definitions[k].name in NamesOf(definitions);
    forall i, j | 0 <= i < |more| && 0 <= j < |more| && more[i].name == more[j].name ensures StructurallyEqual(more[i], more[j]) {
      if i < |definitions| && j < |definitions| { assert StructurallyEqual(definitions[i], definitions[j]); }
    }
  }

  /** The state of the grouping loop after the first `i` definitions. */
  ghost predicate Gathered(definitions: seq<Definition>, i: nat, canonical: map<string, Definition>, files: map<string, set<string>>)
    requires i <= |definitions|
  {
    Agree(definitions[..i]) && FirstsOk(definitions[..i], canonical) && FilesOk(definitions[..i], files)
  }

  method Deduplicate(definitions: seq<Definition>) returns (result: Option<seq<Definition>>)
    ensures result.Some? <==> Agree(definitions)
    ensures result.Some? ==> IsMerged(definitions, result.value)
  {
    var canonical: map<string, Definition>, files: map<string, set<string>> := map[], map[];
    var i := 0;
    while i < |definitions|
      invariant 0 <= i <= |definitions| && Gathered(definitions, i, canonical, files)
    {
      var d := definitions[i];
      if d.name in canonical && !StructurallyEqual(canonical[d.name], d) {
        Rejects(definitions, i, canonical, files);
        return None;
      }
      Accepts(definitions, i, canonical, files);
      canonical := WithFirst(canonical, d);
      files := WithFiles(files, d);
      i := i + 1;
    }
    assert definitions[..i] == definitions;
    var merged := Assemble(definitions, canonical, files);
    return Some(merged);
  }

  lemma Rejects(definitions: seq<Definition>, i: nat, canonical: map<string, Definition>, files: map<string, set<string>>)
    requires i < |definitions| && Gathered(definitions, i, canonical, files) && definitions[i].name in canonical
    requires !StructurallyEqual(canonical[definitions[i].name], definitions[i])
    ensures !Agree(definitions)
  {
    var first := canonical[definitions[i].name];
    assert First(definitions[..i], first);
    var c :| 0 <= c < i && definitions[..i][c] == first;
    assert definitions[c] == first;
  }

  lemma Accepts(definitions: seq<Definition>, i: nat, canonical: map<string, Definition>, files: map<string, set<string>>)
    requires i < |definitions| && Gathered(definitions, i, canonical, files)
    requires definitions[i].name in canonical ==> StructurallyEqual(canonical[definitions[i].name], definitions[i])
    ensures Gathered(definitions, i + 1, WithFirst(canonical, definitions[i]), WithFiles(files, definitions[i]))
  {
    var d := definitions[i];
    assert definitions[..i] + [d] == definitions[..i + 1];
    FirstsGrow(definitions[..i], canonical, d);
    FilesOkGrows(definitions[..i], files, d);
    if d.name in canonical { AgreeGrows(definitions[..i], canonical[d.name], d); } else { AgreeFresh(definitions[..i], d); }
  }

  method Assemble(ghost definitions: seq<Definition>, canonical: map<string, Definition>, files: map<string, set<string>>)
      returns (result: seq<Definition>)
    requires FirstsOk(definitions, canonical) && FilesOk(definitions, files)
    ensures IsMerged(definitions, result)
  {
    var order := Sorted(canonical.Keys);
    result := [];
    var k := 0;
    while k < |order|
      invariant 0 <= k <= |order| && |result| == k && ResultNames(result) == order[..k]
      invariant forall j :: 0 <= j < k ==> Merges(definitions, result[j])
    {
      var n := order[k];
      assert n in canonical.Keys;
      var listed := Sorted(files[n]);
      var m := canonical[n].(files := listed, occurrences := |listed|);
      assert Core(m) == Core(canonical[n]);
      assert Merges(definitions, m);
      result := result + [m];
      assert ResultNames(result) == order[..k] + [n];
      k := k + 1;
    }
    assert order[..k] == order;
  }

  // ---- order does not matter ----

  /** How the schema reader builds definitions: an enum has no properties, an
      object no values, and one name is reserved. */
  predicate ReaderBuilt(d: Definition) {
    && (d.kind == EnumKind ==> d.properties == [])
    && (d.kind != EnumKind ==> d.values == [])
    && (d.reserved <==> d.name == "CustomDataType")
  }

  ghost predicate SameDefinitions(a: seq<Definition>, b: seq<Definition>) { forall d :: d in a <==> d in b }

  lemma CoreDetermined(a: Definition, b: Definition)
    requires ReaderBuilt(a) && ReaderBuilt(b) && a.name == b.name && StructurallyEqual(a, b)
    ensures Core(a) == Core(b)
  {
    assert a.properties == b.properties;
  }

  lemma SameSets(a: seq<Definition>, b: seq<Definition>, n: string)
    requires SameDefinitions(a, b)
    ensures NamesOf(a) == NamesOf(b) && FilesOf(a, n) == FilesOf(b, n)
  {
    SubSets(a, b, n);
    SubSets(b, a, n);
  }

  lemma SubSets(a: seq<Definition>, b: seq<Definition>, n: string)
    requires forall d :: d in a ==> d in b
    ensures NamesOf(a) <= NamesOf(b) && FilesOf(a, n) <= FilesOf(b, n)
  {
    forall i | 0 <= i < |a| ensures a[i].name in NamesOf(b) { var j := Find(b, a[i]); }
    forall f | f in FilesOf(a, n) ensures f in FilesOf(b, n) {
      var i :| 0 <= i < |a| && a[i].name == n && f in a[i].files;
      var j := Find(b, a[i]);
    }
  }

  lemma Find(b: seq<Definition>, d: Definition) returns (j: nat)
    requires d in b
    ensures j < |b| && b[j] == d
  {
    j :| 0 <= j < |b| && b[j] == d;
  }

  /** The verdict depends on the set of definitions only. */
  lemma VerdictOrderFree(a: seq<Definition>, b: seq<Definition>)
    requires SameDefinitions(a, b) && Agree(a)
    ensures Agree(b)
  {
    forall i, j | 0 <= i < |b| && 0 <= j < |b| && b[i].name == b[j].name ensures StructurallyEqual(b[i], b[j]) {
      assert b[i] in a && b[j] in a;
      var k := Find(a, b[i]);
      var l := Find(a, b[j]);
      assert StructurallyEqual(a[k], a[l]);
    }
  }

  /** For definitions as the reader builds them, so does the output. */
  lemma OutputOrderFree(a: seq<Definition>, b: seq<Definition>, x: seq<Definition>, y: seq<Definition>)
    requires SameDefinitions(a, b) && Agree(a) && (forall d :: d in a ==> ReaderBuilt(d))
    requires IsMerged(a, x) && IsMerged(b, y)
    ensures x == y
  {
    SameSets(a, b, "");
    ListingUnique(ResultNames(x), ResultNames(y), NamesOf(a));
    assert |ResultNames(x)| == |x| && |ResultNames(y)| == |y|;
    forall k | 0 <= k < |x| ensures x[k] == y[k] {
      assert x[k].name == ResultNames(x)[k] && y[k].name == ResultNames(y)[k];
      MergeDetermined(a, b, x[k], y[k]);
    }
  }

  lemma MergeDetermined(a: seq<Definition>, b: seq<Definition>, x: Definition, y: Definition)
    requires SameDefinitions(a, b) && Agree(a) && (forall d :: d in a ==> ReaderBuilt(d))
    requires Merges(a, x) && Merges(b, y) && x.name == y.name
    ensures x == y
  {
    SameSets(a, b, x.name);
    ListingUnique(x.files, y.files, FilesOf(a, x.name));
    var d :| First(a, d) && Core(d) == Core(x);
    var e :| First(b, e) && Core(e) == Core(y);
    assert d in a && e in a;
    var i :| 0 <= i < |a| && a[i] == d;
    var j :| 0 <= j < |a| && a[j] == e;
    assert d.name == Core(d).name && e.name == Core(e).name;
    assert StructurallyEqual(a[i], a[j]);
    CoreDetermined(d, e);
    assert x == Core(x).(files := x.files, occurrences := x.occurrences);
    assert y == Core(y).(files := y.files, occurrences := y.occurrences);
  }
}
