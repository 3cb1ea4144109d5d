/**
 ComputePlacement and the package a reference is spelled with: a definition
 that one message reaches is emitted into that message's file, one that
 several reach into the shared types package. The rule is closed under
 references, so the types package never depends on a block package.
 */
module Placement {
  import opened Basics
  import opened Names
  import opened SchemaGraph
  import opened CycleDetection
  import opened Reachability
  import opened Deduplication

  datatype Message = Message(name: string, block: string, request: Document, response: Document, reach: seq<string>)

  datatype Home = TypesHome | MessageHome(message: string)

  /** The messages whose reach contains `n`. */
  function Reaching(messages: seq<Message>, n: string): set<nat> { set i: nat | i < |messages| && n in messages[i].reach }

  predicate Candidate(definitions: seq<Definition>, n: string) {
    exists i :: 0 <= i < |definitions| && definitions[i].name == n && definitions[i].kind != RootKind && !definitions[i].reserved
  }

  /** The reach-count rule. */
  ghost predicate Placed(messages: seq<Message>, n: string, home: Home) {
    match home
    case TypesHome => |Reaching(messages, n)| > 1
    case MessageHome(m) => exists i :: Reaching(messages, n) == {i} && messages[i].name == m
  }

  lemma ReachingGrows(messages: seq<Message>, k: nat, n: string)
    requires k < |messages|
    ensures Reaching(messages[..k + 1], n) == Reaching(messages[..k], n) + (if n in messages[k].reach then {k} else {})
    ensures k !in Reaching(messages[..k], n)
  {
  }

  function Get(counts: map<string, nat>, n: string): nat { if n in counts then counts[n] else 0 }

  /** The counting loop after `k` messages: how many reach each candidate, and one that does. */
  ghost predicate Counted(messages: seq<Message>, k: nat, n: string, counts: map<string, nat>, first: map<string, string>)
    requires k <= |messages|
  {
    && Get(counts, n) == |Reaching(messages[..k], n)|
    && (Get(counts, n) > 0 ==> n in first && exists i :: i in Reaching(messages[..k], n) && messages[i].name == first[n])
  }

  /** One message's share of the count: each candidate it reaches, once. */
  method CountMessage(candidates: set<string>, counts: map<string, nat>, first: map<string, string>, message: Message)
      returns (counts': map<string, nat>, first': map<string, string>)
    requires Ascending(message.reach)
    ensures forall n :: n in candidates ==>
      && Get(counts', n) == Get(counts, n) + (if n in message.reach then 1 else 0)
      && Lookup(first', n) == if n in message.reach && Get(counts, n) == 0 then Some(message.name) else Lookup(first, n)
  {
    counts', first' := counts, first;
    var j := 0;
    while j < |message.reach|
      invariant 0 <= j <= |message.reach|
      invariant forall n :: n in candidates ==>
        && Get(counts', n) == Get(counts, n) + (if n in message.reach[..j] then 1 else 0)
        && Lookup(first', n) == if n in message.reach[..j] && Get(counts, n) == 0 then Some(message.name) else Lookup(first, n)
    {
      var n := message.reach[j];
      assert message.reach[..j + 1] == message.reach[..j] + [n];
      if n in candidates {
        assert n !in message.reach[..j] by {
          forall i | 0 <= i < j ensures message.reach[i] != n { LessTotal(message.reach[i], n); }
        }
        counts' := counts'[n := Get(counts', n) + 1];
        if counts'[n] == 1 { first' := first'[n := message.name]; }
      }
      j := j + 1;
    }
    assert message.reach[..j] == message.reach;
  }

  lemma CountStep(messages: seq<Message>, k: nat, n: string, counts: map<string, nat>, first: map<string, string>,
                  counts': map<string, nat>, first': map<string, string>)
    requires k < |messages| && Counted(messages, k, n, counts, first)
    requires Get(counts', n) == Get(counts, n) + (if n in messages[k].reach then 1 else 0)
    requires Lookup(first', n) == if n in messages[k].reach && Get(counts, n) == 0 then Some(messages[k].name) else Lookup(first, n)
    ensures Counted(messages, k + 1, n, counts', first')
  {
    ReachingGrows(messages, k, n);
    if Get(counts, n) > 0 {
      var i :| i in Reaching(messages[..k], n) && messages[i].name == first[n];
      assert i in Reaching(messages[..k + 1], n);
    } else if n in messages[k].reach {
      assert k in Reaching(messages[..k + 1], n);
    }
  }

  method CountAll(candidates: set<string>, messages: seq<Message>) returns (counts: map<string, nat>, first: map<string, string>)
    requires forall i :: 0 <= i < |messages| ==> Ascending(messages[i].reach)
    ensures forall n :: n in candidates ==> Counted(messages, |messages|, n, counts, first)
  {
    counts, first := map[], map[];
    var k := 0;
    while k < |messages|
      invariant 0 <= k <= |messages| && forall n :: n in candidates ==> Counted(messages, k, n, counts, first)
    {
      var counts', first' := CountMessage(candidates, counts, first, messages[k]);
      forall n | n in candidates ensures Counted(messages, k + 1, n, counts', first') {
        CountStep(messages, k, n, counts, first, counts', first');
      }
      counts, first := counts', first';
      k := k + 1;
    }
  }

  lemma Singleton(s: set<nat>, i: nat)
    requires i in s && |s| == 1
    ensures s == {i}
  {
    assert |s - {i}| == 0;
  }

  /** Fails exactly when some candidate is reached by no message; otherwise
      every candidate, and nothing else, is placed by its reach count. */
  method ComputePlacement(definitions: seq<Definition>, messages: seq<Message>) returns (home: Option<map<string, Home>>)
    requires forall i :: 0 <= i < |messages| ==> Ascending(messages[i].reach)
    ensures home.None? <==> exists n :: Candidate(definitions, n) && Reaching(messages, n) == {}
    ensures home.Some? ==> forall n :: n in home.value <==> Candidate(definitions, n)
    ensures home.Some? ==> forall n :: n in home.value ==> Placed(messages, n, home.value[n])
  {
    var candidates := set i | 0 <= i < |definitions| && definitions[i].kind != RootKind && !definitions[i].reserved :: definitions[i].name;
    assert forall n :: n in candidates <==> Candidate(definitions, n);
    var counts, first := CountAll(candidates, messages);
    assert messages[..|messages|] == messages;
    var homes: map<string, Home> := map[];
    var todo := candidates;
    while todo != {}
      invariant todo <= candidates && homes.Keys == candidates - todo
      invariant forall n :: n in homes ==> Placed(messages, n, homes[n])
      invariant forall n :: n in homes ==> Reaching(messages, n) != {}
    {
      var n :| n in todo;
      assert Counted(messages, |messages|, n, counts, first);
      if Get(counts, n) == 0 {
        assert Candidate(definitions, n) && Reaching(messages, n) == {};
        return None;
      } else if Get(counts, n) == 1 {
        ghost var i :| i in Reaching(messages, n) && messages[i].name == first[n];
        Singleton(Reaching(messages, n), i);
        homes := homes[n := MessageHome(first[n])];
      } else {
        homes := homes[n := TypesHome];
      }
      todo := todo - {n};
    }
    return Some(homes);
  }

  // ---- the corpus ----

  /** What the schema reader guarantees of one file: references stay inside
      it, its root is a root and its definitions are not. */
  ghost predicate DocumentOk(doc: Document) {
    && doc.root.kind == RootKind && ReaderBuilt(doc.root)
    && (forall i :: 0 <= i < |doc.definitions| ==> doc.definitions[i].kind != RootKind && ReaderBuilt(doc.definitions[i]))
    && (forall n :: n in Targets(doc.root.properties) ==> n in NamesOf(doc.definitions))
    && (forall i, n :: 0 <= i < |doc.definitions| && n in Targets(doc.definitions[i].properties) ==> n in NamesOf(doc.definitions))
  }

  function DefinitionsOf(doc: Document): seq<Definition> { [doc.root] + doc.definitions }

  function AllDefinitions(messages: seq<Message>): seq<Definition> {
    if messages == [] then []
    else AllDefinitions(messages[..|messages| - 1])
         + DefinitionsOf(messages[|messages| - 1].request) + DefinitionsOf(messages[|messages| - 1].response)
  }

  function LookupOf(m: Message): map<string, Definition> { Definitions(m.request, m.response) }

  function RootsOf(m: Message): set<string> { RootTargets(m.request, m.response) }

  /** The message carries the reach computeReach gives it. */
  ghost predicate MessageOk(m: Message) {
    && DocumentOk(m.request) && DocumentOk(m.response) && Ascending(m.reach)
    && forall n :: n in m.reach <==> Reaches(LookupOf(m), RootsOf(m), n)
  }

  /** A corpus WalkSchemas accepts, with its deduplicated definitions. */
  ghost predicate CorpusOk(messages: seq<Message>, definitions: seq<Definition>) {
    && (forall i :: 0 <= i < |messages| ==> MessageOk(messages[i]))
    && (forall i, j :: 0 <= i < j < |messages| ==> messages[i].name != messages[j].name)
    && Agree(AllDefinitions(messages)) && IsMerged(AllDefinitions(messages), definitions)
  }

  lemma {:induction false} InCorpus(messages: seq<Message>, k: nat, d: Definition)
    requires k < |messages| && d in DefinitionsOf(messages[k].request) + DefinitionsOf(messages[k].response)
    ensures d in AllDefinitions(messages)
  {
    var last := |messages| - 1;
    if k < last {
      assert messages[..last][k] == messages[k];
      InCorpus(messages[..last], k, d);
    }
  }

  lemma {:induction false} FromCorpus(messages: seq<Message>, d: Definition) returns (k: nat)
    requires d in AllDefinitions(messages)
    ensures k < |messages| && d in DefinitionsOf(messages[k].request) + DefinitionsOf(messages[k].response)
  {
    var last := |messages| - 1;
    if d in AllDefinitions(messages[..last]) {
      k := FromCorpus(messages[..last], d);
    } else {
      k := last;
    }
  }

  lemma {:induction false} ByNameFrom(definitions: seq<Definition>, n: string)
    requires n in ByName(definitions)
    ensures ByName(definitions)[n] in definitions && ByName(definitions)[n].name == n
  {
    if definitions != [] {
      var rest := definitions[..|definitions| - 1];
      if n != definitions[|definitions| - 1].name { ByNameFrom(rest, n); }
    }
  }

  /** A name used in one of the message's files is defined there. */
  lemma DefinedLocally(m: Message, n: string)
    requires n in NamesOf(m.request.definitions) || n in NamesOf(m.response.definitions)
    ensures n in LookupOf(m)
  {
    var both := m.request.definitions + m.response.definitions;
    ByNameKeys(both, n);
    if n in NamesOf(m.request.definitions) {
      var i :| 0 <= i < |m.request.definitions| && m.request.definitions[i].name == n;
      assert both[i].name == n;
    } else {
      var i :| 0 <= i < |m.response.definitions| && m.response.definitions[i].name == n;
      assert both[|m.request.definitions| + i].name == n;
    }
  }

  lemma LookupFrom(m: Message, n: string)
    requires n in LookupOf(m)
    ensures LookupOf(m)[n].name == n
    ensures LookupOf(m)[n] in m.request.definitions || LookupOf(m)[n] in m.response.definitions
  {
    ByNameFrom(m.request.definitions + m.response.definitions, n);
  }

  lemma TargetDefined(m: Message, a: string, b: string)
    requires MessageOk(m) && Edge(LookupOf(m), a, b)
    ensures b in LookupOf(m)
  {
    LookupFrom(m, a);
    var d := LookupOf(m)[a];
    if d in m.request.definitions {
      var i :| 0 <= i < |m.request.definitions| && m.request.definitions[i] == d;
    } else {
      var i :| 0 <= i < |m.response.definitions| && m.response.definitions[i] == d;
    }
    DefinedLocally(m, b);
  }

  /** Everything a message reaches is defined in its own files. */
  lemma ReachedIsDefined(m: Message, n: string)
    requires MessageOk(m) && n in m.reach
    ensures n in LookupOf(m)
  {
    var w :| IsWalk(LookupOf(m), w) && w[0] in RootsOf(m) && w[|w| - 1] == n;
    if |w| == 1 {
      DefinedLocally(m, n);
    } else {
      assert Edge(LookupOf(m), w[|w| - 2], w[|w| - 1]);
      TargetDefined(m, w[|w| - 2], n);
    }
  }

  lemma LocalInCorpus(messages: seq<Message>, k: nat, n: string)
    requires k < |messages| && n in LookupOf(messages[k])
    ensures LookupOf(messages[k])[n] in AllDefinitions(messages)
  {
    LookupFrom(messages[k], n);
    InCorpus(messages, k, LookupOf(messages[k])[n]);
  }

  lemma DocumentReaderBuilt(doc: Document, d: Definition)
    requires DocumentOk(doc) && d in DefinitionsOf(doc)
    ensures ReaderBuilt(d)
  {
    var all := DefinitionsOf(doc);
    var i :| 0 <= i < |all| && all[i] == d;
    if i > 0 { assert doc.definitions[i - 1] == d; }
  }

  lemma CorpusReaderBuilt(messages: seq<Message>, d: Definition)
    requires (forall i :: 0 <= i < |messages| ==> MessageOk(messages[i])) && d in AllDefinitions(messages)
    ensures ReaderBuilt(d)
  {
    var k := FromCorpus(messages, d);
    assert MessageOk(messages[k]);
    if d in DefinitionsOf(messages[k].request) { DocumentReaderBuilt(messages[k].request, d); }
    else { DocumentReaderBuilt(messages[k].response, d); }
  }

  /** A merged definition is the same thing as each copy it was merged from. */
  lemma MergedIsCopy(messages: seq<Message>, definitions: seq<Definition>, d: Definition, copy: Definition)
    requires CorpusOk(messages, definitions) && d in definitions && copy in AllDefinitions(messages) && copy.name == d.name
    ensures Core(d) == Core(copy)
  {
    var all := AllDefinitions(messages);
    var k :| 0 <= k < |definitions| && definitions[k] == d;
    assert Merges(all, definitions[k]);
    var f :| First(all, f) && Core(f) == Core(d);
    assert f.name == Core(f).name;
    var i :| 0 <= i < |all| && all[i] == f;
    var j :| 0 <= j < |all| && all[j] == copy;
    assert StructurallyEqual(all[i], all[j]);
    CorpusReaderBuilt(messages, f);
    CorpusReaderBuilt(messages, copy);
    CoreDetermined(f, copy);
  }

  lemma MergedExists(messages: seq<Message>, definitions: seq<Definition>, copy: Definition) returns (d: Definition)
    requires CorpusOk(messages, definitions) && copy in AllDefinitions(messages)
    ensures d in definitions && d.name == copy.name && Core(d) == Core(copy)
  {
    var all := AllDefinitions(messages);
    var j :| 0 <= j < |all| && all[j] == copy;
    assert copy.name in NamesOf(all);
    var k :| 0 <= k < |ResultNames(definitions)| && ResultNames(definitions)[k] == copy.name;
    d := definitions[k];
    MergedIsCopy(messages, definitions, d, copy);
  }

  /** A message that reaches a definition reaches what that definition refers to. */
  lemma ReachGoesOn(messages: seq<Message>, definitions: seq<Definition>, k: nat, d: Definition, t: string)
    requires CorpusOk(messages, definitions) && k < |messages| && d in definitions
    requires d.name in messages[k].reach && t in Targets(d.properties)
    ensures t in messages[k].reach
  {
    var m := messages[k];
    assert MessageOk(m);
    ReachedIsDefined(m, d.name);
    LocalInCorpus(messages, k, d.name);
    LookupFrom(m, d.name);
    MergedIsCopy(messages, definitions, d, LookupOf(m)[d.name]);
    assert LookupOf(m)[d.name].properties == Core(LookupOf(m)[d.name]).properties && d.properties == Core(d).properties;
    ReachesOn(LookupOf(m), RootsOf(m), d.name, t);
  }

  /** What a message reaches is an object or enum of the deduplicated definitions. */
  lemma ReachedIsMerged(messages: seq<Message>, definitions: seq<Definition>, k: nat, t: string) returns (e: Definition)
    requires CorpusOk(messages, definitions) && k < |messages| && t in messages[k].reach
    ensures e in definitions && e.name == t && e.kind != RootKind
  {
    var m := messages[k];
    assert MessageOk(m);
    ReachedIsDefined(m, t);
    LocalInCorpus(messages, k, t);
    LookupFrom(m, t);
    var copy := LookupOf(m)[t];
    e := MergedExists(messages, definitions, copy);
    assert copy.kind == Core(copy).kind && e.kind == Core(e).kind;
  }

  /** A successful placement of the corpus. */
  ghost predicate PlacementOk(messages: seq<Message>, definitions: seq<Definition>, home: map<string, Home>) {
    && CorpusOk(messages, definitions)
    && (forall n :: n in home <==> Candidate(definitions, n))
    && (forall n :: n in home ==> Placed(messages, n, home[n]))
    && (forall n :: Candidate(definitions, n) ==> Reaching(messages, n) != {})
  }

  /** Whatever reaches `d` reaches what `d` refers to. */
  lemma ReachingGoesOn(messages: seq<Message>, definitions: seq<Definition>, d: Definition, t: string)
    requires CorpusOk(messages, definitions) && d in definitions && t in Targets(d.properties)
    ensures Reaching(messages, d.name) <= Reaching(messages, t)
  {
    forall i | i in Reaching(messages, d.name) ensures i in Reaching(messages, t) {
      ReachGoesOn(messages, definitions, i, d, t);
    }
  }

  lemma SmallerSet(a: set<nat>, b: set<nat>)
    requires a <= b
    ensures |a| <= |b|
  {
    assert b == a + (b - a);
  }

  lemma PlacedByCount(messages: seq<Message>, n: string, home: Home)
    requires Placed(messages, n, home)
    ensures home.TypesHome? <==> |Reaching(messages, n)| > 1
  {
  }

  /** A definition in the types package refers only to the types package or to
      a reserved definition. */
  lemma TypesClosed(messages: seq<Message>, definitions: seq<Definition>, home: map<string, Home>, d: Definition, t: string)
      returns (e: Definition)
    requires PlacementOk(messages, definitions, home) && d in definitions && Lookup(home, d.name) == Some(TypesHome)
    requires t in Targets(d.properties)
    ensures e in definitions && e.name == t && (e.reserved || Lookup(home, t) == Some(TypesHome))
  {
    PlacedByCount(messages, d.name, home[d.name]);
    ReachingGoesOn(messages, definitions, d, t);
    SmallerSet(Reaching(messages, d.name), Reaching(messages, t));
    var i :| i in Reaching(messages, d.name);
    e := ReachedIsMerged(messages, definitions, i, t);
    if !e.reserved {
      assert Candidate(definitions, t);
      PlacedByCount(messages, t, home[t]);
    }
  }

  /** The only message that reaches `t` is the one `d` is placed in as well. */
  lemma PlacedTogether(messages: seq<Message>, definitions: seq<Definition>, home: map<string, Home>, d: Definition, t: string, k: nat)
    requires PlacementOk(messages, definitions, home) && d in definitions && t in Targets(d.properties)
    requires d.kind != RootKind && !d.reserved && k < |messages| && Reaching(messages, t) == {k}
    ensures Lookup(home, d.name) == Some(MessageHome(messages[k].name))
  {
    assert Candidate(definitions, d.name);
    ReachingGoesOn(messages, definitions, d, t);
    PlacedAlone(messages, d.name, home[d.name], k);
  }

  lemma PlacedAlone(messages: seq<Message>, n: string, home: Home, k: nat)
    requires Placed(messages, n, home) && Reaching(messages, n) <= {k} && Reaching(messages, n) != {} && k < |messages|
    ensures home == MessageHome(messages[k].name)
  {
    var i :| i in Reaching(messages, n);
    assert Reaching(messages, n) == {k};
    if home.MessageHome? {
      var j := OnlyReacher(messages, n, home);
      assert j in {k};
    }
  }

  /** A definition in a message's file is referred to only from that file: by
      definitions placed there too, or by the message's own roots. */
  lemma MessageLocal(messages: seq<Message>, definitions: seq<Definition>, home: map<string, Home>, d: Definition, t: string) returns (k: nat)
    requires PlacementOk(messages, definitions, home) && d in definitions && t in Targets(d.properties)
    requires t in home && home[t].MessageHome?
    ensures k < |messages| && messages[k].name == home[t].message
    ensures d.kind == RootKind ==> d.name == messages[k].request.root.name || d.name == messages[k].response.root.name
    ensures d.kind != RootKind && !d.reserved ==> Lookup(home, d.name) == Some(home[t])
  {
    k := OnlyReacher(messages, t, home[t]);
    if d.kind == RootKind { RootLocal(messages, definitions, d, t, k); }
    else if !d.reserved { PlacedTogether(messages, definitions, home, d, t, k); }
  }

  lemma OnlyReacher(messages: seq<Message>, t: string, home: Home) returns (k: nat)
    requires Placed(messages, t, home) && home.MessageHome?
    ensures k < |messages| && Reaching(messages, t) == {k} && messages[k].name == home.message
  {
    k :| Reaching(messages, t) == {k} && messages[k].name == home.message;
    assert k in Reaching(messages, t);
  }

  lemma RootLocal(messages: seq<Message>, definitions: seq<Definition>, d: Definition, t: string, k: nat)
    requires CorpusOk(messages, definitions) && d in definitions && d.kind == RootKind && t in Targets(d.properties)
    requires k < |messages| && Reaching(messages, t) == {k}
    ensures d.name == messages[k].request.root.name || d.name == messages[k].response.root.name
  {
    var f := MergedFrom(messages, definitions, d);
    assert f.properties == Core(f).properties && f.kind == Core(f).kind && f.name == Core(f).name;
    var i := FromCorpus(messages, f);
    assert MessageOk(messages[i]);
    RootIsRoot(messages[i], f);
    RootReaches(messages[i], t);
    assert i in Reaching(messages, t);
  }

  lemma MergedFrom(messages: seq<Message>, definitions: seq<Definition>, d: Definition) returns (f: Definition)
    requires CorpusOk(messages, definitions) && d in definitions
    ensures f in AllDefinitions(messages) && Core(f) == Core(d)
  {
    var j :| 0 <= j < |definitions| && definitions[j] == d;
    assert Merges(AllDefinitions(messages), definitions[j]);
    f :| First(AllDefinitions(messages), f) && Core(f) == Core(d);
  }

  lemma RootReaches(m: Message, t: string)
    requires MessageOk(m) && t in RootsOf(m)
    ensures t in m.reach
  {
    ReachesRoot(LookupOf(m), RootsOf(m), t);
  }

  lemma RootIsRoot(m: Message, f: Definition)
    requires MessageOk(m) && f in DefinitionsOf(m.request) + DefinitionsOf(m.response) && f.kind == RootKind
    ensures f == m.request.root || f == m.response.root
    ensures Targets(f.properties) <= RootsOf(m)
  {
    var all := DefinitionsOf(m.request) + DefinitionsOf(m.response);
    var i :| 0 <= i < |all| && all[i] == f;
  }
}
