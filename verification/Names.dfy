/** Names in byte order, and the sorted listings the generator makes of sets of them. */
module Names {
  import opened Basics

  /** Strictly before, in the order sort.Strings uses. */
  predicate Less(a: string, b: string) {
    if b == "" then false
    else if a == "" then true
    else a[0] < b[0] || (a[0] == b[0] && Less(a[1..], b[1..]))
  }

  lemma {:induction false} LessTransitive(a: string, b: string, c: string)
    requires Less(a, b) && Less(b, c)
    ensures Less(a, c)
  {
    if a != "" && a[0] == b[0] && b[0] == c[0] { LessTransitive(a[1..], b[1..], c[1..]); }
  }

  lemma {:induction false} LessTotal(a: string, b: string)
    ensures Less(a, b) || a == b || Less(b, a)
    ensures !(Less(a, b) && Less(b, a)) && !Less(a, a)
  {
    if a != "" && b != "" {
      LessTotal(a[1..], b[1..]);
      LessTotal(a[1..], a[1..]);
      if a[0] == b[0] && a[1..] == b[1..] {
        assert a == [a[0]] + a[1..] && b == [b[0]] + b[1..];
      }
    } else if a != "" {
      LessTotal(a[1..], a[1..]);
    }
  }

  /** Strictly ascending: sorted and free of duplicates. */
  ghost predicate Ascending(xs: seq<string>) { forall i, j :: 0 <= i < j < |xs| ==> Less(xs[i], xs[j]) }

  /** `xs` lists exactly the members of `s`, sorted, each once. */
  ghost predicate Lists(xs: seq<string>, s: set<string>) {
    Ascending(xs) && forall x :: x in s <==> x in xs
  }

  lemma EmptyOrMember(xs: seq<string>)
    ensures xs == [] || exists x :: x in xs
  {
    if xs != [] { assert xs[0] in xs; }
  }

  lemma AscendingDistinct(xs: seq<string>, i: nat, j: nat)
    requires Ascending(xs) && i < j < |xs|
    ensures xs[i] != xs[j]
  {
    LessTotal(xs[i], xs[j]);
  }

  /** A set has one sorted listing. */
  lemma {:induction false} ListingUnique(xs: seq<string>, ys: seq<string>, s: set<string>)
    requires Lists(xs, s) && Lists(ys, s)
    ensures xs == ys
    decreases |xs|
  {
    if xs == [] {
      EmptyOrMember(ys);
    } else {
      assert xs[0] in s;
      var j :| 0 <= j < |ys| && ys[j] == xs[0];
      assert ys[0] in s;
      var i :| 0 <= i < |xs| && xs[i] == ys[0];
      LessTotal(xs[0], ys[0]);
      assert xs[0] == ys[0];
      RestLists(xs, s);
      RestLists(ys, s);
      ListingUnique(xs[1..], ys[1..], s - {xs[0]});
      assert xs == [xs[0]] + xs[1..] && ys == [ys[0]] + ys[1..];
    }
  }

  lemma RestLists(xs: seq<string>, s: set<string>)
    requires Lists(xs, s) && xs != []
    ensures Lists(xs[1..], s - {xs[0]})
  {
    assert xs == [xs[0]] + xs[1..];
    forall k | 0 < k < |xs| ensures xs[k] != xs[0] { LessTotal(xs[0], xs[k]); }
  }

  /** Puts `x` at its place in an ascending sequence. */
  method Insert(xs: seq<string>, x: string) returns (ys: seq<string>)
    requires Ascending(xs) && x !in xs
    ensures Ascending(ys) && forall y :: y in ys <==> y in xs || y == x
  {
    var k := 0;
    while k < |xs| && Less(xs[k], x)
      invariant 0 <= k <= |xs| && forall i :: 0 <= i < k ==> Less(xs[i], x)
    {
      k := k + 1;
    }
    ys := xs[..k] + [x] + xs[k..];
    if k < |xs| {
      LessTotal(xs[k], x);
      forall i | k < i < |xs| ensures Less(x, xs[i]) { LessTransitive(x, xs[k], xs[i]); }
    }
    assert xs == xs[..k] + xs[k..];
    assert forall i :: 0 <= i < |ys| ==> ys[i] == if i < k then xs[i] else if i == k then x else xs[i - 1];
  }

  /** The keys of a Go map, collected and sorted. */
  method Sorted(names: set<string>) returns (xs: seq<string>)
    ensures Lists(xs, names)
  {
    xs := [];
    var todo := names;
    while todo != {}
      invariant todo <= names && Ascending(xs) && forall x :: x in xs <==> x in names - todo
    {
      var x :| x in todo;
      xs := Insert(xs, x);
      todo := todo - {x};
    }
  }
}
