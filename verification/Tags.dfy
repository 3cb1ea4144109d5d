/**
 Validator tags: token texts, the families they belong to, the decimal bounds
 they carry, and what a tag list accepts. `dive` splits a list into scopes:
 the tokens before it constrain the value, those after it every element.
 */
module Tags {
  import opened Basics

  // ---- token texts ----

  function IndexOf(s: string, c: char): (i: nat)
    ensures i <= |s| && (i < |s| ==> s[i] == c) && forall k :: 0 <= k < i ==> s[k] != c
  {
    if s == "" || s[0] == c then 0 else 1 + IndexOf(s[1..], c)
  }

  /** The text before "=", or the whole token. */
  function TagFamily(token: string): string { token[..IndexOf(token, '=')] }

  /** The text after "=", if there is one. */
  function TagValue(token: string): Option<string> {
    var i := IndexOf(token, '=');
    if i < |token| then Some(token[i + 1..]) else None
  }

  predicate IsDigit(c: char) { '0' <= c <= '9' }

  predicate AllDigits(s: string) { forall i :: 0 <= i < |s| ==> IsDigit(s[i]) }

  function DigitsValue(s: string): nat
    requires AllDigits(s)
  {
    if s == "" then 0 else 10 * DigitsValue(s[..|s| - 1]) + (s[|s| - 1] as int - '0' as int)
  }

  function PowerOfTen(n: nat): real { if n == 0 then 1.0 else 10.0 * PowerOfTen(n - 1) }

  lemma PowerPositive(n: nat)
    ensures PowerOfTen(n) > 0.0
  {
  }

  predicate WholeNumber(s: string) { s != "" && AllDigits(s) && (|s| > 1 ==> s[0] != '0') }

  /** The one decimal spelling bounds are rendered in: sign, digits without a
      redundant zero, fraction. */
  function DecimalValue(s: string): Option<real> {
    var body := if s != "" && s[0] == '-' then s[1..] else s;
    var dot := IndexOf(body, '.');
    var whole := body[..dot];
    if !WholeNumber(whole) then None
    else if dot == |body| then Some(if s[0] == '-' then -(DigitsValue(whole) as real) else DigitsValue(whole) as real)
    else
      var fraction := body[dot + 1..];
      if fraction == "" || !AllDigits(fraction) then None
      else
        PowerPositive(|fraction|);
        var x := DigitsValue(whole) as real + DigitsValue(fraction) as real / PowerOfTen(|fraction|);
        Some(if s[0] == '-' then -x else x)
  }

  /** How a whole number is rendered. */
  function Digits(n: nat): string {
    if n < 10 then [('0' as int + n) as char] else Digits(n / 10) + [('0' as int + n % 10) as char]
  }

  lemma {:induction false} DigitsOk(n: nat)
    ensures WholeNumber(Digits(n)) && DigitsValue(Digits(n)) == n && (n > 0 ==> Digits(n)[0] != '0')
  {
    if n >= 10 {
      DigitsOk(n / 10);
      var last := [('0' as int + n % 10) as char];
      assert Digits(n)[..|Digits(n)| - 1] == Digits(n / 10);
    } else {
      assert Digits(n)[..0] == "";
      assert DigitsValue(Digits(n)[..0]) == 0;
    }
  }

  /** A rendered whole number is read back as that number. */
  lemma RenderedNumber(n: nat)
    ensures DecimalValue(Digits(n)) == Some(n as real)
  {
    DigitsOk(n);
    var s := Digits(n);
    assert s[0] != '-' && IndexOf(s, '.') == |s|;
    assert s[..|s|] == s;
  }

  /** The number a token bounds with. */
  function Bound(token: string): Option<real> {
    if TagValue(token).Some? then DecimalValue(TagValue(token).value) else None
  }

  const FLOORS := {"gte", "min"}
  const CEILINGS := {"lte", "max"}
  const OPTIONALITY := {"required", "omitempty"}

  // ---- what a tag list accepts ----

  /** A field's value, as far as the validators look at it. */
  datatype Value =
    | Flag(b: bool) | Number(x: real) | Text(s: string)
    | Items(elements: seq<Value>)   // a slice that was given, empty or not
    | NoItems                       // a nil slice
    | Opaque

  /** What a bound compares: the number, the length or the item count. */
  function Measure(v: Value): real {
    match v
    case Number(x) => x
    case Text(s) => |s| as real
    case Items(es) => |es| as real
    case _ => 0.0
  }

  /** The validator's default value; of a slice that is nil, not empty. */
  predicate IsZero(v: Value) { v == Flag(false) || v == Number(0.0) || v == Text("") || v == NoItems }

  /** One token against one value; `member` is what the registered enum checks decide. */
  predicate Holds(token: string, v: Value, member: (string, Value) -> bool) {
    if token == "required" then !IsZero(v)
    else if Bound(token).Some? && TagFamily(token) in FLOORS then Measure(v) >= Bound(token).value
    else if Bound(token).Some? && TagFamily(token) in CEILINGS then Measure(v) <= Bound(token).value
    else member(token, v)
  }

  predicate Accepts(tokens: seq<string>, v: Value, member: (string, Value) -> bool)
    decreases tokens
  {
    if tokens == [] then true
    else if tokens[0] == "omitempty" then IsZero(v) || Accepts(tokens[1..], v, member)
    else if tokens[0] == "dive" then v.Items? ==> forall e :: e in v.elements ==> Accepts(tokens[1..], e, member)
    else Holds(tokens[0], v, member) && Accepts(tokens[1..], v, member)
  }

  /** A value behind a non-nil pointer is present: `required` holds of it and
      `omitempty` does not excuse it, zero or not. */
  predicate AcceptsAt(pointer: bool, tokens: seq<string>, v: Value, member: (string, Value) -> bool) {
    if pointer && tokens != [] && tokens[0] in OPTIONALITY then Accepts(tokens[1..], v, member) else Accepts(tokens, v, member)
  }

  /** `a` accepts nothing that `b` rejects, in a value field or a pointer field. */
  ghost predicate Stricter(a: seq<string>, b: seq<string>) {
    forall pointer: bool, v: Value, member: (string, Value) -> bool ::
      AcceptsAt(pointer, a, v, member) ==> AcceptsAt(pointer, b, v, member)
  }

  lemma StricterTransitive(a: seq<string>, b: seq<string>, c: seq<string>)
    requires Stricter(a, b) && Stricter(b, c)
    ensures Stricter(a, c)
  {
  }

  /** Appending a token can only reject more, in whichever scope it lands. */
  lemma {:induction false} AppendAccepts(tokens: seq<string>, t: string, v: Value, member: (string, Value) -> bool)
    requires Accepts(tokens + [t], v, member)
    ensures Accepts(tokens, v, member)
    decreases tokens
  {
    if tokens != [] {
      assert (tokens + [t])[1..] == tokens[1..] + [t];
      if tokens[0] == "dive" {
        if v.Items? {
          forall e | e in v.elements ensures Accepts(tokens[1..], e, member) { AppendAccepts(tokens[1..], t, e, member); }
        }
      } else if tokens[0] != "omitempty" || !IsZero(v) {
        AppendAccepts(tokens[1..], t, v, member);
      }
    }
  }

  lemma AppendAcceptsAt(pointer: bool, tokens: seq<string>, t: string, v: Value, member: (string, Value) -> bool)
    requires AcceptsAt(pointer, tokens + [t], v, member)
    ensures AcceptsAt(pointer, tokens, v, member)
  {
    if tokens == [] {
    } else if pointer && tokens[0] in OPTIONALITY {
      assert (tokens + [t])[1..] == tokens[1..] + [t];
      AppendAccepts(tokens[1..], t, v, member);
    } else {
      AppendAccepts(tokens, t, v, member);
    }
  }

  /** `t` is a bound of the same family as `from`, moved the tightening way. */
  predicate Tightens(from: string, t: string) {
    && TagFamily(from) == TagFamily(t) && Bound(from).Some? && Bound(t).Some?
    && (TagFamily(t) in FLOORS || TagFamily(t) in CEILINGS)
    && (TagFamily(t) in FLOORS ==> Bound(t).value > Bound(from).value)
    && (TagFamily(t) in CEILINGS ==> Bound(t).value < Bound(from).value)
  }

  lemma FamilyOfPlain(token: string)
    requires token in OPTIONALITY || token == "dive"
    ensures TagFamily(token) == token && TagValue(token).None? && Bound(token).None?
  {
    assert '=' !in token;
    assert IndexOf(token, '=') == |token|;
  }

  lemma TightensPlain(from: string, t: string)
    requires Tightens(from, t)
    ensures from !in OPTIONALITY && from != "dive" && t !in OPTIONALITY && t != "dive"
  {
    if from in OPTIONALITY || from == "dive" { FamilyOfPlain(from); }
    if t in OPTIONALITY || t == "dive" { FamilyOfPlain(t); }
  }

  lemma TightenHolds(from: string, t: string, v: Value, member: (string, Value) -> bool)
    requires Tightens(from, t) && Holds(t, v, member)
    ensures Holds(from, v, member)
  {
    TightensPlain(from, t);
  }

  lemma ReplaceHead(tokens: seq<string>, t: string, v: Value, member: (string, Value) -> bool)
    requires tokens != [] && Tightens(tokens[0], t) && Accepts(tokens[0 := t], v, member)
    ensures Accepts(tokens, v, member)
  {
    TightensPlain(tokens[0], t);
    assert tokens[0 := t][1..] == tokens[1..];
    TightenHolds(tokens[0], t, v, member);
  }

  /** Replacing one token by a tighter one can only reject more. */
  lemma {:induction false} ReplaceAccepts(tokens: seq<string>, i: nat, t: string, v: Value, member: (string, Value) -> bool)
    requires i < |tokens| && Tightens(tokens[i], t) && Accepts(tokens[i := t], v, member)
    ensures Accepts(tokens, v, member)
    decreases tokens, 1
  {
    if i == 0 {
      ReplaceHead(tokens, t, v, member);
    } else if tokens[0] == "dive" {
      ReplaceBehindDive(tokens, i, t, v, member);
    } else if tokens[0] != "omitempty" || !IsZero(v) {
      assert tokens[i := t][1..] == tokens[1..][i - 1 := t];
      ReplaceAccepts(tokens[1..], i - 1, t, v, member);
    }
  }

  lemma {:induction false} ReplaceBehindDive(tokens: seq<string>, i: nat, t: string, v: Value, member: (string, Value) -> bool)
    requires 0 < i < |tokens| && tokens[0] == "dive" && Tightens(tokens[i], t) && Accepts(tokens[i := t], v, member)
    ensures Accepts(tokens, v, member)
    decreases tokens, 0
  {
    if v.Items? {
      var rest := tokens[1..];
      assert tokens[i := t][1..] == rest[i - 1 := t];
      forall e | e in v.elements ensures Accepts(rest, e, member) { ReplaceAccepts(rest, i - 1, t, e, member); }
    }
  }

  lemma ReplaceAcceptsAt(pointer: bool, tokens: seq<string>, i: nat, t: string, v: Value, member: (string, Value) -> bool)
    requires i < |tokens| && Tightens(tokens[i], t) && AcceptsAt(pointer, tokens[i := t], v, member)
    ensures AcceptsAt(pointer, tokens, v, member)
  {
    TightensPlain(tokens[i], t);
    if pointer && tokens[0] in OPTIONALITY {
      assert tokens[i := t][1..] == tokens[1..][i - 1 := t];
      ReplaceAccepts(tokens[1..], i - 1, t, v, member);
    } else {
      ReplaceAccepts(tokens, i, t, v, member);
    }
  }
}
