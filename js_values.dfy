/** JSON values as the dashboard's routes receive them and its store keeps them,
    together with the few pieces of JavaScript semantics its code relies on:
    property access, truthiness, `typeof`, the `in` operator, object spread,
    `===` between primitives, and the decimal rendering of an index. */
module JsValues {

  datatype Option<T> = None | Some(value: T)

  /** A value as `request.json()` or `JSON.parse` produces it; JSON numbers are reals. */
  datatype Json =
    | JNull
    | JBool(b: bool)
    | JNum(n: real)
    | JStr(s: string)
    | JArr(elems: seq<Json>)
    | JObj(fields: map<string, Json>)

  /** A plain object whose properties hold JSON values (key order is not modelled). */
  type Obj = map<string, Json>

  /** `obj.key`, with None standing for `undefined`. */
  function Get(obj: Obj, key: string): Option<Json> {
    if key in obj then Some(obj[key]) else None
  }

  /** `v.key` for a named property (never `length`, never an index): only objects
      carry one, so arrays, strings, numbers and booleans answer `undefined`.
      Every caller has ruled out `null` before it reads a property. */
  function Member(v: Json, key: string): Option<Json> {
    if v.JObj? then Get(v.fields, key) else None
  }

  /** JavaScript truthiness, so `!body` is `!Truthy(body)`. */
  predicate Truthy(v: Json) {
    match v
    case JNull => false
    case JBool(b) => b
    case JNum(n) => n != 0.0
    case JStr(s) => s != ""
    case JArr(_) => true
    case JObj(_) => true
  }

  /** `typeof v === 'string'`. */
  predicate IsString(v: Option<Json>) { v.Some? && v.value.JStr? }

  /** `typeof v === 'number'`. */
  predicate IsNumber(v: Option<Json>) { v.Some? && v.value.JNum? }

  /** `typeof v === 'boolean'`. */
  predicate IsBoolean(v: Option<Json>) { v.Some? && v.value.JBool? }

  /** `a === b` where neither side is an object or array from another parse. */
  predicate StrictEquals(a: Option<Json>, b: Option<Json>) {
    a == b && (a.Some? ==> !a.value.JObj? && !a.value.JArr?)
  }

  /** `key in v` for a named key: defined on objects and arrays only;
      on `undefined`, `null` and primitives it throws a TypeError (None). */
  function HasProperty(v: Option<Json>, key: string): (r: Option<bool>)
    ensures r.Some? <==> v.Some? && (v.value.JObj? || v.value.JArr?)
    ensures r == Some(true) <==> v.Some? && v.value.JObj? && key in v.value.fields
  {
    match v
    case Some(JObj(m)) => Some(key in m)
    case Some(JArr(_)) => Some(false)
    case _ => None
  }

  /** The own properties that `{...v}` copies: an object's fields, an array's
      or a string's elements under their decimal indices, and nothing for
      `undefined`, `null`, numbers and booleans. */
  function Spread(v: Option<Json>): (r: Obj)
    ensures v.Some? && v.value.JObj? ==> r == v.value.fields
    ensures v.None? || v == Some(JNull) || (v.Some? && (v.value.JNum? || v.value.JBool?)) ==> r == map[]
    ensures v.Some? && v.value.JArr? ==>
      r.Keys == IndexKeys(|v.value.elems|)
      && forall i :: 0 <= i < |v.value.elems| ==> r[NatToString(i)] == v.value.elems[i]
    ensures v.Some? && v.value.JStr? ==>
      r.Keys == IndexKeys(|v.value.s|)
      && forall i :: 0 <= i < |v.value.s| ==> r[NatToString(i)] == JStr([v.value.s[i]])
  {
    match v
    case Some(JObj(m)) => m
    case Some(JArr(xs)) => IndexedFields(xs)
    case Some(JStr(s)) => IndexedFields(Characters(s))
    case _ => map[]
  }

  /** The one-character strings of `s`, in order. */
  function Characters(s: string): (r: seq<Json>)
    ensures |r| == |s|
  {
    seq(|s|, i requires 0 <= i < |s| => JStr([s[i]]))
  }

  /** The decimal indices below `n`, as property keys. */
  ghost function IndexKeys(n: nat): set<string> {
    set i | 0 <= i < n :: NatToString(i)
  }

  /** One more element adds exactly its own index. */
  lemma IndexKeysStep(n: nat)
    ensures IndexKeys(n + 1) == IndexKeys(n) + {NatToString(n)}
  {
    forall k | k in IndexKeys(n + 1) ensures k in IndexKeys(n) + {NatToString(n)} {
      var i :| 0 <= i < n + 1 && k == NatToString(i);
      if i < n { assert k in IndexKeys(n); }
    }
  }

  /** The index `n` is not among the smaller ones. */
  lemma FreshIndexKey(n: nat)
    ensures NatToString(n) !in IndexKeys(n)
  {
    forall i | 0 <= i < n ensures NatToString(i) != NatToString(n) {
      NatToStringInjective(i, n);
    }
  }

  /** Elements keyed by their decimal index, as spreading an array produces them. */
  function IndexedFields(xs: seq<Json>): (r: Obj)
    ensures r.Keys == IndexKeys(|xs|)
    ensures forall i :: 0 <= i < |xs| ==> NatToString(i) in r && r[NatToString(i)] == xs[i]
  {
    if |xs| == 0 then map[]
    else
      var init := IndexedFields(xs[..|xs| - 1]);
      IndexKeysStep(|xs| - 1);
      FreshIndexKey(|xs| - 1);
      init[NatToString(|xs| - 1) := xs[|xs| - 1]]
  }

  /** The character of a decimal digit. */
  function DigitChar(d: nat): (c: char)
    requires d < 10
  {
    ('0' as int + d) as char
  }

  /** `${n}` for a natural number: its decimal digits, most significant first. */
  function NatToString(n: nat): (s: string)
    ensures |s| >= 1
    ensures forall i :: 0 <= i < |s| ==> '0' <= s[i] <= '9'
  {
    if n < 10 then [DigitChar(n)] else NatToString(n / 10) + [DigitChar(n % 10)]
  }

  /** The number a string of decimal digits denotes. */
  function ParseDigits(s: string): int {
    if |s| == 0 then 0 else ParseDigits(s[..|s| - 1]) * 10 + (s[|s| - 1] as int - '0' as int)
  }

  /** Reading back the decimal rendering of `n` gives `n`. */
  lemma {:induction false} ParseNatToString(n: nat)
    ensures ParseDigits(NatToString(n)) == n
  {
    if n >= 10 {
      var s := NatToString(n / 10);
      ParseNatToString(n / 10);
      assert (s + [DigitChar(n % 10)])[..|s|] == s;
    }
  }

  /** Distinct numbers have distinct decimal renderings. */
  lemma NatToStringInjective(a: nat, b: nat)
    ensures NatToString(a) == NatToString(b) ==> a == b
  {
    ParseNatToString(a);
    ParseNatToString(b);
  }
}
