/**
 * Parsed JSON values and the handful of Python rules the integration applies to them:
 * `dict.get`, truthiness, `is None`, numeric operands, `int()`, `str()` and `",".join`.
 */
module PyJson {
  import opened Wrappers

  /** A value as Python's json module returns it. A dict keeps its (key, value) pairs in insertion order. */
  datatype Json =
    | JNull
    | JBool(b: bool)
    | JInt(i: int)
    | JReal(r: real)
    | JStr(s: string)
    | JList(items: seq<Json>)
    | JObject(fields: seq<(string, Json)>)

  /** The pairs of a dict, in insertion order. */
  type Fields = seq<(string, Json)>

  /** The dict `{}`. */
  const EmptyDict := JObject([])

  /** The value a dict holds for `key`: the first pair with that key (a parsed dict holds each key once). */
  function Lookup(fs: Fields, key: string): Option<Json>
  {
    if fs == [] then None
    else if fs[0].0 == key then Some(fs[0].1)
    else Lookup(fs[1..], key)
  }

  /** A key is found exactly when some pair carries it, and what is found is the value of such a pair. */
  lemma {:induction false} LookupMeaning(fs: Fields, key: string)
    ensures Lookup(fs, key).None? <==> forall i :: 0 <= i < |fs| ==> fs[i].0 != key
    ensures Lookup(fs, key).Some? ==> exists i :: 0 <= i < |fs| && fs[i] == (key, Lookup(fs, key).value)
  {
    if fs != [] && fs[0].0 != key {
      LookupMeaning(fs[1..], key);
      if Lookup(fs, key).Some? {
        var i :| 0 <= i < |fs[1..]| && fs[1..][i] == (key, Lookup(fs, key).value);
        assert fs[i + 1] == fs[1..][i];
      }
      assert forall i :: 0 < i < |fs| ==> fs[i] == fs[1..][i - 1];
    }
  }

  /** The first pair carrying a key is the one found. */
  lemma {:induction false} LookupFirst(fs: Fields, i: nat)
    requires i < |fs| && forall j :: 0 <= j < i ==> fs[j].0 != fs[i].0
    ensures Lookup(fs, fs[i].0) == Some(fs[i].1)
  {
    if i > 0 {
      assert forall j :: 0 <= j < i - 1 ==> fs[1..][j] == fs[j + 1];
      LookupFirst(fs[1..], i - 1);
    }
  }

  /** `d.get(key, default)`: a key present with value null gives null, not the default. */
  function GetOr(fs: Fields, key: string, default: Json): Json
  {
    match Lookup(fs, key)
    case Some(v) => v
    case None => default
  }

  /** The default is returned exactly for a missing key; otherwise the value of a pair with that key. */
  lemma GetOrMeaning(fs: Fields, key: string, default: Json)
    ensures (forall i :: 0 <= i < |fs| ==> fs[i].0 != key) ==> GetOr(fs, key, default) == default
    ensures (exists i :: 0 <= i < |fs| && fs[i].0 == key) ==>
              exists i :: 0 <= i < |fs| && fs[i] == (key, GetOr(fs, key, default))
  {
    LookupMeaning(fs, key);
  }

  /** `d.get(key)`. */
  function Get(fs: Fields, key: string): Json
  {
    GetOr(fs, key, JNull)
  }

  /** Python's `bool(x)`: None, False, 0, 0.0 and empty strings, lists and dicts are false. */
  predicate Truthy(j: Json)
  {
    match j
    case JNull => false
    case JBool(b) => b
    case JInt(i) => i != 0
    case JReal(r) => r != 0.0
    case JStr(s) => s != []
    case JList(xs) => xs != []
    case JObject(fs) => fs != []
  }

  /** The value as an operand of `+`, `/` and `<`: ints, floats and bools (True is 1); anything else is a TypeError. */
  function NumOf(j: Json): (r: Option<real>)
    ensures r.Some? <==> j.JInt? || j.JReal? || j.JBool?
    ensures j.JInt? ==> r == Some(j.i as real)
    ensures j.JReal? ==> r == Some(j.r)
  {
    match j
    case JBool(b) => Some(if b then 1.0 else 0.0)
    case JInt(i) => Some(i as real)
    case JReal(r) => Some(r)
    case _ => None
  }

  /** `x == 0` in Python: true exactly for 0, 0.0 and False. */
  predicate EqualsZero(j: Json)
  {
    NumOf(j) == Some(0.0)
  }

  /** Truncation toward zero, as Python's `int()` does to a float. */
  function Trunc(x: real): (n: int)
    ensures x >= 0.0 ==> n as real <= x < n as real + 1.0
    ensures x < 0.0 ==> n as real - 1.0 < x <= n as real
  {
    if x >= 0.0 then x.Floor else -((-x).Floor)
  }

  /** `int(x)` for an int, a bool or a float. Text is not parsed: a string, None, a list or a dict gives None. */
  function IntOf(j: Json): (r: Option<int>)
    ensures r.Some? <==> j.JInt? || j.JReal? || j.JBool?
    ensures j.JInt? ==> r == Some(j.i)
  {
    match j
    case JBool(b) => Some(if b then 1 else 0)
    case JInt(i) => Some(i)
    case JReal(r) => Some(Trunc(r))
    case _ => None
  }

  /** The decimal digits of a natural number, most significant first, without leading zeros. */
  function Digits(n: nat): (s: string)
    ensures |s| >= 1
    ensures forall k :: 0 <= k < |s| ==> '0' <= s[k] <= '9'
    decreases n
  {
    var d := [(('0' as int) + n % 10) as char];
    if n < 10 then d else Digits(n / 10) + d
  }

  /** `str(i)` for an int. */
  function DecimalText(i: int): (s: string)
    ensures |s| >= 1
    ensures i < 0 <==> s[0] == '-'
  {
    if i < 0 then "-" + Digits(-i) else Digits(i)
  }

  /** `str(x)` as used in URLs and dict keys: exact for None, bools, ints and strings; floats, lists and dicts are not rendered. */
  function Text(j: Json): string
  {
    match j
    case JNull => "None"
    case JBool(b) => if b then "True" else "False"
    case JInt(i) => DecimalText(i)
    case JStr(s) => s
    case _ => ""
  }

  /** The dicts met by `for x in j: x.get(...)`: a list of dicts; an empty string or dict iterates nothing;
      anything else fails (a non-dict item has no `.get`, None and numbers are not iterable). */
  function DictItems(j: Json): (r: Option<seq<Fields>>)
    ensures j.JList? && (forall k :: 0 <= k < |j.items| ==> j.items[k].JObject?) ==>
              r.Some? && |r.value| == |j.items| && forall k :: 0 <= k < |j.items| ==> r.value[k] == j.items[k].fields
    ensures j.JList? && (exists k :: 0 <= k < |j.items| && !j.items[k].JObject?) ==> r.None?
    ensures r.Some? && !j.JList? ==> r.value == []
  {
    match j
    case JList(xs) =>
      if forall k :: 0 <= k < |xs| ==> xs[k].JObject? then Some(seq(|xs|, k requires 0 <= k < |xs| => xs[k].fields))
      else None
    case JStr(s) => if s == [] then Some([]) else None
    case JObject(fs) => if fs == [] then Some([]) else None
    case _ => None
  }

  /** `sep.join(parts)`. */
  function Join(parts: seq<string>, sep: string): (r: string)
    ensures parts == [] ==> r == []
    ensures |parts| == 1 ==> r == parts[0]
  {
    if parts == [] then []
    else if |parts| == 1 then parts[0]
    else parts[0] + sep + Join(parts[1..], sep)
  }
}
