/** Values as the analyzer sees them: decoded JSON, the outcome of an
    evaluation that may raise, and the Python number conversions the
    analyzer applies to JSON values. */
module PyValues {

  datatype Option<T> = None | Some(value: T)

  /** The outcome of evaluating Python code that may raise an exception
      which the surrounding code does not catch (a TypeError from
      `None * 100`, an AttributeError from `.get` on a list, ...). */
  datatype Result<T> = Ok(value: T) | Raised

  /** The two parts of `urllib.parse.urlparse`'s result the analyzer reads. */
  datatype UrlParts = UrlParts(scheme: string, netloc: string)

  /** `urlparse` itself is library code: the model takes it as a parameter,
      returning None where it raises a ValueError (a malformed IPv6 host,
      for instance). */
  type UrlParser = string -> Option<UrlParts>

  /** A decoded JSON value. An object keeps its members as the document
      lists them, a repeated name included; the dict the JSON decoder
      builds from it is given by `Lookup` (a repeated name keeps its last
      value) and `Items` (`dict.items()`). */
  datatype Json =
    | JNull
    | JBool(b: bool)
    | JNum(n: real)
    | JStr(s: string)
    | JArr(items: seq<Json>)
    | JObj(members: seq<(string, Json)>)

  /** The value the decoded dict stores under `key`: a later member with
      the same name overwrites an earlier one, so the last one wins. */
  function Lookup(members: seq<(string, Json)>, key: string): (r: Option<Json>)
    ensures r.None? <==> forall i :: 0 <= i < |members| ==> members[i].0 != key
    ensures r.Some? ==> exists i :: 0 <= i < |members| && members[i] == (key, r.value)
                                    && forall j :: i < j < |members| ==> members[j].0 != key
  {
    if members == [] then None
    else
      var n := |members| - 1;
      assert forall i :: 0 <= i < n ==> members[..n][i] == members[i];
      if members[n].0 == key then Some(members[n].1) else Lookup(members[..n], key)
  }

  /** No name occurs twice. */
  predicate DistinctNames(d: seq<(string, Json)>)
  {
    forall i, j :: 0 <= i < j < |d| ==> d[i].0 != d[j].0
  }

  /** `d[key] = value` on a dict listed as its items: an existing key keeps
      its place and takes the new value, a new key goes last. */
  function Put(d: seq<(string, Json)>, key: string, value: Json): (r: seq<(string, Json)>)
    ensures DistinctNames(d) ==> DistinctNames(r)
    ensures DistinctNames(d) ==> forall x :: x in r <==> (x in d && x.0 != key) || x == (key, value)
  {
    if d == [] then [(key, value)]
    else if d[0].0 == key then
      assert DistinctNames(d) ==> forall x :: x in d[1..] ==> x.0 != key;
      [(key, value)] + d[1..]
    else
      var rest := Put(d[1..], key, value);
      assert forall x :: x in d <==> x == d[0] || x in d[1..];
      [d[0]] + rest
  }

  /** `dict.items()` of the decoded object: each name once, with the value
      the dict stores under it. */
  function Items(members: seq<(string, Json)>): (r: seq<(string, Json)>)
    ensures DistinctNames(r)
    ensures forall x :: x in r <==> Lookup(members, x.0) == Some(x.1)
  {
    if members == [] then []
    else
      var n := |members| - 1;
      Put(Items(members[..n]), members[n].0, members[n].1)
  }

  /** `d.get(key, default)` on a value already known to be a dict. */
  function Field(members: seq<(string, Json)>, key: string, default: Json): (r: Json)
    ensures Lookup(members, key).None? ==> r == default
    ensures Lookup(members, key).Some? ==> r == Lookup(members, key).value
  {
    match Lookup(members, key) case Some(v) => v case None => default
  }

  /** `obj.get(key, default)`: only a dict has `.get`, anything else raises. */
  function Get(obj: Json, key: string, default: Json): (r: Result<Json>)
    ensures r.Raised? <==> !obj.JObj?
    ensures obj.JObj? && Lookup(obj.members, key).None? ==> r == Ok(default)
    ensures obj.JObj? && Lookup(obj.members, key).Some? ==> r == Ok(Lookup(obj.members, key).value)
  {
    match obj
    case JObj(m) => (match Lookup(m, key) case Some(v) => Ok(v) case None => Ok(default))
    case _ => Raised
  }

  /** The number a JSON value stands for in a Python comparison such as
      `v < 0.9`: a bool compares as 0 or 1, None, strings, lists and
      dicts raise a TypeError against a number. */
  function Numeric(v: Json): (r: Result<real>)
    ensures r.Ok? <==> v.JNum? || v.JBool?
    ensures v.JNum? ==> r == Ok(v.n)
  {
    match v
    case JNum(n) => Ok(n)
    case JBool(b) => Ok(if b then 1.0 else 0.0)
    case _ => Raised
  }

  /** Python truthiness of a decoded JSON value. */
  predicate Truthy(v: Json)
  {
    match v
    case JNull => false
    case JBool(b) => b
    case JNum(n) => n != 0.0
    case JStr(s) => s != []
    case JArr(items) => items != []
    case JObj(members) => members != []
  }

  /** Python's `int(x)` on a float: truncation toward zero. */
  function Trunc(x: real): (k: int)
    ensures 0.0 <= x ==> k as real <= x < k as real + 1.0
    ensures x < 0.0 ==> k as real - 1.0 < x <= k as real
  {
    if 0.0 <= x then x.Floor else -((-x).Floor)
  }

  /** The fraction `k / n` of two counts, `0 <= k <= n`, lies in [0, 1],
      is 1 exactly when `k == n`, and gives `k` back when scaled by `n`. */
  lemma FractionFacts(k: nat, n: nat)
    requires 0 < n && k <= n
    ensures var q := k as real / n as real;
      && q * n as real == k as real
      && 0.0 <= q <= 1.0
      && (q == 1.0 <==> k == n)
  {
    var q := k as real / n as real;
    var nr := n as real;
    assert q * nr == k as real;
    if q == 1.0 {
      assert 1.0 * nr == k as real;
    }
  }

  /** A weight scaled by a fraction in [0, 1] stays within [0, weight],
      strictly below it for a fraction below 1. */
  lemma ScaledFraction(q: real, w: real)
    requires 0.0 <= q <= 1.0 && 0.0 < w
    ensures 0.0 <= q * w <= w
    ensures q < 1.0 ==> q * w < w
  {
    assert 0.0 * w <= q * w <= 1.0 * w;
    if q < 1.0 {
      assert q * w < 1.0 * w;
    }
  }

  /** `int(v * 100)`, the conversion of a 0..1 fraction to a percentage.
      A bool multiplies as 0 or 1; None, lists and dicts raise. A string
      is repeated 100 times by `*`, and `int` accepts the result when it is
      made of digits (so "1" gives a 100-digit integer); the model lets
      every string raise. */
  function Percent(v: Json): (r: Result<int>)
    ensures r.Ok? <==> v.JNum? || v.JBool?
    ensures v.JNum? && 0.0 <= v.n <= 1.0 ==> 0 <= r.value <= 100
    ensures v.JNum? && 0.0 <= v.n ==> r.value as real <= 100.0 * v.n < r.value as real + 1.0
  {
    match v
    case JNum(n) => Ok(Trunc(n * 100.0))
    case JBool(b) => Ok(if b then 100 else 0)
    case _ => Raised
  }

  /** Python's `s[:n]` on a list: the first n elements, or all of them. */
  function Take<T>(s: seq<T>, n: nat): (r: seq<T>)
    ensures |r| == if |s| <= n then |s| else n
    ensures forall i :: 0 <= i < |r| ==> r[i] == s[i]
  {
    if |s| <= n then s else s[..n]
  }
}
