/** The decoded body of a quote-provider reply, as the HTTP client's `.json()`
    hands it to the service, and the Python coercions the service applies to
    its fields (`key in data`, `data[key]`, truthiness, `float(v)`, `int(v)`). */
module Provider {
  import opened Wrappers
  import opened Numbers

  /** A JSON value. Objects keep their members in document order. When no key
      is repeated this is the order Python's `dict.items()` yields them in;
      Python keeps a repeated key once, at its first position, with its last
      value, which this representation does not. */
  datatype Json =
    | JNull
    | JBool(b: bool)
    | JNumber(n: real)
    | JString(s: string)
    | JArray(items: seq<Json>)
    | JObject(members: seq<(string, Json)>)

  /** One outbound request: the decoded body, or `Unavailable` when the request
      or the JSON decoding raised. */
  datatype Response = Unavailable | Received(body: Json)

  /** The value stored under `key`, found at its first occurrence. */
  function Find(members: seq<(string, Json)>, key: string): (r: Option<Json>)
    ensures r.Some? <==> exists i :: 0 <= i < |members| && members[i].0 == key
    ensures r.Some? ==>
      exists i :: 0 <= i < |members| && members[i] == (key, r.value) && forall j :: 0 <= j < i ==> members[j].0 != key
  {
    if |members| == 0 then None
    else if members[0].0 == key then Some(members[0].1)
    else Find(members[1..], key)
  }

  /** The first member carrying `key` is the one found. */
  lemma {:induction false} FindFirst(members: seq<(string, Json)>, key: string, i: nat)
    requires i < |members| && members[i].0 == key
    requires forall j :: 0 <= j < i ==> members[j].0 != key
    ensures Find(members, key) == Some(members[i].1)
  {
    if i > 0 {
      FindFirst(members[1..], key, i - 1);
    }
  }

  /** Looking up `key` from position `k` on: a member with another key is passed over. */
  lemma FindSkip(members: seq<(string, Json)>, key: string, k: nat)
    requires k < |members| && members[k].0 != key
    ensures Find(members[k..], key) == Find(members[k + 1..], key)
  {
    assert members[k..][1..] == members[k + 1..];
  }

  /** Looking up `key` from position `k` on: a member with that key is the one found. */
  lemma FindHere(members: seq<(string, Json)>, key: string, k: nat)
    requires k < |members| && members[k].0 == key
    ensures Find(members[k..], key) == Some(members[k].1)
  {
  }

  /** `data[key]` after a successful `key in data`. Every non-object value makes
      the service return `None` either way (the membership test fails, or the
      subscript raises), so only objects have members here. */
  function Get(j: Json, key: string): (r: Option<Json>)
    ensures r.Some? <==> j.JObject? && exists i :: 0 <= i < |j.members| && j.members[i].0 == key
  {
    if j.JObject? then Find(j.members, key) else None
  }

  /** Python's truth value of a decoded value (`if time_series:`). */
  predicate Truthy(j: Json) {
    match j
    case JNull => false
    case JBool(b) => b
    case JNumber(n) => n != 0.0
    case JString(s) => |s| > 0
    case JArray(items) => |items| > 0
    case JObject(members) => |members| > 0
  }

  /** `float(v)`: numbers as they are, `True`/`False` as 1/0, strings parsed; anything else raises. */
  function ToFloat(j: Json): (r: Option<real>)
    ensures j.JNumber? ==> r == Some(j.n)
    ensures j.JNull? || j.JArray? || j.JObject? ==> r.None?
  {
    match j
    case JNumber(n) => Some(n)
    case JBool(b) => Some(if b then 1.0 else 0.0)
    case JString(s) => ParseReal(s)
    case _ => None
  }

  /** Python's `int(x)` on a number: truncation toward zero. */
  function Truncate(x: real): (r: int)
    ensures x >= 0.0 ==> r as real <= x < r as real + 1.0
    ensures x < 0.0 ==> r as real - 1.0 < x <= r as real
  {
    if x >= 0.0 then x.Floor else -((-x).Floor)
  }

  /** `int(v)`: numbers truncated, `True`/`False` as 1/0, strings parsed; anything else raises. */
  function ToInt(j: Json): (r: Option<int>)
    ensures j.JNumber? ==> r == Some(Truncate(j.n))
    ensures j.JNull? || j.JArray? || j.JObject? ==> r.None?
  {
    match j
    case JNumber(n) => Some(Truncate(n))
    case JBool(b) => Some(if b then 1 else 0)
    case JString(s) => ParseInt(s)
    case _ => None
  }

  /** `float(obj[key])`: a missing key and an unreadable value both raise. */
  function FloatField(obj: Json, key: string): Option<real> {
    match Get(obj, key)
    case None => None
    case Some(v) => ToFloat(v)
  }

  /** `int(obj[key])`. */
  function IntField(obj: Json, key: string): Option<int> {
    match Get(obj, key)
    case None => None
    case Some(v) => ToInt(v)
  }

  /** A field holding the provider's signed fixed-point text reads as the number it stands for. */
  lemma FloatFieldFixed(obj: Json, key: string, x: Fixed)
    requires WellFormedFixed(x) && Get(obj, key) == Some(JString(FixedSignedText(x)))
    ensures FloatField(obj, key) == Some(FixedSignedValue(x))
  {
    ParseFixedSignedText(x);
  }
}
