/**
 * Values produced by Python's `json.loads`, and the two dictionary
 * operations the service applies to a parsed object: `d.get(key)` and
 * `d[key] = value`.
 */
module JsonData {
  import opened Wrappers

  /**
   * A parsed JSON value. An object keeps its members in document order, as
   * the `dict` that `json.loads` builds does.
   */
  datatype Json =
    | JNull
    | JBool(b: bool)
    | JNumber(n: real)
    | JString(s: string)
    | JArray(items: seq<Json>)
    | JObject(members: Members)

  /** The members of an object, in order. */
  type Members = seq<(string, Json)>

  /** The keys of an object, in order (`list(d)`). */
  function Keys(ms: Members): seq<string>
  {
    if ms == [] then [] else [ms[0].0] + Keys(ms[1..])
  }

  /** `d.get(key)`: the value stored under `key`, or None when it is missing. */
  function Get(ms: Members, key: string): (r: Option<Json>)
    ensures r.Some? <==> key in Keys(ms)
    ensures r.Some? ==> (key, r.value) in ms
  {
    if ms == [] then None
    else if ms[0].0 == key then Some(ms[0].1)
    else Get(ms[1..], key)
  }

  /** `d[key] = value`: replaces the value of an existing key in place, or appends the key. */
  function Set(ms: Members, key: string, value: Json): Members
  {
    if ms == [] then [(key, value)]
    else if ms[0].0 == key then [(key, value)] + ms[1..]
    else [ms[0]] + Set(ms[1..], key, value)
  }

  /** After `d[key] = value` the key reads back `value` and every other key reads as before. */
  lemma {:induction false} SetReadsBack(ms: Members, key: string, value: Json)
    ensures Get(Set(ms, key, value), key) == Some(value)
    ensures forall k :: k != key ==> Get(Set(ms, key, value), k) == Get(ms, k)
  {
    if ms != [] && ms[0].0 != key {
      SetReadsBack(ms[1..], key, value);
      assert Set(ms, key, value)[1..] == Set(ms[1..], key, value);
    }
  }

  /** An existing key keeps its position; a new key is appended at the end. */
  lemma {:induction false} SetKeys(ms: Members, key: string, value: Json)
    ensures Keys(Set(ms, key, value)) == if key in Keys(ms) then Keys(ms) else Keys(ms) + [key]
  {
    if ms == [] {
    } else if ms[0].0 == key {
      assert Set(ms, key, value)[1..] == ms[1..];
    } else {
      SetKeys(ms[1..], key, value);
      assert Set(ms, key, value)[1..] == Set(ms[1..], key, value);
      assert key in Keys(ms) <==> key in Keys(ms[1..]);
    }
  }
}
