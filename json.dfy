/**
 * Request payloads as the route handlers see them after `request.get_json()`:
 * a JSON object whose values are strings or null.
 */
module Json {
  import opened Base

  datatype Value = Null | Str(s: string)

  type Object = map<string, Value>

  /** `data.get(key)`: the string stored under `key`, or None when the key is absent or null. */
  function Get(data: Object, key: string): (r: Option<string>)
    ensures r.Some? <==> key in data && data[key].Str?
    ensures r.Some? ==> r.value == data[key].s
  {
    if key in data && data[key].Str? then Some(data[key].s) else None
  }

  /** `data.get(key, default)`: the default only when the key is absent; an explicit null stays None. */
  function GetOr(data: Object, key: string, default: string): (r: Option<string>)
    ensures key !in data ==> r == Some(default)
    ensures key in data ==> (r.Some? <==> data[key].Str?)
    ensures key in data && data[key].Str? ==> r == Some(data[key].s)
  {
    if key in data then Get(data, key) else Some(default)
  }

  /** Python truthiness of a payload value: null and the empty string are falsy. */
  predicate Truthy(v: Value)
  {
    v.Str? && v.s != ""
  }

  /**
   * `not data` for the parsed body: a JSON `null` body, or an empty object. Any
   * key at all counts as data, even one whose value is null.
   */
  predicate NoData(body: Option<Object>)
    ensures body.None? ==> NoData(body)
    ensures forall k :: body.Some? && k in body.value ==> !NoData(body)
  {
    body.None? || body.value == map[]
  }
}
