/**
 * Decoded JSON documents, as `json.loads` hands them to the client, and the
 * two dictionary accesses the client and the handler perform on them.
 */
module JsonValues {
  import opened Wrappers

  /** A decoded JSON value. Numbers are integers here: no number is ever compared or computed with. */
  datatype Json =
    | Null
    | Bool(b: bool)
    | Number(n: int)
    | Str(s: string)
    | Array(items: seq<Json>)
    | Object(fields: map<string, Json>)

  /**
   * Python's `value[key]` on a decoded value: the member when `value` is an
   * object that holds `key`, and None where Python raises (a KeyError for a
   * missing key, a TypeError when `value` is not an object).
   */
  function Field(value: Json, key: string): (member: Option<Json>)
  {
    if value.Object? && key in value.fields then Some(value.fields[key]) else None
  }

  /** Python's `d.get(key, default)` on a dictionary. */
  function GetOr(fields: map<string, Json>, key: string, default: Json): (member: Json)
  {
    if key in fields then fields[key] else default
  }
}
