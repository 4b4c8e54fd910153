/** Decoded JSON values and the few Python operations the services apply to them. */
module Json {
  import opened Wrappers

  /** A decoded JSON document (numbers are integers: no endpoint here reads a fraction). */
  datatype Json =
    | JNull
    | JBool(b: bool)
    | JNumber(n: int)
    | JString(s: string)
    | JArray(items: seq<Json>)
    | JObject(fields: map<string, Json>)

  /** Python truthiness of a decoded value, as `if value:` tests it. */
  predicate Truthy(j: Json) {
    match j
    case JNull => false
    case JBool(b) => b
    case JNumber(n) => n != 0
    case JString(s) => s != ""
    case JArray(items) => |items| > 0
    case JObject(fields) => |fields| > 0
  }

  /** The name Python's `type(v).__name__` gives the decoded value. */
  function TypeName(j: Json): string {
    match j
    case JNull => "NoneType"
    case JBool(_) => "bool"
    case JNumber(_) => "int"
    case JString(_) => "str"
    case JArray(_) => "list"
    case JObject(_) => "dict"
  }

  /** `d.get(key, default)` on a dict. */
  function DictGet(fields: map<string, Json>, key: string, default: Json): Json {
    if key in fields then fields[key] else default
  }

  /** `str(b).lower()`: Python's boolean spelling, lower-cased. */
  function BoolText(b: bool): string {
    if b then "true" else "false"
  }

  /** Reads a lower-case boolean back, as the receiving endpoint does. */
  function ParseBoolText(s: string): (r: Option<bool>)
    ensures r.Some? <==> s == "true" || s == "false"
  {
    if s == "true" then Some(true) else if s == "false" then Some(false) else None
  }

  /** `BoolText` loses nothing: the string reads back as the same boolean, and no other
      boolean gives the same string. */
  lemma BoolTextRoundTrip(b: bool)
    ensures ParseBoolText(BoolText(b)) == Some(b)
    ensures BoolText(b) != BoolText(!b)
  {
  }

  /** `s.startswith(prefix)`. */
  predicate StartsWith(s: string, prefix: string) {
    |prefix| <= |s| && s[..|prefix|] == prefix
  }
}
