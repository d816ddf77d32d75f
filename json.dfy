/**
 * A parsed JSON value, the shape `serde_json::Value` gives the backend, with
 * the accessors the backend uses and a renderer for the flat string objects
 * that the Gemini adapter builds.
 */
module Json {
  import opened Wrappers

  /** Numbers are kept as integers: no code path of the model inspects them. */
  datatype Json =
    | JNull
    | JBool(b: bool)
    | JNumber(n: int)
    | JString(s: string)
    | JArray(items: seq<Json>)
    | JObject(fields: map<string, Json>)

  /** `Value::get(key)`: a member of an object, `None` for every other kind of value. */
  function Get(j: Json, key: string): (r: Option<Json>)
    ensures r.Some? <==> j.JObject? && key in j.fields
    ensures r.Some? ==> r.value == j.fields[key]
  {
    if j.JObject? && key in j.fields then Some(j.fields[key]) else None
  }

  /** `get(key).and_then(|v| v.as_str())`. */
  function GetString(j: Json, key: string): (r: Option<string>)
    ensures r.Some? <==> Get(j, key).Some? && Get(j, key).value.JString?
    ensures r.Some? ==> Get(j, key).value == JString(r.value)
  {
    match Get(j, key)
    case Some(JString(s)) => Some(s)
    case _ => None
  }

  /** `get(key).and_then(|v| v.as_bool())`. */
  function GetBool(j: Json, key: string): (r: Option<bool>)
    ensures r.Some? <==> Get(j, key).Some? && Get(j, key).value.JBool?
  {
    match Get(j, key)
    case Some(JBool(b)) => Some(b)
    case _ => None
  }

  const HexDigits: string := "0123456789abcdef"

  /** serde_json's escape of one character inside a string literal. */
  function EscapeChar(c: char): (r: string)
    ensures |r| > 0
    ensures c == '"' || c == '\\' || c < ' ' <==> r[0] == '\\'
  {
    if c == '"' then "\\\""
    else if c == '\\' then "\\\\"
    else if c == '\n' then "\\n"
    else if c == '\r' then "\\r"
    else if c == '\t' then "\\t"
    else if c == '\U{0008}' then "\\b"
    else if c == '\U{000C}' then "\\f"
    else if c < ' ' then "\\u00" + [HexDigits[c as int / 16], HexDigits[c as int % 16]]
    else [c]
  }

  /** A JSON string literal for `s`. */
  function Quote(s: string): (r: string)
    ensures |r| >= 2 && r[0] == '"' && r[|r| - 1] == '"'
  {
    "\"" + QuoteBody(s) + "\""
  }

  function QuoteBody(s: string): string
  {
    if s == [] then [] else EscapeChar(s[0]) + QuoteBody(s[1..])
  }

  /** A flat object whose members are all strings, rendered compactly with the
      members in the order given (serde_json's default map sorts its keys). */
  function RenderStringObject(members: seq<(string, string)>): (r: string)
    ensures |r| >= 2 && r[0] == '{' && r[|r| - 1] == '}'
  {
    "{" + RenderMembers(members) + "}"
  }

  function RenderMembers(members: seq<(string, string)>): string
  {
    if members == [] then []
    else
      Quote(members[0].0) + ":" + Quote(members[0].1)
      + (if |members| > 1 then "," + RenderMembers(members[1..]) else [])
  }
}
