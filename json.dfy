/**
 * JSON values as the core sees them: the parsed verification key, the
 * `proof` record of a PayrollProof, and the text `JSON.stringify` makes of
 * them (section 25.5.2 of ECMA-262, restricted to the values below).
 */
module Json {
  import opened Wrappers
  import opened JsText

  /** A JSON value. Numbers are integers; object members keep their insertion order. */
  datatype Json =
    | JNull
    | JBool(b: bool)
    | JNumber(n: int)
    | JString(s: string)
    | JArray(items: seq<Json>)
    | JObject(members: seq<(string, Json)>)

  /** `Boolean(v)`: null, false, 0 and the empty string are falsy; everything else is truthy. */
  predicate Truthy(v: Json)
  {
    match v
    case JNull => false
    case JBool(b) => b
    case JNumber(n) => n != 0
    case JString(s) => s != ""
    case JArray(_) => true
    case JObject(_) => true
  }

  /** Property lookup `obj[key]` on an object's members; None is `undefined`. */
  function Get(members: seq<(string, Json)>, key: string): Option<Json>
  {
    if |members| == 0 then None
    else if members[0].0 == key then Some(members[0].1)
    else Get(members[1..], key)
  }

  /** A character `JSON.stringify` writes unchanged inside a string. */
  predicate Plain(c: char)
  {
    c != '"' && c != '\\' && c as int >= 0x20
  }

  /** The escape `JSON.stringify` writes for one code point of a string. */
  function EscapeChar(c: char): (r: string)
    ensures |r| >= 1
    ensures r[0] == '\\' || (r == [c] && Plain(c))
    ensures Plain(c) <==> r == [c]
  {
    var n := c as int;
    if Plain(c) then [c]
    else if c == '"' then "\\\""
    else if c == '\\' then "\\\\"
    else if n == 0x08 then "\\b"
    else if n == 0x09 then "\\t"
    else if n == 0x0A then "\\n"
    else if n == 0x0C then "\\f"
    else if n == 0x0D then "\\r"
    else "\\u00" + [HexAlphabet[n / 16], HexAlphabet[n % 16]]
  }

  function EscapeString(s: string): string
  {
    if |s| == 0 then "" else EscapeChar(s[0]) + EscapeString(s[1..])
  }

  /** QuoteJSONString: the string between double quotes, with its specials escaped. */
  function Quote(s: string): string
  {
    "\"" + EscapeString(s) + "\""
  }

  /** A string without quotes, backslashes or control characters is quoted as it is. */
  lemma {:induction false} QuotePlain(s: string)
    requires forall i :: 0 <= i < |s| ==> Plain(s[i])
    ensures EscapeString(s) == s && Quote(s) == "\"" + s + "\""
  {
    if |s| > 0 {
      QuotePlain(s[1..]);
      assert s == [s[0]] + s[1..];
    }
  }

  /** How `JSON.stringify` renders an integer. */
  function NumberToString(n: int): string
  {
    if n < 0 then "-" + NatToString(-n) else NatToString(n)
  }

  /** `JSON.stringify(v)` with no replacer and no indentation. */
  function Stringify(v: Json): (r: string)
    ensures |r| >= 1
    ensures v.JString? ==> |r| >= 2 && r[0] == '"' && r[|r| - 1] == '"'
    ensures v.JArray? ==> r[0] == '[' && r[|r| - 1] == ']'
    ensures v.JObject? ==> r[0] == '{' && r[|r| - 1] == '}'
    decreases v, 0
  {
    match v
    case JNull => "null"
    case JBool(b) => if b then "true" else "false"
    case JNumber(n) => NumberToString(n)
    case JString(s) => Quote(s)
    case JArray(items) =>
      "[" + Join(seq(|items|, i requires 0 <= i < |items| => Stringify(items[i])), ",") + "]"
    case JObject(members) =>
      "{" + Join(seq(|members|, i requires 0 <= i < |members| =>
                       MemberText(members[i].0, members[i].1)), ",") + "}"
  }

  /** One object member as `JSON.stringify` writes it: the quoted key, a colon, the value. */
  function MemberText(key: string, value: Json): string
    decreases value, 1
  {
    Quote(key) + ":" + Stringify(value)
  }

  /** An array of JSON strings, as `publicSignals` is. */
  function StringArray(ss: seq<string>): (r: Json)
    ensures r.JArray? && |r.items| == |ss|
    ensures forall i :: 0 <= i < |ss| ==> r.items[i] == JString(ss[i])
  {
    JArray(seq(|ss|, i requires 0 <= i < |ss| => JString(ss[i])))
  }
}
