/** The parts of satyr's JSON layer that the frame and platform codecs use:
    the value tree, json_element, the JSON_READ_* and JSON_CHECK_TYPE checks
    and sr_json_append_escaped. Parsing JSON text is not part of this model. */
module Json {
  import opened Wrappers
  import opened TextScan

  datatype JsonValue =
    | JNull
    | JBool(b: bool)
    | JInteger(i: int)
    | JString(str: string)
    | JArray(items: seq<JsonValue>)
    | JObject(members: seq<(string, JsonValue)>)

  function TypeName(v: JsonValue): string {
    match v
    case JNull => "null"
    case JBool(_) => "boolean"
    case JInteger(_) => "integer"
    case JString(_) => "string"
    case JArray(_) => "array"
    case JObject(_) => "object"
  }

  /** The message JSON_CHECK_TYPE stores when `name` has the wrong type. */
  function TypeError(name: string, expected: string): (m: string)
    ensures Contains(m, name)
  {
    var m := "Invalid type of " + name + "; type '" + expected + "' expected";
    assert MatchAt(m, 16, name) by {
      assert m[16..16 + |name|] == name;
    }
    m
  }

  /** json_element: the value of the first member named `key`. */
  function Element(members: seq<(string, JsonValue)>, key: string): (r: Option<JsonValue>)
    ensures r.None? <==> forall i :: 0 <= i < |members| ==> members[i].0 != key
    ensures r.Some? ==> exists i :: 0 <= i < |members| && members[i] == (key, r.value)
  {
    if members == [] then None
    else if members[0].0 == key then Some(members[0].1)
    else
      var r := Element(members[1..], key);
      assert forall i :: 1 <= i < |members| ==> members[i] == members[1..][i - 1];
      r
  }

  /** Looking a key up in two member lists one after the other: the first
      list wins. */
  lemma {:induction false} ElementConcat(a: seq<(string, JsonValue)>, b: seq<(string, JsonValue)>, key: string)
    ensures Element(a + b, key) == if Element(a, key).Some? then Element(a, key) else Element(b, key)
  {
    if a == [] {
      assert a + b == b;
    } else {
      assert (a + b)[1..] == a[1..] + b;
      if a[0].0 != key {
        ElementConcat(a[1..], b, key);
      }
    }
  }

  /** JSON_READ_STRING: an absent member reads as None, a present one must be
      a string. */
  function ReadString(members: seq<(string, JsonValue)>, key: string): (r: Result<Option<string>, string>)
    ensures r.Err? <==> Element(members, key).Some? && !Element(members, key).value.JString?
    ensures r.Ok? ==> (r.value.None? <==> Element(members, key).None?)
    ensures r.Ok? && r.value.Some? ==> Element(members, key) == Some(JString(r.value.value))
  {
    match Element(members, key)
    case None => Ok(None)
    case Some(JString(x)) => Ok(Some(x))
    case Some(_) => Err(TypeError(key, "string"))
  }

  /** JSON_READ_UINT32: an absent member reads as None, a present one must be
      an integer between 0 and 2^32 - 1. */
  function ReadUInt32(members: seq<(string, JsonValue)>, key: string): (r: Result<Option<UInt32>, string>)
    ensures r.Err? <==>
      Element(members, key).Some? &&
      !(Element(members, key).value.JInteger? && 0 <= Element(members, key).value.i <= MaxUInt32)
    ensures r.Ok? ==> (r.value.None? <==> Element(members, key).None?)
    ensures r.Ok? && r.value.Some? ==> Element(members, key) == Some(JInteger(r.value.value))
  {
    match Element(members, key)
    case None => Ok(None)
    case Some(JInteger(n)) =>
      if 0 <= n <= MaxUInt32 then Ok(Some(n)) else Err(TypeError(key, "uint32"))
    case Some(_) => Err(TypeError(key, "integer"))
  }

  /** The escape sequence sr_json_append_escaped writes for one character. */
  function EscapeChar(c: char): (r: string)
    ensures 0 < |r| && '\n' !in r
  {
    match c
    case '\U{8}' => "\\b"
    case '\U{C}' => "\\f"
    case '\n' => "\\n"
    case '\r' => "\\r"
    case '\t' => "\\t"
    case '"' => "\\\""
    case '\\' => "\\\\"
    case _ => [c]
  }

  function EscapeChars(s: string): (r: string)
    ensures '\n' !in r
    ensures |s| <= |r|
  {
    if s == [] then [] else EscapeChar(s[0]) + EscapeChars(s[1..])
  }

  /** sr_json_append_escaped: a quoted JSON string literal, all on one line. */
  function Escaped(s: string): (r: string)
    ensures 2 + |s| <= |r|
    ensures r[0] == '"' && r[|r| - 1] == '"'
    ensures '\n' !in r
  {
    "\"" + EscapeChars(s) + "\""
  }
}
