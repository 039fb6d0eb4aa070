/** The platform registry of js_platform.c: the engine and runtime name
    tables, the lookups between names and codes, sr_js_platform_from_string
    and the platform's JSON form. A platform is the pair of an engine code
    and a runtime code; code 0 means unset. */
module JsPlatform {
  import opened Wrappers
  import opened TextScan
  import opened Json

  /** SR_JS_ENGINE_V8 and SR_JS_RUNTIME_NODEJS. */
  const EngineV8: nat := 1
  const RuntimeNodeJs: nat := 1

  /** The `name` column of js_engines and js_runtimes, indexed by code; slot 0
      is never filled in. Their lengths are _SR_JS_ENGINE_UPPER_BOUND and
      _SR_JS_RUNTIME_UPPER_BOUND. */
  const EngineNames: seq<Option<string>> := [None, Some("V8")]
  const RuntimeNames: seq<Option<string>> := [None, Some("Node.js")]

  /** The packed (engine, runtime) pair; SR_JS_PLATFORM_NULL is (0, 0). */
  datatype Platform = Platform(engine: nat, runtime: nat)

  const NullPlatform := Platform(0, 0)

  /** SR_JS_ENGINE_VALIDITY_CHECK and SR_JS_RUNTIME_VALIDITY_CHECK. */
  predicate ValidCode(table: seq<Option<string>>, code: nat) {
    1 <= code < |table|
  }

  predicate ValidPlatform(p: Platform) {
    ValidCode(EngineNames, p.engine) && ValidCode(RuntimeNames, p.runtime)
  }

  /** Every slot past 0 holds a name, and no name is listed twice. */
  predicate WellFormedTable(table: seq<Option<string>>) {
    && (forall i :: 1 <= i < |table| ==> table[i].Some?)
    && (forall i, j :: 1 <= i < j < |table| ==> table[i] != table[j])
  }

  lemma TablesWellFormed()
    ensures WellFormedTable(EngineNames) && WellFormedTable(RuntimeNames)
  {
  }

  /* ---------------------------------------------------------------------
     Names and codes
     --------------------------------------------------------------------- */

  /** sr_js_engine_to_string and sr_js_runtime_to_string: the table entry of
      a valid code, nothing for an invalid one. */
  function NameOf(table: seq<Option<string>>, code: nat): (r: Option<string>)
    requires WellFormedTable(table)
    ensures r.Some? <==> ValidCode(table, code)
    ensures r.Some? ==> table[code] == r
  {
    if ValidCode(table, code) then table[code] else None
  }

  /** The search of sr_js_engine_from_string and sr_js_runtime_from_string
      from index `i` on: the first index whose name equals `name`, or 0. */
  function CodeOf(table: seq<Option<string>>, name: string, i: nat): (r: nat)
    requires 1 <= i
    ensures r == 0 || (i <= r < |table| && table[r] == Some(name))
    ensures r != 0 ==> forall j :: i <= j < r ==> table[j] != Some(name)
    ensures r == 0 <==> forall j :: i <= j < |table| ==> table[j] != Some(name)
    decreases |table| - i
  {
    if i >= |table| then 0
    else if table[i] == Some(name) then i
    else CodeOf(table, name, i + 1)
  }

  /** The loop of sr_js_engine_from_string and sr_js_runtime_from_string:
      codes from 1 upwards, comparing the name exactly. */
  method FromString(table: seq<Option<string>>, name: string) returns (code: nat)
    ensures code == CodeOf(table, name, 1)
  {
    code := 1;
    while code < |table|
      invariant 1 <= code
      invariant CodeOf(table, name, code) == CodeOf(table, name, 1)
      decreases |table| - code
    {
      if table[code] == Some(name) {
        return;
      }
      code := code + 1;
    }
    return 0;
  }

  /** The code of a listed name is found again from its name. */
  lemma {:induction false} CodeOfName(table: seq<Option<string>>, code: nat, i: nat)
    requires WellFormedTable(table) && 1 <= i <= code < |table|
    ensures CodeOf(table, table[code].value, i) == code
    decreases code - i
  {
    if i < code {
      assert table[i] != table[code];
      CodeOfName(table, code, i + 1);
    }
  }

  /** from_string(to_string(c)) == c for every valid code. */
  lemma NameRoundTrip(table: seq<Option<string>>, code: nat)
    requires WellFormedTable(table) && ValidCode(table, code)
    ensures CodeOf(table, NameOf(table, code).value, 1) == code
  {
    CodeOfName(table, code, 1);
  }

  /** to_string(from_string(n)) == n for every name the table knows. */
  lemma CodeRoundTrip(table: seq<Option<string>>, name: string)
    requires WellFormedTable(table) && CodeOf(table, name, 1) != 0
    ensures NameOf(table, CodeOf(table, name, 1)) == Some(name)
  {
  }

  function EngineCode(name: string): nat {
    CodeOf(EngineNames, name, 1)
  }

  function RuntimeCode(name: string): nat {
    CodeOf(RuntimeNames, name, 1)
  }

  /* ---------------------------------------------------------------------
     sr_js_platform_from_string
     --------------------------------------------------------------------- */

  /** The engine each runtime runs on: Node.js on V8. */
  function EngineOfRuntime(runtime: nat): (r: nat)
    ensures r != 0 <==> runtime == RuntimeNodeJs
    ensures r != 0 ==> ValidCode(EngineNames, r) && EngineNames[r] == Some("V8")
                       && RuntimeNames[runtime] == Some("Node.js")
  {
    if runtime == RuntimeNodeJs then EngineV8 else 0
  }

  /** sr_js_platform_from_string: the platform of a runtime name, or the
      message for an unknown runtime (the null platform). The version only
      appears in the message for a runtime without an engine. */
  function PlatformFromString(runtimeName: string, runtimeVersion: Option<string>): (r: Result<Platform, string>)
    ensures r.Ok? <==> RuntimeCode(runtimeName) != 0
    ensures r.Ok? ==> ValidPlatform(r.value) && RuntimeNames[r.value.runtime] == Some(runtimeName)
    ensures r.Err? ==> Contains(r.error, runtimeName)
  {
    var runtime := RuntimeCode(runtimeName);
    if runtime == 0 then
      var m := "No known JavaScript platform with runtime '" + runtimeName + "'";
      assert MatchAt(m, 43, runtimeName) by {
        assert m[43..43 + |runtimeName|] == runtimeName;
      }
      Err(m)
    else
      var engine := EngineOfRuntime(runtime);
      if engine == 0 then
        Err("No known JavaScript engine for runtimeby '" + runtimeName
            + (if runtimeVersion.Some? then " " else "") + runtimeVersion.GetOr("") + "'")
      else
        Ok(Platform(engine, runtime))
  }

  /** "Node.js" names the platform (V8, Node.js), whatever the version. */
  lemma NodeJsPlatform(version: Option<string>)
    ensures PlatformFromString("Node.js", version) == Ok(Platform(EngineV8, RuntimeNodeJs))
  {
    assert RuntimeNames[1] == Some("Node.js");
  }

  /* ---------------------------------------------------------------------
     The platform's JSON form
     --------------------------------------------------------------------- */

  function OrUnknown(name: Option<string>): string {
    if name.Some? then name.value else "<unknown>"
  }

  const JsonHead := "{      \"engine\": \""
  const JsonMiddle := "\"\n,      \"runtime\": \""
  const JsonTail := "\"\n}"

  /** The members the JSON text of a platform spells out: the engine name
      and the runtime name, "<unknown>" for an invalid code. */
  function JsonMembers(p: Platform): seq<(string, JsonValue)> {
    [("engine", JString(OrUnknown(NameOf(EngineNames, p.engine)))),
     ("runtime", JString(OrUnknown(NameOf(RuntimeNames, p.runtime))))]
  }

  /** sr_js_platform_to_json: the engine and runtime names written into a
      fixed template without escaping. The result opens with '{', holds the
      engine name at 18 and the runtime name 21 characters behind it, and
      closes with '}'. */
  function PlatformToJson(p: Platform): (r: string)
    ensures var e, t := JsonMembers(p)[0].1.str, JsonMembers(p)[1].1.str;
      && |r| == 18 + |e| + 21 + |t| + 3
      && r[0] == '{' && r[|r| - 1] == '}'
      && MatchAt(r, 18, e) && MatchAt(r, 18 + |e| + 21, t)
  {
    var e := OrUnknown(NameOf(EngineNames, p.engine));
    var t := OrUnknown(NameOf(RuntimeNames, p.runtime));
    var r := JsonHead + e + JsonMiddle + t + JsonTail;
    assert |JsonHead| == 18 && |JsonMiddle| == 21 && |JsonTail| == 3;
    assert JsonHead[0] == '{' && JsonTail[2] == '}';
    Template(JsonHead, e, JsonMiddle, t, JsonTail);
    r
  }

  /** Where the two fills of a three-part template lie. */
  lemma Template(h: string, e: string, m: string, t: string, z: string)
    ensures var r := h + e + m + t + z;
      && |r| == |h| + |e| + |m| + |t| + |z|
      && (|h| > 0 ==> r[0] == h[0]) && (|z| > 0 ==> r[|r| - 1] == z[|z| - 1])
      && MatchAt(r, |h|, e) && MatchAt(r, |h| + |e| + |m|, t)
  {
  }

  /** sr_js_platform_from_json: the engine member is read and looked up
      first, then the runtime member; a missing member, a member that is not
      a string and an unknown name each give the null platform and a
      message. */
  function PlatformFromJson(root: JsonValue): (r: Result<Platform, string>)
    requires root.JObject?
    ensures r.Ok? ==> ValidPlatform(r.value)
    ensures r.Ok? ==>
      && Element(root.members, "engine") == Some(JString(EngineNames[r.value.engine].value))
      && Element(root.members, "runtime") == Some(JString(RuntimeNames[r.value.runtime].value))
  {
    match ReadString(root.members, "engine")
    case Err(e) => Err(e)
    case Ok(None) => Err("No 'engine' member")
    case Ok(Some(engineName)) =>
      var engine := EngineCode(engineName);
      if engine == 0 then Err("Unknown JavaScript engine '" + engineName + "'")
      else match ReadString(root.members, "runtime")
        case Err(e) => Err(e)
        case Ok(None) => Err("No 'runtime' member")
        case Ok(Some(runtimeName)) =>
          var runtime := RuntimeCode(runtimeName);
          if runtime == 0 then Err("Unknown JavaScript runtime '" + runtimeName + "'")
          else Ok(Platform(engine, runtime))
  }

  /** Reading back the members of a valid platform gives the platform. */
  lemma PlatformJsonRoundTrip(p: Platform)
    requires ValidPlatform(p)
    ensures PlatformFromJson(JObject(JsonMembers(p))) == Ok(p)
  {
    TablesWellFormed();
    NameRoundTrip(EngineNames, p.engine);
    NameRoundTrip(RuntimeNames, p.runtime);
    var m := JsonMembers(p);
    assert "runtime" != "engine" by {
      assert |"runtime"| != |"engine"|;
    }
    assert Element(m, "engine") == Some(m[0].1);
    assert Element(m, "runtime") == Some(m[1].1) by {
      assert m[1..][0] == m[1];
    }
  }

  /** Known engine and runtime names give their platform, whatever else the
      object holds: with PlatformFromJson's own contract, decoding succeeds
      exactly on such objects. */
  lemma PlatformFromJsonKnownNames(root: JsonValue, engine: string, runtime: string)
    requires root.JObject?
    requires Element(root.members, "engine") == Some(JString(engine)) && EngineCode(engine) != 0
    requires Element(root.members, "runtime") == Some(JString(runtime)) && RuntimeCode(runtime) != 0
    ensures PlatformFromJson(root) == Ok(Platform(EngineCode(engine), RuntimeCode(runtime)))
    ensures ValidPlatform(PlatformFromJson(root).value)
  {
  }

  /** The engine is checked before the runtime: without an engine member
      the message is about the engine, whatever the runtime member holds. */
  lemma EngineCheckedFirst(root: JsonValue)
    requires root.JObject? && Element(root.members, "engine").None?
    ensures PlatformFromJson(root) == Err("No 'engine' member")
  {
  }

  /** An unknown engine name is reported by name before the runtime member
      is looked at. */
  lemma UnknownEngineReported(root: JsonValue, name: string)
    requires root.JObject? && Element(root.members, "engine") == Some(JString(name))
    requires forall i :: 1 <= i < |EngineNames| ==> EngineNames[i] != Some(name)
    ensures PlatformFromJson(root) == Err("Unknown JavaScript engine '" + name + "'")
  {
  }

  /** A known engine with a missing or unknown runtime gives the runtime's
      message. */
  lemma RuntimeCheckedSecond(root: JsonValue, engine: string)
    requires root.JObject? && Element(root.members, "engine") == Some(JString(engine))
    requires EngineCode(engine) != 0
    ensures Element(root.members, "runtime").None? ==> PlatformFromJson(root) == Err("No 'runtime' member")
    ensures forall name | Element(root.members, "runtime") == Some(JString(name)) && RuntimeCode(name) == 0 ::
      PlatformFromJson(root) == Err("Unknown JavaScript runtime '" + name + "'")
  {
  }
}
