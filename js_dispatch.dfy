/** The entry points that pick a parser: sr_js_frame_parse, which tries the
    one known dialect, and sr_js_platform_parse_frame and
    sr_js_platform_parse_stacktrace, which check the platform's codes and
    then use the runtime's parser or, when the runtime has none, the
    engine's. No runtime has a parser of its own and V8 is the only engine,
    so a valid platform always reaches the V8 parsers. */
module JsDispatch {
  import opened Wrappers
  import opened JsFrame
  import opened JsPlatform
  import opened JsParseV8
  import opened JsTraceV8

  const NoDialect := "The frame does not match any JavaScript dialect"

  /** A parsed trace: sr_js_stacktrace with its exception type, its chain of
      frames and the platform it was parsed for. */
  datatype Stacktrace = Stacktrace(exceptionName: string, frames: FrameNode?, platform: Platform)

  /** sr_js_frame_parse: the V8 frame parser; a failure's message is
      replaced by the one saying that no dialect matched. */
  method FrameParse(s: string, p: nat) returns (r: Result<(Frame, nat), string>)
    requires p <= |s|
    ensures r.Ok? <==> ParseFrameSpec(s, p).Ok?
    ensures r.Ok? ==> r == ParseFrameSpec(s, p)
    ensures r.Err? ==> r.error == NoDialect
  {
    r := ParseFrameV8(s, p);
    if r.Err? {
      r := Err(NoDialect);
    }
  }

  /** sr_js_platform_parse_frame: nothing (and the input untouched) for an
      invalid runtime or engine code, otherwise what the V8 frame parser
      gives, the position behind the frame included. */
  method PlatformParseFrame(platform: Platform, s: string, p: nat) returns (r: Option<Result<(Frame, nat), string>>)
    requires p <= |s|
    ensures r.None? <==> !ValidPlatform(platform)
    ensures r.Some? ==> r.value == ParseFrameSpec(s, p)
  {
    if !ValidCode(RuntimeNames, platform.runtime) {
      return None;
    }
    if !ValidCode(EngineNames, platform.engine) {
      return None;
    }
    var frame := ParseFrameV8(s, p);
    r := Some(frame);
  }

  /** sr_js_platform_parse_stacktrace: nothing for an invalid runtime or
      engine code, otherwise what the V8 trace parser gives; a parsed trace
      carries the platform. */
  method PlatformParseStacktrace(platform: Platform, s: string, p: nat)
      returns (r: Option<Result<(Stacktrace, nat), string>>, ghost ns: seq<FrameNode>)
    requires p <= |s|
    ensures r.None? <==> !ValidPlatform(platform)
    ensures r.Some? ==> (r.value.Ok? <==> ParseTraceSpec(s, p).Ok?)
    ensures r.Some? && r.value.Err? ==> r.value.error == ParseTraceSpec(s, p).error
    ensures r.Some? && r.value.Ok? ==>
      var trace, spec := r.value.value.0, ParseTraceSpec(s, p).value;
      && trace.exceptionName == spec.0 && IsChain(trace.frames, ns) && Values(ns) == spec.1
      && r.value.value.1 == spec.2 && trace.platform == platform
    ensures forall n | n in ns :: fresh(n)
  {
    ns := [];
    if !ValidCode(RuntimeNames, platform.runtime) {
      r := None;
      return;
    }
    if !ValidCode(EngineNames, platform.engine) {
      r := None;
      return;
    }
    var parsed;
    parsed, ns := ParseStacktraceV8(s, p);
    if parsed.Err? {
      r := Some(Err(parsed.error));
      return;
    }
    var trace := Stacktrace(parsed.value.0, parsed.value.1, platform);
    r := Some(Ok((trace, parsed.value.2)));
  }
}
