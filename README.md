# satyr JavaScript support in Dafny

This project models the JavaScript part of satyr, the crash-report library:
- the V8/Node.js stack-trace and frame parsers;
- the registry of JavaScript platforms (engine and runtime codes, their names and the platform's JSON form);
- the dispatch of parsing by platform;
- the operations on JavaScript frames: duplication, appending to a chain, the two comparators, the hash texts, the text rendering, and JSON encoding and decoding.

The model proves what these operations compute and which properties they keep.

Modules:
- **Wrappers**: `Option` and `Result`.
- **TextScan**: the string helpers the parsers call, such as `sr_strstr_location`, `sr_parse_uint32`, `sr_strndup` and `sr_skip_*`. Their bodies live outside the modelled files, so each is a small function with a contract.
- **Json**: the JSON value tree, `json_element`, the `JSON_READ_*` and `JSON_CHECK_TYPE` checks, and escaping.
- **Strbuf**: the string buffer as a class with an appending method.
- **JsFrame** (lib/js_frame.c):
  - the `Frame` datatype, and the heap node `FrameNode` whose `next` link the chain operations update in place;
  - `Dup` (recursive) and `Append` (a loop);
  - the comparators, including the uint32 wrap-around of the source;
  - the hash and rendering texts, appended to a `StrBuf`;
  - JSON encoding and decoding.
- **JsParseV8** (lib/js_platform.c:242-400): the frame parser.
  - A specification function, `ParseFrameSpec`, is split into stages.
  - Imperative methods with the source's cursor loops are each proved equal to their stage.
  - Lemmas cover the parser's messages and the round trip with the text rendering, both as written and as intended.
- **JsTraceV8** (lib/js_platform.c:422-504): the trace parser. A header function, a recursive frame-loop function, and a method whose loop links fresh `FrameNode`s behind the last one.
- **JsPlatform** (lib/js_platform.c:63-240): the registry. Name tables, lookup loops proved against a search function, `sr_js_platform_from_string`, and the platform's JSON form.
- **JsDispatch** (lib/js_platform.c:402-420, 506-530, lib/js_frame.c:182-193): the entry points that check the platform's codes and call the V8 parsers.

How the model represents the source:
- The C input string is a `string` plus a position. The input holds no '\0' character: the terminating NUL is represented only by the end of the sequence.
- A parser that fails returns `Err` with the text it leaves in `location->message`. A parser that succeeds returns the position it would store back into `*input`.
- A failed dispatch or parse returns no position, so the caller's input is untouched.
- An invalid platform code is `None`.

Where the code and the design disagree, the model follows the code. In particular, it follows the frame parser's field assignments and `to_json`'s output, which the comments and tests of the repository contradict. The intended versions are modelled beside them; see Findings.

## Model

| member | source | states |
|---|---|---|
| TextScan.FindFrom | lib/js_platform.c:256-261 | `sr_strstr_location` finds "at " at or after the position; FindFromFirst: it finds the first one, and fails only when there is none |
| TextScan.FindFromFirst | lib/js_platform.c:256 | every occurrence at or after the start bounds the found position from above, so the search cannot fail while one exists |
| TextScan.SpanEnd | lib/js_platform.c:282-283 | the end of the current line: the first '\n' at or after the position, or the end of the input |
| TextScan.SpanEndAt | lib/js_platform.c:283 | the span ends exactly at the first `c` (or the end) when nothing before it is `c` |
| TextScan.IndexOf | lib/js_platform.c:294 | `strchr` from the position: the first '(' anywhere in the rest of the input, not only on the current line; None exactly when there is none |
| TextScan.ParseUInt32 | lib/js_platform.c:356 | `sr_parse_uint32`: fails exactly on no digit or a value above 2^32-1; otherwise the decimal value of the digit run and the position behind it |
| TextScan.ParseUInt32Dec | lib/js_platform.c:380 | reading back the decimal text of a uint32 followed by a non-digit gives the number and the position behind the text |
| TextScan.Dec | lib/js_frame.c:278-281 | the decimal text of a number is non-empty, all digits, and reads back as the number |
| TextScan.Strndup | lib/js_platform.c:390 | `sr_strndup`: a copy of exactly the characters between the two positions; StrndupSlice: it equals the slice |
| TextScan.ParseCharCspan | lib/js_platform.c:433-437 | `sr_parse_char_cspan`: fails exactly at a ':' or the end; otherwise the non-empty ':'-free run and the position of the ':' or the end |
| TextScan.SkipString | lib/js_platform.c:454-458 | `sr_skip_string`: succeeds exactly when the text follows, and steps over it |
| TextScan.SkipChar | lib/js_platform.c:486 | `sr_skip_char`: succeeds exactly when the character is next, and steps over it |
| TextScan.SkipToNextLine | lib/js_platform.c:466-470 | `sr_skip_to_next_line_location`: fails exactly when no '\n' follows; otherwise steps past the first one |
| JsParseV8.ReadBack | lib/js_platform.c:342-385 | the two backward scans: on success the file line's colon lies strictly inside the region, in front of the cursor, and the line column read first is kept; the four messages for a missing colon or a bad number |
| JsParseV8.LastColon | lib/js_platform.c:343-344 | the last ':' behind the region's start and up to the cursor, none exactly when the region holds no ':' |
| JsParseV8.LastColonIsLast | lib/js_platform.c:343-344 | no ':' lies behind the colon LastColon finds |
| JsParseV8.ReadBackScan | lib/js_platform.c:342-350 | one backward scan stops at the last colon of the region, and fails with its "Unable to locate ..." message exactly when there is none |
| JsParseV8.ReadBackByColons | lib/js_platform.c:342-385 | on every input the scans equal LastTwoColons: the line column is the number behind the last colon, the file line the number behind the last colon in front of it, each missing colon or bad number with its message |
| JsParseV8.ReadBackErrorCauses | lib/js_platform.c:346-384 | if and only if, per message: no ':' in the region; no number behind the last colon; no ':' in front of it; no number behind that one |
| JsParseV8.ParseFrameSpec | lib/js_platform.c:256-261 | a parsed frame consumes at least the three characters of "at ", and the position stored back is at a '\n' or the end |
| JsParseV8.FrameAfterBeginning | lib/js_platform.c:282-333 | on success the position is at the line's '\n' or the end, and the frame holds, as written, only a non-empty function name without '\n' and the line column |
| JsParseV8.BraceNotFoundCause | lib/js_platform.c:289-299 | "Opening brace with file information not found." exactly when the line ends in ')' and no '(' follows "at " anywhere in the input |
| JsParseV8.FileInfoInParens | lib/js_platform.c:289-325 | when the line ends in ')', the file information runs from behind the first '(' after "at " to in front of that ')' |
| JsParseV8.FileInfoBare | lib/js_platform.c:289-333 | when the line does not end in ')', the file information runs from right behind "at " to the end of the line |
| JsParseV8.FrameFromFileInfo | lib/js_platform.c:342-394 | as written: on success the file name and file line stay unset, the function name is non-empty, and the position is the end of the line |
| JsParseV8.FrameFromFileInfoByColons | lib/js_platform.c:342-394 | on every input: the function name is the text from the start up to the second-to-last colon, the line column is the number behind it (the file line), and every failure is LastTwoColons' message |
| JsParseV8.ColonsInLocation | lib/js_platform.c:342-390 | "at a:b:01:2" gives the function name "a:b" and the line column 1: colons in the location go to the name and a leading zero is read |
| JsParseV8.ParseFrameV8 | lib/js_platform.c:242-400 | the method, stepping through the text as the source does, returns exactly what ParseFrameSpec specifies |
| JsParseV8.ReadFrameLine | lib/js_platform.c:282-332 | the forward scan to the end of the line, the '(' search and the cursor adjustment match FrameAfterBeginning; the trim loop at line 306 is shown never to run |
| JsParseV8.ReadFrame | lib/js_platform.c:342-394 | builds the frame exactly as FrameFromFileInfo says |
| JsParseV8.ReadFileInfo | lib/js_platform.c:342-385 | the two `while` loops keep the backward-scan result invariant and end with ReadBack's colon, number and message |
| JsParseV8.TrimSpaces | lib/js_platform.c:306-307 | the intended trim: the result is not preceded by a space; TrimSpacesDrops: everything trimmed is a space |
| JsParseV8.NoFrameBeginning | lib/js_platform.c:256-261 | the parser fails with "Expected frame beginning." exactly when "at " occurs nowhere from the position on |
| JsParseV8.ReadBackErrors | lib/js_platform.c:346-384 | the backward scans fail only with their own four messages |
| JsParseV8.FileInfoAt | lib/js_platform.c:342-385 | on "file:line:column" the scans stop at the last two colons, so colons inside the file name survive, and read both numbers |
| JsParseV8.FrameTextLayout | lib/js_frame.c:270-285 | where the function name, the file name and both numbers lie in "at F (file:line:col)" and "at file:line:col" |
| JsParseV8.FrameRoundTripAsWritten | lib/js_platform.c:356-390 | parsing a rendered frame returns the file name as the function name and the file line as the line column; the rest is lost |
| JsParseV8.FrameRoundTripIntended | lib/js_platform.c:248-255 | the parser the comments describe gives every rendered frame back (the name must contain no '(' or '\n' and must not end in a space) |
| JsTraceV8.TraceHeader | lib/js_platform.c:433-470 | the header "Type: message\n" yields a non-empty exception type without ':' and the start of the next line |
| JsTraceV8.TraceHeaderCases | lib/js_platform.c:433-470 | with c the first ':' (or the end): the type is the text in front of c, ": " stands at c, and the frames start behind the first '\n' after it; the colon, colon-space and no-frames messages each exactly in their case |
| JsTraceV8.FramesFrom | lib/js_platform.c:472-499 | the frame loop either fails or reaches the end of the input, with at most one frame per three characters |
| JsTraceV8.ReadFrames | lib/js_platform.c:472-499 | the loop links fresh nodes through `last_frame->next` into a chain whose frames are FramesFrom's, in input order; a bad frame fails the whole trace with its message |
| JsTraceV8.LinkBehind | lib/js_platform.c:480-483 | linking a node behind the last node of a chain gives the chain with the node added |
| JsTraceV8.ParseTraceSpec | lib/js_platform.c:422-504 | a header error is returned as is; on success the exception type is non-empty, colon-free and read at the start, followed by ": ", parsing ends at the end of the input, and there are fewer than one frame per three characters |
| JsTraceV8.ParseStacktraceV8 | lib/js_platform.c:422-504 | returns exactly the exception type, the frames and the end position ParseTraceSpec specifies, or its message |
| JsTraceV8.NeverExpectsNewline | lib/js_platform.c:486-490 | "Expected newline after stacktrace frame." is never produced, because every frame stops at a '\n' or the end |
| JsTraceV8.NeverZeroLength | lib/js_platform.c:439-445 | "Zero length exception type." is never produced |
| JsTraceV8.NoFramesIffHeaderOnly | lib/js_platform.c:472-499 | a trace has zero frames exactly when nothing follows the header line |
| JsTraceV8.FramesAsWritten | lib/js_platform.c:356-390 | as written, every frame of a trace has a non-empty function name, no file name and file line 0 |
| JsTraceV8.FrameErrors | lib/js_platform.c:256-390 | the frame parser fails only with its six messages |
| JsPlatform.NameOf | lib/js_platform.c:137-162 | `sr_js_engine_to_string` / `sr_js_runtime_to_string`: the table name exactly for a valid code, nothing otherwise |
| JsPlatform.CodeOf | lib/js_platform.c:145-173 | the first code of at least 1 whose name equals the argument exactly, or 0 exactly when no name matches |
| JsPlatform.FromString | lib/js_platform.c:145-173 | the `for` loop from code 1 upwards returns CodeOf's code |
| JsPlatform.NameRoundTrip | lib/js_platform.c:137-173 | from_string(to_string(c)) == c for every valid code |
| JsPlatform.CodeRoundTrip | lib/js_platform.c:137-173 | to_string(from_string(n)) == n for every known name |
| JsPlatform.EngineOfRuntime | lib/js_platform.c:109-121 | a runtime has an engine exactly when it is Node.js, and that engine is the valid code named "V8" |
| JsPlatform.PlatformFromString | lib/js_platform.c:96-135 | a known runtime name yields a valid platform with that runtime; an unknown one gives a message that contains the name |
| JsPlatform.NodeJsPlatform | lib/js_platform.c:112-119 | "Node.js" yields (V8, Node.js), whatever the version |
| JsPlatform.PlatformToJson | lib/js_platform.c:175-192 | the text opens with '{', closes with '}', and holds the engine name (or "<unknown>") and the runtime name at their places in the template |
| JsPlatform.PlatformFromJson | lib/js_platform.c:194-240 | on success the platform is valid and the engine and runtime members are the strings of its names |
| JsPlatform.PlatformFromJsonKnownNames | lib/js_platform.c:194-240 | conversely, for any object, a known engine name and a known runtime name give the platform of their codes |
| JsPlatform.PlatformJsonRoundTrip | lib/js_platform.c:175-240 | reading back the members the JSON text of a valid platform spells out gives the platform |
| JsPlatform.EngineCheckedFirst | lib/js_platform.c:199-207 | without an engine member the message is "No 'engine' member", whatever the runtime member holds |
| JsPlatform.UnknownEngineReported | lib/js_platform.c:209-214 | an unknown engine name gives "Unknown JavaScript engine '<name>'" before the runtime is read |
| JsPlatform.RuntimeCheckedSecond | lib/js_platform.c:216-231 | with a known engine, a missing or unknown runtime gives the runtime's message |
| JsDispatch.FrameParse | lib/js_frame.c:182-193 | `sr_js_frame_parse`: the V8 frame on success; any failure's message becomes "The frame does not match any JavaScript dialect" |
| JsDispatch.PlatformParseFrame | lib/js_platform.c:402-420 | nothing for an invalid runtime or engine code; otherwise exactly the V8 frame parser's result |
| JsDispatch.PlatformParseStacktrace | lib/js_platform.c:506-530 | nothing for an invalid code; otherwise the V8 trace parser's result, and a parsed trace carries the platform |
| JsFrame.Dup | lib/js_frame.c:89-112 | a chain of fresh nodes holding the same frames: the whole chain with `siblings`, only the head otherwise |
| JsFrame.Append | lib/js_frame.c:167-180 | with no destination, the item; otherwise the destination's head, and the destination's nodes followed by the item's form one chain; only the old last node's link may change |
| JsFrame.StrCmp0 | lib/js_frame.c:119-128 | `sr_strcmp0`: null before any string, zero exactly on equal arguments; antisymmetric and transitive (StrCmp0Antisymmetric, StrCmp0Transitive) |
| JsFrame.DiffAsInt | lib/js_frame.c:131-138 | the `int` difference of two unsigned numbers: in the 32-bit signed range, zero exactly when they are equal, congruent to the true difference modulo 2^32, and equal to it when that lies within 2^31 |
| JsFrame.Cmp | lib/js_frame.c:114-141 | the first differing key among function name, file name, file line and line column decides the sign; the file-line clause needs only the two file lines less than 2^31 apart, the column clause only the two columns; equal frames compare 0 |
| JsFrame.CmpDistance | lib/js_frame.c:143-165 | zero exactly when file line, function name and file name agree; the first differing key among them decides the sign, the file line's while the two file lines are less than 2^31 apart; the line column is ignored |
| JsFrame.CmpDistanceIgnoresColumn | lib/js_frame.c:143-165 | frames differing only in the line column compare equal |
| JsFrame.CmpAntisymmetric | lib/js_frame.c:114-141 | Cmp(f, g) and Cmp(g, f) have opposite signs while the numbers are less than 2^31 apart |
| JsFrame.CmpWrapAroundCounterexample | lib/js_frame.c:131-136 | file lines 0 and 2^31: each frame compares less than the other |
| JsFrame.CmpWrongSignCounterexample | lib/js_frame.c:131-136 | file lines 0 and 2^31+1: the smaller line sorts after the larger |
| JsFrame.CmpExact | lib/js_frame.c:114-141 | the comparator without wrap-around agrees in sign with Cmp whenever the numbers are close |
| JsFrame.CmpExactTotalOrder | lib/js_frame.c:114-165 | the exact comparators are antisymmetric and transitive, and CmpExact is zero exactly on equal frames |
| JsFrame.AppendBthashText | lib/js_frame.c:287-296 | appends "<file>, <line>, <function>\n", with "UNKNOWN" for a missing name |
| JsFrame.AppendDuphashText | lib/js_frame.c:298-306 | appends "<file>:<line>\n" |
| JsFrame.DuphashTextKeys | lib/js_frame.c:298-306 | the duphash text ignores the function name and the line column, and tells file lines apart |
| JsFrame.BthashTextSeesFunctionName | lib/js_frame.c:287-296 | for one file and line, the bthash text changes exactly when the printed function name (UNKNOWN for none) changes; a missing name and "UNKNOWN" print alike |
| JsFrame.AppendToStr | lib/js_frame.c:270-285 | appends "at F (file:line:col)" with a function name and "at file:line:col" without one |
| JsFrame.FrameTextShape | lib/js_frame.c:270-285 | the rendering starts with "at " and ends with ')' exactly when there is a function name |
| JsFrame.FromJson | lib/js_frame.c:195-234 | a non-object root fails; otherwise success exactly when every present member has the right type; each field is its member, or unset when absent |
| JsFrame.ToJson | lib/js_frame.c:236-268 | the method that appends member by member and patches the first character produces ToJsonText |
| JsFrame.ToJsonTextShape | lib/js_frame.c:236-268 | with at least one member the text is '{' ... '}'; with none it is "}"; the function name never changes it |
| JsFrame.JsonRoundTripAsWritten | lib/js_frame.c:195-268 | decoding the member list to_json writes gives the frame without its function name; that list is empty exactly for frames that are EmptyFrame but for the function name, and then the text is the lone "}", no JSON object, so the text round trip fails there |
| JsFrame.JsonRoundTripLosesFunctionName | lib/js_frame.c:236-268 | a frame with a function name does not survive encoding and decoding |
| JsFrame.JsonRoundTripIntended | lib/js_frame.c:195-234 | an encoder that also writes the function name round-trips every frame |
| JsFrame.ToJsonTextIntendedShape | lib/js_frame.c:236-268 | the corrected text is to_json's patching applied to the intended members, and "{}" (not "}") for EmptyFrame |
| Json.Element | lib/js_frame.c:204-220 | `json_element`: the first member with the key, None exactly when no member has it |
| Json.ReadString | lib/js_platform.c:200-201 | JSON_READ_STRING: absent reads as None, a present non-string fails |
| Json.ReadUInt32 | lib/js_frame.c:222-224 | JSON_READ_UINT32: absent reads as None, a present value must be an integer in uint32 range |

## Left out

- Memory ownership: the frees on the failure paths, the leaked first `function_name` copy (lib/js_platform.c:312), the overwritten `sr_js_platform_new()` result (lib/js_platform.c:525-526), and the `free(runtime_str)` of an uninitialised variable on the early failure paths of `sr_js_platform_from_json`. Dafny has no manual memory management; a failure simply returns no value.
- The line and column arithmetic of `struct sr_location`. It depends on `sr_location_add` and on the line-counting helpers, whose bodies are not part of this model. Only the message is modelled.
- The `warn()` logging of the invalid-code checks. An invalid code is modelled as a `None` result.
- The tables of function addresses (lib/js_platform.c:48-93) and the `frame_methods` table of lib/js_frame.c. They become direct calls: no runtime has a parser of its own, and V8 is the only engine.
- The packing of a platform into one integer. A platform is the pair of its two codes, and the null platform is (0, 0).
- The hashing of the bthash and duphash texts, and the parsing of JSON text into a value tree, which happen outside these files.
- The bodies of the string helpers in TextScan, the JSON helpers and the string buffer. They are written from their documented behaviour.
- `sr_js_frame_append_to_str` with no file name, where the C passes NULL to `printf`: JsFrame.AppendToStr requires a file name.
- `sr_js_platform_from_json` on a root that is not an object, which the C does not check: JsPlatform.PlatformFromJson requires an object.
- JsPlatform.PlatformFromString: the branch for a runtime without an engine (message "No known JavaScript engine for runtimeby '...'", missing space as in the source) is modelled but cannot be reached, because Node.js has an engine.
- JsFrame.Cmp: the sign promised in terms of a number key holds only while that key's two numbers (the file lines, or the columns when the file lines are equal) are less than 2^31 apart; past that the model reproduces the wrap-around (see Findings).
- JsFrame.CmpDistance: the sign promised in terms of the file lines holds only while they are less than 2^31 apart; past that the model reproduces the wrap-around (see Findings).
- JsParseV8.FrameRoundTripAsWritten and JsParseV8.FrameRoundTripIntended: require a non-empty file name without '\n', and a function name without '(' or '\n'. Other frames render to text that the parser splits differently.

## Findings

| source | as written | input that shows it | evidently intended | confidence | as-written member | corrected member |
|---|---|---|---|---|---|---|
| lib/js_platform.c:356-390 | both numbers are parsed into `line_column`, the file-line digits last, and the file segment is stored into `function_name`, replacing the function name; `file_name` and `file_line` are never set | "at Object.<anonymous> (/app/index.js:2:1)" gives function "/app/index.js", line column 2, no file name, line 0 | function "Object.<anonymous>", file "/app/index.js", line 2, column 1, as the comments at lines 248-255 and the expected string at tests/python/javascript.py:103 say | not executed | JsParseV8.FrameRoundTripAsWritten | JsParseV8.FrameRoundTripIntended |
| lib/js_frame.c:131-148 | numeric keys are compared by converting `uint32 - uint32` to `int` | file lines 0 and 0x80000000: each frame compares less than the other; 0 and 0x80000001: 0 sorts after | a three-way comparison of the numbers | not executed | JsFrame.CmpWrapAroundCounterexample | JsFrame.CmpExactTotalOrder |
| lib/js_frame.c:236-268 | `function_name` is never written, and a frame with no written member yields "}" | a frame with function "f" and nothing else encodes to "}" and decodes without its function name | every field written, so that `sr_js_frame_from_json` reads the frame back | not executed | JsFrame.JsonRoundTripLosesFunctionName | JsFrame.JsonRoundTripIntended |
