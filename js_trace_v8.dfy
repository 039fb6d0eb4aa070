/** js_platform_parse_stacktrace_v8: an exception header "Type: message"
    on the first line, then one V8 frame line after another. The message
    is skipped; the frames are linked into a chain in input order. */
module JsTraceV8 {
  import opened Wrappers
  import opened TextScan
  import opened JsFrame
  import opened JsParseV8

  /** The header: the exception type in front of the first ':', then ": ",
      then the rest of the line. The result is the type and the position of
      the first frame line. */
  function TraceHeader(s: string, p: nat): (r: Result<(string, nat), string>)
    requires p <= |s|
    ensures r.Ok? ==> p < r.value.1 <= |s| && s[r.value.1 - 1] == '\n'
    ensures r.Ok? ==> |r.value.0| > 0 && ':' !in r.value.0
  {
    match ParseCharCspan(s, p, ':')
    case None => Err(ExceptionColonNotFound)
    case Some((name, q)) =>
      if |name| == 0 then Err(ZeroLengthException)
      else match SkipString(s, q, ": ")
        case None => Err(ColonSpaceNotFound)
        case Some(q2) =>
          match SkipToNextLine(s, q2)
          case None => Err(NoFrames)
          case Some(q3) => Ok((name, q3))
  }

  /** What the header reads, with `c` the first ':' from `p` on (or the end
      of the input): the type is the text in front of `c`, ": " must stand
      at `c`, and the frames begin behind the first '\n' after it. Each
      message names its cause. */
  lemma TraceHeaderCases(s: string, p: nat)
    requires p <= |s|
    ensures var r, c := TraceHeader(s, p), SpanEnd(s, p, ':');
      && (r == Err(ExceptionColonNotFound) <==> c == p)
      && (r == Err(ColonSpaceNotFound) <==> p < c && !MatchAt(s, c, ": "))
      && (r == Err(NoFrames) <==> p < c && MatchAt(s, c, ": ") && forall k :: c + 2 <= k < |s| ==> s[k] != '\n')
      && (r.Ok? ==>
            && r.value.0 == s[p..c] && MatchAt(s, c, ": ")
            && c + 2 < r.value.1 && s[r.value.1 - 1] == '\n'
            && forall k :: c + 2 <= k < r.value.1 - 1 ==> s[k] != '\n')
  {
    assert |ExceptionColonNotFound| != |ColonSpaceNotFound|;
    assert |ExceptionColonNotFound| != |NoFrames|;
    assert |ColonSpaceNotFound| != |NoFrames|;
  }

  /** The frame loop from `pos` on: a frame, then a newline unless the
      input ends, until the input ends. Every frame line takes at least the
      three characters of "at ". */
  function FramesFrom(s: string, pos: nat): (r: Result<(seq<Frame>, nat), string>)
    requires pos <= |s|
    ensures r.Ok? ==> r.value.1 == |s|
    ensures r.Ok? ==> 3 * |r.value.0| <= |s| - pos
    decreases |s| - pos
  {
    if pos == |s| then Ok(([], pos))
    else match ParseFrameSpec(s, pos)
      case Err(msg) => Err(msg)
      case Ok((f, q)) =>
        var skipped := SkipChar(s, q, '\n');
        if skipped.None? && q < |s| then Err(ExpectedNewline)
        else match FramesFrom(s, skipped.GetOr(q))
          case Err(msg) => Err(msg)
          case Ok((fs, e)) => Ok(([f] + fs, e))
  }

  /** The whole trace: the exception type, the frames and where parsing
      stopped. */
  function ParseTraceSpec(s: string, p: nat): (r: Result<(string, seq<Frame>, nat), string>)
    requires p <= |s|
    ensures TraceHeader(s, p).Err? ==> r == Err(TraceHeader(s, p).error)
    ensures r.Ok? ==> var (name, frames, e) := r.value;
      && |name| > 0 && ':' !in name
      && MatchAt(s, p, name) && MatchAt(s, p + |name|, ": ")
      && e == |s| && 3 * |frames| < |s| - p
  {
    TraceHeaderCases(s, p);
    match TraceHeader(s, p)
    case Err(msg) => Err(msg)
    case Ok((name, q)) =>
      match FramesFrom(s, q)
      case Err(msg) => Err(msg)
      case Ok((fs, e)) => Ok((name, fs, e))
  }

  /** `fs` in front of the frames of a loop result. */
  function Prepend(fs: seq<Frame>, r: Result<(seq<Frame>, nat), string>): Result<(seq<Frame>, nat), string>
  {
    match r
    case Err(msg) => Err(msg)
    case Ok((gs, e)) => Ok((fs + gs, e))
  }

  lemma PrependNil(r: Result<(seq<Frame>, nat), string>)
    ensures Prepend([], r) == r
  {
    if r.Ok? {
      assert [] + r.value.0 == r.value.0;
    }
  }

  /** One turn of the frame loop: a parsed frame and its newline put that
      frame in front of the frames behind them. */
  lemma FramesFromStep(s: string, pos: nat)
    requires pos < |s| && ParseFrameSpec(s, pos).Ok?
    requires var q := ParseFrameSpec(s, pos).value.1; SkipChar(s, q, '\n').Some? || q == |s|
    ensures var (f, q) := ParseFrameSpec(s, pos).value;
      FramesFrom(s, pos) == Prepend([f], FramesFrom(s, SkipChar(s, q, '\n').GetOr(q)))
  {
  }

  lemma PrependTwice(fs: seq<Frame>, gs: seq<Frame>, r: Result<(seq<Frame>, nat), string>)
    ensures Prepend(fs, Prepend(gs, r)) == Prepend(fs + gs, r)
  {
    if r.Ok? {
      assert fs + (gs + r.value.0) == (fs + gs) + r.value.0;
    }
  }

  /** The frame loop of js_platform_parse_stacktrace_v8: each parsed frame
      becomes a fresh node linked behind the last one. */
  method ReadFrames(s: string, q: nat) returns (r: Result<(FrameNode?, nat), string>, ghost ns: seq<FrameNode>)
    requires q <= |s|
    ensures r.Ok? <==> FramesFrom(s, q).Ok?
    ensures r.Err? ==> r.error == FramesFrom(s, q).error
    ensures r.Ok? ==> && IsChain(r.value.0, ns) && Values(ns) == FramesFrom(s, q).value.0
                      && r.value.1 == FramesFrom(s, q).value.1
    ensures forall n | n in ns :: fresh(n)
  {
    var pos := q;
    var head: FrameNode? := null;
    var last: FrameNode? := null;
    ns := [];
    PrependNil(FramesFrom(s, q));
    while pos < |s|
      invariant q <= pos <= |s|
      invariant IsChain(head, ns) && last == (if ns == [] then null else ns[|ns| - 1])
      invariant forall n | n in ns :: fresh(n)
      invariant FramesFrom(s, q) == Prepend(Values(ns), FramesFrom(s, pos))
      decreases |s| - pos
    {
      ghost var done, start := Values(ns), pos;
      var frame := ParseFrameV8(s, pos);
      if frame.Err? {
        r := Err(frame.error);
        return;
      }
      var node := new FrameNode(frame.value.0);
      if head == null {
        head := node;
      } else {
        assert last in ns;
        LinkBehind(last, node, ns);
      }
      ValuesJoin(ns, [node]);
      assert Values([node]) == [frame.value.0] by {
        assert [node][1..] == [];
      }
      ns := ns + [node];
      last := node;
      pos := frame.value.1;
      var skipped := SkipChar(s, pos, '\n');
      if skipped.None? && pos < |s| {
        r := Err(ExpectedNewline);
        return;
      }
      pos := skipped.GetOr(pos);
      FramesFromStep(s, start);
      PrependTwice(done, [frame.value.0], FramesFrom(s, pos));
    }
    r := Ok((head, pos));
  }

  /** last_frame->next = current_frame. */
  method LinkBehind(last: FrameNode, node: FrameNode, ghost ns: seq<FrameNode>)
    requires ns != [] && IsChain(ns[0], ns) && last == ns[|ns| - 1]
    requires node.next == null && node !in ns
    modifies last
    ensures IsChain(ns[0], ns + [node])
  {
    last.next := node;
    forall i | 0 <= i < |ns| - 1
      ensures ns[i].next == ns[i + 1]
    {
      assert ns[i] != last;
    }
    ChainJoin(ns, [node]);
  }
  /** js_platform_parse_stacktrace_v8: the header, then the frame loop. */
  method ParseStacktraceV8(s: string, p: nat) returns (r: Result<(string, FrameNode?, nat), string>, ghost ns: seq<FrameNode>)
    requires p <= |s|
    ensures r.Ok? <==> ParseTraceSpec(s, p).Ok?
    ensures r.Err? ==> r.error == ParseTraceSpec(s, p).error
    ensures r.Ok? ==> var spec := ParseTraceSpec(s, p).value;
      && r.value.0 == spec.0 && IsChain(r.value.1, ns) && Values(ns) == spec.1 && r.value.2 == spec.2
    ensures forall n | n in ns :: fresh(n)
  {
    ns := [];
    var name := ParseCharCspan(s, p, ':');
    if name.None? {
      r := Err(ExceptionColonNotFound);
      return;
    }
    if |name.value.0| == 0 {
      r := Err(ZeroLengthException);
      return;
    }
    var colon := SkipString(s, name.value.1, ": ");
    if colon.None? {
      r := Err(ColonSpaceNotFound);
      return;
    }
    var line := SkipToNextLine(s, colon.value);
    if line.None? {
      r := Err(NoFrames);
      return;
    }
    var frames;
    frames, ns := ReadFrames(s, line.value);
    if frames.Err? {
      r := Err(frames.error);
      return;
    }
    r := Ok((name.value.0, frames.value.0, frames.value.1));
  }

  /* ---------------------------------------------------------------------
     Properties of the trace parser
     --------------------------------------------------------------------- */

  /** The frame parser fails only with its own six messages. */
  lemma FrameErrors(s: string, p: nat)
    requires p <= |s|
    ensures var r := ParseFrameSpec(s, p);
      r.Err? ==> r.error in [ExpectedFrameBeginning, BraceNotFound, LineColumnNotFound,
                             LineColumnUnparsable, FileLineNotFound, FileLineUnparsable]
  {
    var found := FindFrom(s, p, "at ");
    if found.Some? {
      var li := found.value + 3;
      var e := SpanEnd(s, li, '\n');
      SpanEndClear(s, li, '\n');
      var brace := IndexOf(s, li, '(');
      if !(s[e - 1] == ')' && brace.None?) {
        var start := if s[e - 1] == ')' then brace.value + 1 else li;
        var cursor := if s[e - 1] == ')' then e - 2 else e - 1;
        ReadBackErrors(s, start, cursor, None);
      }
    }
  }

  /** Every frame line found ends at a newline or at the end of the input,
      so "Expected newline after stacktrace frame." is never the outcome. */
  lemma {:induction false} NeverExpectsNewline(s: string, pos: nat)
    requires pos <= |s|
    ensures FramesFrom(s, pos).Err? ==> FramesFrom(s, pos).error != ExpectedNewline
    decreases |s| - pos
  {
    if pos < |s| {
      var r := ParseFrameSpec(s, pos);
      FrameErrors(s, pos);
      assert |ExpectedNewline| == 40;
      if r.Ok? {
        NeverExpectsNewline(s, SkipChar(s, r.value.1, '\n').GetOr(r.value.1));
      }
    }
  }

  /** The exception type is never empty, so "Zero length exception type."
      is never the outcome either. */
  lemma NeverZeroLength(s: string, p: nat)
    requires p <= |s|
    ensures TraceHeader(s, p).Err? ==> TraceHeader(s, p).error != ZeroLengthException
  {
    assert |ZeroLengthException| != |ExceptionColonNotFound|;
    assert |ZeroLengthException| != |ColonSpaceNotFound|;
    assert |ZeroLengthException| != |NoFrames|;
  }

  /** A trace has no frames exactly when nothing follows the header line. */
  lemma NoFramesIffHeaderOnly(s: string, p: nat)
    requires p <= |s|
    ensures var r := ParseTraceSpec(s, p);
      r.Ok? && r.value.1 == [] <==> TraceHeader(s, p).Ok? && TraceHeader(s, p).value.1 == |s|
  {
  }

  /** As written, every frame of a trace has its function name set (to the
      file segment), no file name and a zero file line. */
  lemma {:induction false} FramesAsWritten(s: string, pos: nat)
    requires pos <= |s|
    ensures FramesFrom(s, pos).Ok? ==> forall f | f in FramesFrom(s, pos).value.0 ::
      f.functionName.Some? && |f.functionName.value| > 0 && f.fileName.None? && f.fileLine == 0
    decreases |s| - pos
  {
    if pos < |s| {
      var r := ParseFrameSpec(s, pos);
      if r.Ok? {
        FramesAsWritten(s, SkipChar(s, r.value.1, '\n').GetOr(r.value.1));
      }
    }
  }
}
