/** The V8 dialect of js_platform.c: one frame line, "at F (file:line:col)"
    or "at file:line:col", and a whole trace, an exception header followed
    by frame lines. The input is a C string: a `string` and a position in
    it, the end of the sequence standing for the NUL. */
module JsParseV8 {
  import opened Wrappers
  import opened TextScan
  import opened JsFrame

  /* The messages the parsers leave in the location record. */
  const ExpectedFrameBeginning := "Expected frame beginning."
  const BraceNotFound := "Opening brace with file information not found."
  const LineColumnNotFound := "Unable to locate line column."
  const LineColumnUnparsable := "Failed to parse line column."
  const FileLineNotFound := "Unable to locate file line."
  const FileLineUnparsable := "Failed to parse file line."
  const ExceptionColonNotFound := "Unable to find the colon right behind exception type."
  const ZeroLengthException := "Zero length exception type."
  const ColonSpaceNotFound := "Unable to find the colon after first exception type."
  const NoFrames := "Stack trace does not include any frames."
  const ExpectedNewline := "Expected newline after stacktrace frame."

  /** The backward part of js_platform_parse_frame_v8, from `t` down towards
      `start`. While `column` is None it looks for the colon in front of the
      line column and reads that number; then for the colon in front of the
      file line. The result is the position of the second colon, the file
      line and the line column. A colon at `start` itself does not count,
      and a scan that begins below `start` stops at once, in front of a
      non-digit. */
  function ReadBack(s: string, start: nat, t: int, column: Option<UInt32>): (r: Result<(nat, UInt32, UInt32), string>)
    requires 0 <= t + 1 <= |s|
    requires t < start ==> t + 1 == |s| || !IsDigit(s[t + 1])
    ensures r.Ok? ==> start < r.value.0 <= t && s[r.value.0] == ':'
    ensures r.Ok? && column.None? ==> r.value.0 < t
    ensures r.Ok? && column.Some? ==> r.value.2 == column.value
    decreases t + 1, if column.None? then 1 else 0
  {
    if t > start && s[t] != ':' then ReadBack(s, start, t - 1, column)
    else if t == start then Err(if column.None? then LineColumnNotFound else FileLineNotFound)
    else match ParseUInt32(s, t + 1)
      case None => Err(if column.None? then LineColumnUnparsable else FileLineUnparsable)
      case Some((n, _)) =>
        if column.None? then ReadBack(s, start, t - 1, Some(n)) else Ok((t, n, column.value))
  }

  /** js_platform_parse_frame_v8 as a function of the text and the position:
      the frame and the position of the end of its line, or the message. */
  function ParseFrameSpec(s: string, p: nat): (r: Result<(Frame, nat), string>)
    requires p <= |s|
    ensures r.Ok? ==> p + 3 <= r.value.1 <= |s|
    ensures r.Ok? ==> r.value.1 == |s| || s[r.value.1] == '\n'
  {
    match FindFrom(s, p, "at ")
    case None => Err(ExpectedFrameBeginning)
    case Some(i) => FrameAfterBeginning(s, i + 3)
  }

  /** The frame parser once past "at ", at `li`: with a ')' closing the
      line, the file information starts behind the first '(' from `li` on
      (which may lie on a later line); otherwise right at `li`. */
  function FrameAfterBeginning(s: string, li: nat): (r: Result<(Frame, nat), string>)
    requires 3 <= li <= |s|
    ensures r.Ok? ==> li <= r.value.1 <= |s|
    ensures r.Ok? ==> r.value.1 == |s| || s[r.value.1] == '\n'
    ensures r.Ok? ==> r.value.0.fileName.None? && r.value.0.fileLine == 0
    ensures r.Ok? ==> r.value.0.functionName.Some? && |r.value.0.functionName.value| > 0
    ensures r.Ok? ==> '\n' !in r.value.0.functionName.value
  {
    var e := SpanEnd(s, li, '\n');
    SpanEndClear(s, li, '\n');
    var paren := s[e - 1] == ')';
    var brace := IndexOf(s, li, '(');
    if paren && brace.None? then Err(BraceNotFound)
    else
      var start := if paren then brace.value + 1 else li;
      var cursor := if paren then e - 2 else e - 1;
      FrameFromFileInfo(s, start, cursor)
  }

  /** The frame the parser builds from the file information: the text
      between `start` and the second-to-last colon becomes the function name
      and the file line becomes the line column (both numbers are stored in
      the line column, the file line last); the parser then skips to the end
      of the line. */
  function FrameFromFileInfo(s: string, start: nat, cursor: int): (r: Result<(Frame, nat), string>)
    requires 0 <= cursor + 1 <= |s|
    requires cursor < start ==> cursor + 1 == |s| || !IsDigit(s[cursor + 1])
    ensures r.Ok? ==> start < cursor && r.value.1 == SpanEnd(s, start, '\n')
    ensures r.Ok? ==> r.value.0.fileName.None? && r.value.0.fileLine == 0
    ensures r.Ok? ==> r.value.0.functionName.Some? && |r.value.0.functionName.value| > 0
    ensures r.Ok? && (forall k :: start <= k < cursor ==> s[k] != '\n') ==> '\n' !in r.value.0.functionName.value
  {
    match ReadBack(s, start, cursor, None)
    case Err(msg) => Err(msg)
    case Ok((t2, line, _)) =>
      Ok((Frame(Some(Strndup(s, start, t2)), None, 0, line), SpanEnd(s, start, '\n')))
  }

  /** js_platform_parse_frame_v8: finds the next "at ", decides from the
      last character of the line whether a function name in front of a
      parenthesis is present, then reads the file information backwards
      from the end of the line. */
  method ParseFrameV8(s: string, p: nat) returns (r: Result<(Frame, nat), string>)
    requires p <= |s|
    ensures r == ParseFrameSpec(s, p)
  {
    var found := FindFrom(s, p, "at ");
    if found.None? {
      return Err(ExpectedFrameBeginning);
    }
    r := ReadFrameLine(s, found.value + 3);
  }

  /** The part of js_platform_parse_frame_v8 behind "at ": the bounds of the
      file information, then the frame read from them. */
  method ReadFrameLine(s: string, li: nat) returns (r: Result<(Frame, nat), string>)
    requires 3 <= li <= |s|
    ensures r == FrameAfterBeginning(s, li)
  {
    var input := li;
    var cursor: int := SpanEnd(s, input, '\n');
    if s[cursor - 1] == ')' {
      var nameEnd := IndexOf(s, input, '(');
      if nameEnd.None? {
        return Err(BraceNotFound);
      }
      var ne := nameEnd.value;
      // The loop trimming spaces in front of the parenthesis runs only while
      // `input > ne`, which never holds: the parenthesis was searched for
      // from `input` on.
      assert !(input > ne);
      ne := ne + 1;
      input := ne;
      cursor := cursor - 2;
    } else {
      cursor := cursor - 1;
    }
    r := ReadFrame(s, input, cursor);
  }

  /** The end of js_platform_parse_frame_v8: the file information read
      backwards from `cursor`, then the frame it fills in and the skip to
      the end of the line. */
  method ReadFrame(s: string, start: nat, cursor: int) returns (r: Result<(Frame, nat), string>)
    requires 0 <= cursor + 1 <= |s|
    requires cursor < start ==> cursor + 1 == |s| || !IsDigit(s[cursor + 1])
    ensures r == FrameFromFileInfo(s, start, cursor)
  {
    var info := ReadFileInfo(s, start, cursor);
    if info.Err? {
      return Err(info.error);
    }
    var (token, lineColumn) := info.value;
    var functionName := Some(Strndup(s, start, token));
    var rest := SpanEnd(s, start, '\n');
    r := Ok((Frame(functionName, None, 0, lineColumn), rest));
  }

  /** The backward part of js_platform_parse_frame_v8: two scans towards
      `start` for a colon, each followed by a number. The line column read
      first is overwritten by the file line. */
  method ReadFileInfo(s: string, start: nat, cursor: int) returns (r: Result<(nat, UInt32), string>)
    requires 0 <= cursor + 1 <= |s|
    requires cursor < start ==> cursor + 1 == |s| || !IsDigit(s[cursor + 1])
    ensures r.Err? <==> ReadBack(s, start, cursor, None).Err?
    ensures r.Err? ==> r.error == ReadBack(s, start, cursor, None).error
    ensures r.Ok? ==> r.value == (ReadBack(s, start, cursor, None).value.0, ReadBack(s, start, cursor, None).value.1)
  {
    var token := cursor;
    while token > start && s[token] != ':'
      invariant token <= cursor && (token < start ==> token == cursor)
      invariant ReadBack(s, start, token, None) == ReadBack(s, start, cursor, None)
      decreases token
    {
      token := token - 1;
    }
    if token == start {
      return Err(LineColumnNotFound);
    }
    var column := ParseUInt32(s, token + 1);
    if column.None? {
      return Err(LineColumnUnparsable);
    }
    var lineColumn := column.value.0;
    ghost var t1, c := token, lineColumn;
    token := token - 1;
    while token > start && s[token] != ':'
      invariant start <= token <= t1 - 1
      invariant ReadBack(s, start, token, Some(c)) == ReadBack(s, start, cursor, None)
      decreases token
    {
      token := token - 1;
    }
    if token == start {
      return Err(FileLineNotFound);
    }
    var line := ParseUInt32(s, token + 1);
    if line.None? {
      return Err(FileLineUnparsable);
    }
    lineColumn := line.value.0;
    r := Ok((token, lineColumn));
  }

  /* ---------------------------------------------------------------------
     The intended frame parser
     --------------------------------------------------------------------- */

  /** The start of the run of spaces that ends at `t`, not going below `lo`. */
  function TrimSpaces(s: string, lo: nat, t: nat): (r: nat)
    requires lo <= t <= |s|
    ensures lo <= r <= t
    ensures r > lo ==> s[r - 1] != ' '
  {
    if t > lo && s[t - 1] == ' ' then TrimSpaces(s, lo, t - 1) else t
  }

  /** Everything TrimSpaces drops is a space. */
  lemma {:induction false} TrimSpacesDrops(s: string, lo: nat, t: nat, k: nat)
    requires lo <= t <= |s| && TrimSpaces(s, lo, t) <= k < t
    ensures s[k] == ' '
    decreases t
  {
    if k < t - 1 {
      TrimSpacesDrops(s, lo, t - 1, k);
    }
  }

  /** The frame parser as its comments describe it: the function name in
      front of " (" with the spaces before the parenthesis trimmed, the file
      name in front of the second-to-last colon, the file line and the line
      column each in its own field. */
  function ParseFrameIntended(s: string, p: nat): (r: Result<(Frame, nat), string>)
    requires p <= |s|
  {
    match FindFrom(s, p, "at ")
    case None => Err(ExpectedFrameBeginning)
    case Some(i) =>
      var li := i + 3;
      var e := SpanEnd(s, li, '\n');
      var paren := s[e - 1] == ')';
      var brace := IndexOf(s, li, '(');
      if paren && brace.None? then Err(BraceNotFound)
      else
        var name := if paren then Some(Strndup(s, li, TrimSpaces(s, li, brace.value))) else None;
        var start := if paren then brace.value + 1 else li;
        var cursor := if paren then e - 2 else e - 1;
        match ReadBack(s, start, cursor, None)
        case Err(msg) => Err(msg)
        case Ok((t2, line, column)) =>
          Ok((Frame(name, Some(Strndup(s, start, t2)), line, column), SpanEnd(s, start, '\n')))
  }

  /* ---------------------------------------------------------------------
     Properties of the frame parser
     --------------------------------------------------------------------- */

  /** The parser fails with "Expected frame beginning." exactly when no
      "at " follows the position. */
  lemma NoFrameBeginning(s: string, p: nat)
    requires p <= |s|
    ensures ParseFrameSpec(s, p) == Err(ExpectedFrameBeginning) <==>
      forall j :: p <= j <= |s| ==> !MatchAt(s, j, "at ")
  {
    if j :| p <= j <= |s| && MatchAt(s, j, "at ") {
      FindFromFirst(s, p, "at ", j);
      var li := FindFrom(s, p, "at ").value + 3;
      var e := SpanEnd(s, li, '\n');
      SpanEndClear(s, li, '\n');
      var brace := IndexOf(s, li, '(');
      if s[e - 1] == ')' && brace.None? {
        assert |BraceNotFound| != |ExpectedFrameBeginning|;
      } else {
        var start := if s[e - 1] == ')' then brace.value + 1 else li;
        var cursor := if s[e - 1] == ')' then e - 2 else e - 1;
        ReadBackErrors(s, start, cursor, None);
      }
    } else {
      assert FindFrom(s, p, "at ").None?;
    }
  }

  /** The backward scan fails only with its own four messages. */
  lemma {:induction false} ReadBackErrors(s: string, start: nat, t: int, column: Option<UInt32>)
    requires 0 <= t + 1 <= |s|
    requires t < start ==> t + 1 == |s| || !IsDigit(s[t + 1])
    ensures var r := ReadBack(s, start, t, column);
      r.Err? ==> r.error in [LineColumnNotFound, LineColumnUnparsable, FileLineNotFound, FileLineUnparsable]
    ensures var r := ReadBack(s, start, t, column);
      r.Err? ==> r.error != ExpectedFrameBeginning
    decreases t + 1, if column.None? then 1 else 0
  {
    if t > start && s[t] != ':' {
      ReadBackErrors(s, start, t - 1, column);
    } else if t == start {
    } else if ParseUInt32(s, t + 1).None? {
    } else if column.None? {
      ReadBackErrors(s, start, t - 1, Some(ParseUInt32(s, t + 1).value.0));
    }
    assert |LineColumnNotFound| != |ExpectedFrameBeginning|;
    assert |LineColumnUnparsable| != |ExpectedFrameBeginning|;
    assert |FileLineNotFound| != |ExpectedFrameBeginning|;
    assert |FileLineUnparsable| != |ExpectedFrameBeginning|;
  }

  /* ---------------------------------------------------------------------
     The file information by its last two colons
     --------------------------------------------------------------------- */

  /** The last ':' in (lo, t], if there is one. */
  function LastColon(s: string, lo: nat, t: int): (r: Option<nat>)
    requires t < |s|
    ensures r.Some? ==> lo < r.value <= t && s[r.value] == ':'
    ensures r.None? <==> forall k :: lo < k <= t ==> s[k] != ':'
    decreases t
  {
    if t <= lo then None else if s[t] == ':' then Some(t) else LastColon(s, lo, t - 1)
  }

  /** No ':' lies behind the one LastColon finds. */
  lemma {:induction false} LastColonIsLast(s: string, lo: nat, t: int, k: nat)
    requires t < |s| && LastColon(s, lo, t).Some? && LastColon(s, lo, t).value < k <= t
    ensures s[k] != ':'
    decreases t
  {
    if s[t] != ':' && k < t {
      LastColonIsLast(s, lo, t - 1, k);
    }
  }

  /** The file information of (start, t] as its last two colons define it:
      the line column is the number behind the last colon, the file line the
      number behind the last colon in front of that one; a missing colon and
      an unreadable number each have their message. A region that ends in
      front of `start` gives the line-column parse failure. */
  function LastTwoColons(s: string, start: nat, t: int): Result<(nat, UInt32, UInt32), string>
    requires 0 <= t + 1 <= |s|
  {
    if t < start then Err(LineColumnUnparsable)
    else match LastColon(s, start, t)
      case None => Err(LineColumnNotFound)
      case Some(c1) =>
        match ParseUInt32(s, c1 + 1)
        case None => Err(LineColumnUnparsable)
        case Some((column, _)) =>
          match LastColon(s, start, c1 - 1)
          case None => Err(FileLineNotFound)
          case Some(c2) =>
            match ParseUInt32(s, c2 + 1)
            case None => Err(FileLineUnparsable)
            case Some((line, _)) => Ok((c2, line, column))
  }

  /** One backward scan from `t` stops at the last colon of (start, t], and
      fails when there is none. */
  lemma {:induction false} ReadBackScan(s: string, start: nat, t: int, column: Option<UInt32>)
    requires start <= t < |s|
    ensures ReadBack(s, start, t, column) ==
      if LastColon(s, start, t).None? then Err(if column.None? then LineColumnNotFound else FileLineNotFound)
      else ReadBack(s, start, LastColon(s, start, t).value, column)
    decreases t
  {
    if t > start && s[t] != ':' {
      ReadBackScan(s, start, t - 1, column);
    }
  }

  /** The two backward scans read the numbers behind the last two colons of
      the region, on every input. */
  lemma ReadBackByColons(s: string, start: nat, t: int)
    requires 0 <= t + 1 <= |s|
    requires t < start ==> t + 1 == |s| || !IsDigit(s[t + 1])
    ensures ReadBack(s, start, t, None) == LastTwoColons(s, start, t)
  {
    if t >= start {
      ReadBackScan(s, start, t, None);
      if LastColon(s, start, t).Some? {
        ReadBackFromColon(s, start, t, LastColon(s, start, t).value);
      }
    }
  }

  /** From the last colon of the region on, the scans read the line column
      and look for the file line's colon. */
  lemma ReadBackFromColon(s: string, start: nat, t: nat, c1: nat)
    requires start <= t < |s| && LastColon(s, start, t) == Some(c1)
    ensures ReadBack(s, start, c1, None) == LastTwoColons(s, start, t)
  {
    match ParseUInt32(s, c1 + 1)
    case None =>
    case Some((column, _)) =>
      assert ReadBack(s, start, c1, None) == ReadBack(s, start, c1 - 1, Some(column));
      ReadBackFileLine(s, start, c1, column);
  }

  /** With the line column read, the second scan finds the file line behind
      the last colon in front of `c1`. */
  lemma ReadBackFileLine(s: string, start: nat, c1: nat, column: UInt32)
    requires start < c1 < |s|
    ensures ReadBack(s, start, c1 - 1, Some(column)) ==
      match LastColon(s, start, c1 - 1)
      case None => Err(FileLineNotFound)
      case Some(c2) =>
        match ParseUInt32(s, c2 + 1)
        case None => Err(FileLineUnparsable)
        case Some((line, _)) => Ok((c2, line, column))
  {
    ReadBackScan(s, start, c1 - 1, Some(column));
  }

  /** Each message of the backward scans names its cause: no colon in the
      region, no number behind the last colon, no colon in front of it, no
      number behind that one. */
  lemma ReadBackErrorCauses(s: string, start: nat, t: nat)
    requires start <= t < |s|
    ensures var r, c1 := ReadBack(s, start, t, None), LastColon(s, start, t);
      && (r == Err(LineColumnNotFound) <==> forall k :: start < k <= t ==> s[k] != ':')
      && (r == Err(LineColumnUnparsable) <==> c1.Some? && ParseUInt32(s, c1.value + 1).None?)
      && (r == Err(FileLineNotFound) <==>
            c1.Some? && ParseUInt32(s, c1.value + 1).Some? && forall k :: start < k < c1.value ==> s[k] != ':')
      && (r == Err(FileLineUnparsable) <==>
            c1.Some? && ParseUInt32(s, c1.value + 1).Some? && LastColon(s, start, c1.value - 1).Some?
            && ParseUInt32(s, LastColon(s, start, c1.value - 1).value + 1).None?)
  {
    ReadBackByColons(s, start, t);
    assert |LineColumnNotFound| != |LineColumnUnparsable|;
    assert |LineColumnNotFound| != |FileLineNotFound|;
    assert |LineColumnNotFound| != |FileLineUnparsable|;
    assert |LineColumnUnparsable| != |FileLineNotFound|;
    assert |LineColumnUnparsable| != |FileLineUnparsable|;
    assert |FileLineNotFound| != |FileLineUnparsable|;
  }

  /** The frame built from the file information, stated by the last two
      colons: the function name is the text from `start` up to the
      second-to-last colon and the line column holds the number behind it. */
  lemma FrameFromFileInfoByColons(s: string, start: nat, cursor: int)
    requires 0 <= cursor + 1 <= |s|
    requires cursor < start ==> cursor + 1 == |s| || !IsDigit(s[cursor + 1])
    ensures var r, l := FrameFromFileInfo(s, start, cursor), LastTwoColons(s, start, cursor);
      && (r.Err? <==> l.Err?) && (r.Err? ==> r.error == l.error)
      && (r.Ok? ==> l.value.0 <= |s| && r.value == (Frame(Some(s[start..l.value.0]), None, 0, l.value.1), SpanEnd(s, start, '\n')))
  {
    ReadBackByColons(s, start, cursor);
    var l := LastTwoColons(s, start, cursor);
    if l.Ok? {
      StrndupSlice(s, start, l.value.0);
    }
  }

  /** "Opening brace with file information not found." exactly when the
      line ends in ')' and no '(' follows "at " anywhere in the input. */
  lemma BraceNotFoundCause(s: string, li: nat)
    requires 3 <= li <= |s|
    ensures var e := SpanEnd(s, li, '\n');
      FrameAfterBeginning(s, li) == Err(BraceNotFound) <==> s[e - 1] == ')' && forall k :: li <= k < |s| ==> s[k] != '('
  {
    var e := SpanEnd(s, li, '\n');
    var brace := IndexOf(s, li, '(');
    SpanEndClear(s, li, '(');
    if !(s[e - 1] == ')' && brace.None?) {
      var start := if s[e - 1] == ')' then brace.value + 1 else li;
      var cursor := if s[e - 1] == ')' then e - 2 else e - 1;
      ReadBackErrors(s, start, cursor, None);
      assert |LineColumnNotFound| != |BraceNotFound|;
      assert |LineColumnUnparsable| != |BraceNotFound|;
      assert |FileLineNotFound| != |BraceNotFound|;
      assert |FileLineUnparsable| != |BraceNotFound|;
    }
  }

  /** With a ')' ending the line, the first '(' opens the file information. */
  lemma FileInfoInParens(s: string, li: nat, b: nat)
    requires 3 <= li <= b < |s| && s[b] == '(' && s[SpanEnd(s, li, '\n') - 1] == ')'
    requires forall k :: li <= k < b ==> s[k] != '('
    ensures FrameAfterBeginning(s, li) == FrameFromFileInfo(s, b + 1, SpanEnd(s, li, '\n') - 2)
  {
    IndexOfFirst(s, li, '(', b);
    assert IndexOf(s, li, '(') == Some(b);
  }

  /** Without a ')' ending the line, the file information starts right
      behind "at " and runs to the end of the line. */
  lemma FileInfoBare(s: string, li: nat)
    requires 3 <= li <= |s| && s[SpanEnd(s, li, '\n') - 1] != ')'
    ensures FrameAfterBeginning(s, li) == FrameFromFileInfo(s, li, SpanEnd(s, li, '\n') - 1)
  {
  }

  /** Colons inside the location go to the function name, and a leading
      zero is read: "at a:b:01:2" gives the function name "a:b" and the line
      column 1. */
  lemma ColonsInLocation(s: string)
    requires s == "at a:b:01:2"
    ensures ParseFrameSpec(s, 0) == Ok((Frame(Some("a:b"), None, 0, 1), 11))
  {
    ColonsInLocationStart(s);
    ColonsInLocationRegion(s);
    ColonsInLocationFrame(s);
  }

  /** "at " opens the example line. */
  lemma ColonsInLocationStart(s: string)
    requires s == "at a:b:01:2"
    ensures ParseFrameSpec(s, 0) == FrameAfterBeginning(s, 3)
  {
    assert s[0] == 'a' && s[1] == 't' && s[2] == ' ';
    assert MatchAt(s, 0, "at ");
  }

  /** The example line has no ')', so its file information runs to its end. */
  lemma ColonsInLocationRegion(s: string)
    requires s == "at a:b:01:2"
    ensures FrameAfterBeginning(s, 3) == FrameFromFileInfo(s, 3, 10)
  {
    SpanEndAt(s, 3, '\n', 11);
    assert s[10] == '2';
    FileInfoBare(s, 3);
  }

  /** The frame the example's file information gives. */
  lemma ColonsInLocationFrame(s: string)
    requires s == "at a:b:01:2"
    ensures FrameFromFileInfo(s, 3, 10) == Ok((Frame(Some("a:b"), None, 0, 1), 11))
  {
    SpanEndAt(s, 3, '\n', 11);
    FrameFromFileInfoByColons(s, 3, 10);
    ColonsInLocationInfo();
    ColonsInLocationName(s);
  }

  /** The example's text in front of its second-to-last colon. */
  lemma ColonsInLocationName(s: string)
    requires s == "at a:b:01:2"
    ensures s[3..6] == "a:b"
  {
  }

  /** The last two colons of "at a:b:01:2" behind "at ". */
  lemma ColonsInLocationInfo()
    ensures LastTwoColons("at a:b:01:2", 3, 10) == Ok((6, 1, 2))
  {
    var s := "at a:b:01:2";
    assert s[6] == ':' && s[7] == '0' && s[8] == '1' && s[9] == ':' && s[10] == '2';
    assert LastColon(s, 3, 10) == Some(9);
    assert LastColon(s, 3, 8) == Some(6);
    DigitsEndAt(s, 7, 9);
    DigitsEndAt(s, 10, 11);
    assert ValueOf(s, 7, 9) == 1;
    assert ValueOf(s, 10, 11) == 2;
  }

  /** The backward scan passes over characters other than ':'. */
  lemma {:induction false} ReadBackSkip(s: string, start: nat, t: int, k: nat, column: Option<UInt32>)
    requires start < k <= t < |s|
    requires forall j :: k < j <= t ==> s[j] != ':'
    ensures ReadBack(s, start, t, column) == ReadBack(s, start, k, column)
    decreases t - k
  {
    if k < t {
      ReadBackSkip(s, start, t - 1, k, column);
    }
  }

  /** Read backwards from the last digit of ":number", the scan reaches the
      colon and reads the number. */
  lemma ReadBackNumber(s: string, a: nat, b: nat, n: UInt32, column: Option<UInt32>)
    requires a < b && b + 1 + |Dec(n)| <= |s| && s[b] == ':'
    requires forall j :: 0 <= j < |Dec(n)| ==> s[b + 1 + j] == Dec(n)[j]
    requires b + 1 + |Dec(n)| == |s| || !IsDigit(s[b + 1 + |Dec(n)|])
    ensures ReadBack(s, a, b + |Dec(n)|, column) ==
      if column.None? then ReadBack(s, a, b - 1, Some(n)) else Ok((b, n, column.value))
  {
    var d := Dec(n);
    forall j | b < j <= b + |d|
      ensures s[j] != ':'
    {
      assert s[b + 1 + (j - b - 1)] == d[j - b - 1];
    }
    ReadBackSkip(s, a, b + |d|, b, column);
    ParseUInt32Dec(s, b + 1, n);
  }

  /** Read backwards from the last digit of "file:line:column", the scan
      finds the colon behind the file name, the line and the column. */
  lemma FileInfoAt(s: string, a: nat, b: nat, line: UInt32, column: UInt32)
    requires a < b && b + 2 + |Dec(line)| + |Dec(column)| <= |s|
    requires s[b] == ':' && s[b + 1 + |Dec(line)|] == ':'
    requires forall j :: 0 <= j < |Dec(line)| ==> s[b + 1 + j] == Dec(line)[j]
    requires forall j :: 0 <= j < |Dec(column)| ==> s[b + 2 + |Dec(line)| + j] == Dec(column)[j]
    requires var e := b + 2 + |Dec(line)| + |Dec(column)|; e == |s| || !IsDigit(s[e])
    ensures ReadBack(s, a, b + 1 + |Dec(line)| + |Dec(column)|, None) == Ok((b, line, column))
  {
    var m := b + 1 + |Dec(line)|;
    ReadBackNumber(s, a, m, column, None);
    ReadBackNumber(s, a, b, line, Some(column));
  }

  /** Where the file name starts in the rendering of a frame. */
  function FileStart(f: Frame): nat {
    3 + if f.functionName.Some? then |f.functionName.value| + 2 else 0
  }

  /** Where "file:line:col" lies in `text`, from `a` on, character by
      character. */
  ghost predicate InfoLayout(text: string, a: nat, f: Frame)
    requires f.fileName.Some?
  {
    var file, dl, dc := f.fileName.value, Dec(f.fileLine), Dec(f.lineColumn);
    var b := a + |file|;
    var m := b + 1 + |dl|;
    && m + 1 + |dc| <= |text|
    && (forall j :: 0 <= j < |file| ==> text[a + j] == file[j])
    && text[b] == ':'
    && (forall j :: 0 <= j < |dl| ==> text[b + 1 + j] == dl[j])
    && text[m] == ':'
    && (forall j :: 0 <= j < |dc| ==> text[m + 1 + j] == dc[j])
  }

  /** Where each part of "at F (file:line:col)" or "at file:line:col" lies
      in `text`. */
  ghost predicate Layout(text: string, f: Frame)
    requires f.fileName.Some?
  {
    var fn, a := f.functionName, FileStart(f);
    && |text| == a + |f.fileName.value| + 2 + |Dec(f.fileLine)| + |Dec(f.lineColumn)| + (if fn.Some? then 1 else 0)
    && text[0] == 'a' && text[1] == 't' && text[2] == ' '
    && (fn.Some? ==>
         && (forall j :: 0 <= j < |fn.value| ==> text[3 + j] == fn.value[j])
         && text[a - 2] == ' ' && text[a - 1] == '(' && text[|text| - 1] == ')')
    && InfoLayout(text, a, f)
  }

  /** "file:line:col" between a prefix and a tail has the layout. */
  lemma InfoPieces(pre: string, f: Frame, tail: string)
    requires f.fileName.Some?
    ensures var text := pre + f.fileName.value + ":" + Dec(f.fileLine) + ":" + Dec(f.lineColumn) + tail;
      && |text| == |pre| + |f.fileName.value| + 2 + |Dec(f.fileLine)| + |Dec(f.lineColumn)| + |tail|
      && (forall j :: 0 <= j < |pre| ==> text[j] == pre[j])
      && (forall j :: 0 <= j < |tail| ==> text[|text| - |tail| + j] == tail[j])
      && InfoLayout(text, |pre|, f)
  {
  }

  /** The rendering of a frame has the layout. */
  lemma FrameTextLayout(f: Frame)
    requires f.fileName.Some?
    ensures Layout(FrameText(f), f)
  {
    var x := if f.functionName.Some? then f.functionName.value + " (" else "";
    var tail := if f.functionName.Some? then ")" else "";
    var pre := "at " + x;
    assert |pre| == FileStart(f) && pre[0] == 'a' && pre[1] == 't' && pre[2] == ' ';
    if f.functionName.Some? {
      var fn := f.functionName.value;
      assert forall j :: 0 <= j < |fn| ==> pre[3 + j] == fn[j];
      assert pre[3 + |fn|] == ' ' && pre[4 + |fn|] == '(';
    }
    InfoPieces(pre, f, tail);
  }

  /** A frame whose rendering reads back: it has a non-empty file name, no
      part of it breaks the line, and the function name holds no '('. */
  predicate Renderable(f: Frame)
  {
    && f.fileName.Some? && |f.fileName.value| > 0 && '\n' !in f.fileName.value
    && (f.functionName.Some? ==> '\n' !in f.functionName.value && '(' !in f.functionName.value)
  }

  /** The rendering of a renderable frame is a single line. */
  lemma LayoutLine(text: string, f: Frame)
    requires Renderable(f) && Layout(text, f)
    ensures SpanEnd(text, 3, '\n') == |text|
    ensures SpanEnd(text, FileStart(f), '\n') == |text|
  {
    var a := FileStart(f);
    var file, dl, dc := f.fileName.value, Dec(f.fileLine), Dec(f.lineColumn);
    var b := a + |file|;
    var m := b + 1 + |dl|;
    forall k | 3 <= k < |text|
      ensures text[k] != '\n'
    {
      if k < a - 2 {
        assert text[3 + (k - 3)] == f.functionName.value[k - 3];
      } else if k < a {
      } else if k < b {
        assert text[a + (k - a)] == file[k - a];
      } else if b < k < m {
        assert text[b + 1 + (k - b - 1)] == dl[k - b - 1];
      } else if m < k < m + 1 + |dc| {
        assert text[m + 1 + (k - m - 1)] == dc[k - m - 1];
      }
    }
    SpanEndAt(text, 3, '\n', |text|);
    SpanEndAt(text, a, '\n', |text|);
  }

  /** The rendering ends in ')' exactly when it names a function. */
  lemma LayoutParen(text: string, f: Frame)
    requires Renderable(f) && Layout(text, f)
    ensures text[|text| - 1] == ')' <==> f.functionName.Some?
  {
    if f.functionName.None? {
      var dc := Dec(f.lineColumn);
      var m := FileStart(f) + |f.fileName.value| + 1 + |Dec(f.fileLine)|;
      assert text[m + 1 + (|dc| - 1)] == dc[|dc| - 1];
    }
  }

  /** With a function name, the first '(' behind "at " opens the file
      information. */
  lemma LayoutBrace(text: string, f: Frame)
    requires Renderable(f) && Layout(text, f) && f.functionName.Some?
    ensures IndexOf(text, 3, '(') == Some(FileStart(f) - 1)
  {
    var fn := f.functionName.value;
    forall k | 3 <= k < FileStart(f) - 1
      ensures text[k] != '('
    {
      if k < 3 + |fn| {
        assert text[3 + (k - 3)] == fn[k - 3];
      }
    }
    SpanEndAt(text, 3, '(', FileStart(f) - 1);
  }

  /** The backward scan of the rendering finds the file line and the line
      column, and the colon behind the file name. */
  lemma LayoutFileInfo(text: string, f: Frame)
    requires Renderable(f) && Layout(text, f)
    ensures var a, dl, dc := FileStart(f), Dec(f.fileLine), Dec(f.lineColumn);
      var b := a + |f.fileName.value|;
      ReadBack(text, a, b + 1 + |dl| + |dc|, None) == Ok((b, f.fileLine, f.lineColumn))
  {
    var a, dl, dc := FileStart(f), Dec(f.fileLine), Dec(f.lineColumn);
    var b := a + |f.fileName.value|;
    var e := b + 2 + |dl| + |dc|;
    assert e == |text| || text[e] == ')';
    FileInfoAt(text, a, b, f.fileLine, f.lineColumn);
  }

  /** The file name is copied back from the rendering. */
  lemma LayoutFile(text: string, f: Frame)
    requires Renderable(f) && Layout(text, f)
    ensures Strndup(text, FileStart(f), FileStart(f) + |f.fileName.value|) == f.fileName.value
  {
  }

  /** The function name, with the space in front of the parenthesis trimmed,
      is copied back from the rendering. */
  lemma LayoutName(text: string, f: Frame)
    requires Renderable(f) && Layout(text, f) && f.functionName.Some?
    requires var fn := f.functionName.value; |fn| > 0 ==> fn[|fn| - 1] != ' '
    ensures TrimSpaces(text, 3, FileStart(f) - 1) == FileStart(f) - 2
    ensures Strndup(text, 3, FileStart(f) - 2) == f.functionName.value
  {
    var fn := f.functionName.value;
    if |fn| > 0 {
      assert text[3 + (|fn| - 1)] == fn[|fn| - 1];
    }
  }

  /** What the frame parser finds on a one-line text that starts with
      "at ", given where the file information lies. */
  ghost predicate LineFacts(text: string, paren: bool, a: nat, b: nat, c: nat, line: UInt32, column: UInt32)
  {
    && 3 <= a < b <= c < |text|
    && MatchAt(text, 0, "at ")
    && SpanEnd(text, 3, '\n') == |text| && SpanEnd(text, a, '\n') == |text|
    && (text[|text| - 1] == ')' <==> paren)
    && (paren ==> IndexOf(text, 3, '(') == Some(a - 1) && c == |text| - 2)
    && (!paren ==> a == 3 && c == |text| - 1)
    && ReadBack(text, a, c, None) == Ok((b, line, column))
  }

  /** The parser as written, from those facts. */
  lemma ParseLineAsWritten(text: string, paren: bool, a: nat, b: nat, c: nat, line: UInt32, column: UInt32)
    requires LineFacts(text, paren, a, b, c, line, column)
    ensures ParseFrameSpec(text, 0) == Ok((Frame(Some(Strndup(text, a, b)), None, 0, line), |text|))
  {
    FindFromFirst(text, 0, "at ", 0);
  }

  /** The intended parser, from those facts. */
  lemma ParseLineIntended(text: string, paren: bool, a: nat, b: nat, c: nat, line: UInt32, column: UInt32)
    requires LineFacts(text, paren, a, b, c, line, column)
    ensures ParseFrameIntended(text, 0) ==
      Ok((Frame(if paren then Some(Strndup(text, 3, TrimSpaces(text, 3, a - 1))) else None,
                Some(Strndup(text, a, b)), line, column), |text|))
  {
    FindFromFirst(text, 0, "at ", 0);
  }

  /** A text laid out as the rendering of `f` has those facts. */
  lemma LayoutLineFacts(text: string, f: Frame)
    requires Renderable(f) && Layout(text, f)
    ensures var a := FileStart(f); var b := a + |f.fileName.value|;
      LineFacts(text, f.functionName.Some?, a, b, b + 1 + |Dec(f.fileLine)| + |Dec(f.lineColumn)|, f.fileLine, f.lineColumn)
  {
    LayoutLine(text, f);
    LayoutParen(text, f);
    if f.functionName.Some? {
      LayoutBrace(text, f);
    }
    LayoutFileInfo(text, f);
  }

  /** The parser as written on a text laid out as the rendering of `f`. */
  lemma ParseLayoutAsWritten(text: string, f: Frame)
    requires Renderable(f) && Layout(text, f)
    ensures ParseFrameSpec(text, 0) == Ok((Frame(f.fileName, None, 0, f.fileLine), |text|))
  {
    LayoutLineFacts(text, f);
    var a := FileStart(f);
    var b := a + |f.fileName.value|;
    ParseLineAsWritten(text, f.functionName.Some?, a, b, b + 1 + |Dec(f.fileLine)| + |Dec(f.lineColumn)|, f.fileLine, f.lineColumn);
    LayoutFile(text, f);
  }

  /** The intended parser on a text laid out as the rendering of `f`. */
  lemma ParseLayoutIntended(text: string, f: Frame)
    requires Renderable(f) && Layout(text, f)
    requires f.functionName.Some? ==> var fn := f.functionName.value; |fn| > 0 ==> fn[|fn| - 1] != ' '
    ensures ParseFrameIntended(text, 0) == Ok((f, |text|))
  {
    LayoutLineFacts(text, f);
    var a := FileStart(f);
    var b := a + |f.fileName.value|;
    ParseLineIntended(text, f.functionName.Some?, a, b, b + 1 + |Dec(f.fileLine)| + |Dec(f.lineColumn)|, f.fileLine, f.lineColumn);
    LayoutFile(text, f);
    if f.functionName.Some? {
      LayoutName(text, f);
    }
  }

  /** Reading back the rendering of a frame as written: the file name comes
      back as the function name, the file line as the line column, and the
      function name, the file name and the line column are lost. */
  lemma FrameRoundTripAsWritten(f: Frame)
    requires Renderable(f)
    ensures ParseFrameSpec(FrameText(f), 0) ==
      Ok((Frame(f.fileName, None, 0, f.fileLine), |FrameText(f)|))
  {
    FrameTextLayout(f);
    ParseLayoutAsWritten(FrameText(f), f);
  }

  /** Reading back the rendering of a frame as intended gives the frame
      back, when its function name does not end in a space. */
  lemma FrameRoundTripIntended(f: Frame)
    requires Renderable(f)
    requires f.functionName.Some? ==> var fn := f.functionName.value; |fn| > 0 ==> fn[|fn| - 1] != ' '
    ensures ParseFrameIntended(FrameText(f), 0) == Ok((f, |FrameText(f)|))
  {
    FrameTextLayout(f);
    ParseLayoutIntended(FrameText(f), f);
  }
}
