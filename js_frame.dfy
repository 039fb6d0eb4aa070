/** lib/js_frame.c: the JavaScript stack frame, its chain operations, the two
    comparators, the hash texts, the text rendering and the JSON codec. */
module JsFrame {
  import opened Wrappers
  import opened TextScan
  import opened Json
  import opened Strbuf

  /** struct sr_js_frame, without its `next` link. An absent string is None;
      0 in `fileLine` or `lineColumn` means unknown. */
  datatype Frame = Frame(
    functionName: Option<string>,
    fileName: Option<string>,
    fileLine: UInt32,
    lineColumn: UInt32)

  /** sr_js_frame_init: every field cleared. */
  const EmptyFrame: Frame := Frame(None, None, 0, 0)

  /* ---------------------------------------------------------------------
     Chains of heap frames (the `next` links)
     --------------------------------------------------------------------- */

  /** A heap-allocated struct sr_js_frame. None of the operations modelled
      here changes a node's data after it is built, so only the link is
      mutable. */
  class FrameNode {
    const functionName: Option<string>
    const fileName: Option<string>
    const fileLine: UInt32
    const lineColumn: UInt32
    var next: FrameNode?

    /** sr_js_frame_new followed by filling in the fields of `f`. */
    constructor (f: Frame)
      ensures Value() == f && next == null
    {
      functionName, fileName := f.functionName, f.fileName;
      fileLine, lineColumn := f.fileLine, f.lineColumn;
      next := null;
    }

    /** The fields of this node, without its link. */
    function Value(): Frame
    {
      Frame(functionName, fileName, fileLine, lineColumn)
    }
  }

  /** Each listed node links to the next one in the list. */
  ghost predicate Linked(ns: seq<FrameNode>)
    reads ns
  {
    forall i :: 0 <= i < |ns| - 1 ==> ns[i].next == ns[i + 1]
  }

  predicate Distinct(ns: seq<FrameNode>) {
    forall i, j :: 0 <= i < j < |ns| ==> ns[i] != ns[j]
  }

  /** `ns` lists, in order, the distinct nodes reached from `head` by `next`
      links; the last node's link is null. */
  ghost predicate IsChain(head: FrameNode?, ns: seq<FrameNode>)
    reads ns
  {
    && (head == null <==> ns == [])
    && (ns != [] ==> ns[0] == head && ns[|ns| - 1].next == null)
    && Linked(ns)
    && Distinct(ns)
  }

  /** The frames a chain holds, head first. */
  ghost function Values(ns: seq<FrameNode>): (r: seq<Frame>)
    ensures |r| == |ns|
  {
    if ns == [] then [] else [ns[0].Value()] + Values(ns[1..])
  }

  lemma {:induction false} ValuesAt(ns: seq<FrameNode>, i: nat)
    requires i < |ns|
    ensures Values(ns)[i] == ns[i].Value()
  {
    if i > 0 {
      ValuesAt(ns[1..], i - 1);
    }
  }

  /** A node linked to the head of a chain it is not part of heads a chain. */
  lemma ChainCons(n: FrameNode, ns: seq<FrameNode>)
    requires IsChain(n.next, ns) && n !in ns
    ensures IsChain(n, [n] + ns)
  {
    var rs := [n] + ns;
    assert forall i :: 1 <= i < |rs| ==> rs[i] == ns[i - 1];
  }

  /** The rest of a chain is the chain of the head's successor. */
  lemma ChainTail(head: FrameNode, ns: seq<FrameNode>)
    requires IsChain(head, ns)
    ensures IsChain(head.next, ns[1..])
  {
    if |ns| > 1 {
      assert ns[0].next == ns[1];
    }
  }

  /** In a linked list only the last node can have a null link. */
  lemma LinkedNotLast(ns: seq<FrameNode>)
    requires Linked(ns)
    ensures forall i :: 0 <= i < |ns| - 1 ==> ns[i].next != null
  {
    forall i | 0 <= i < |ns| - 1
      ensures ns[i].next != null
    {
      assert ns[i].next == ns[i + 1];
    }
  }

  /** Linking the last node of one chain to the head of a disjoint chain
      yields a chain of both. */
  lemma ChainJoin(dn: seq<FrameNode>, itn: seq<FrameNode>)
    requires dn != [] && Linked(dn) && Distinct(dn + itn)
    requires IsChain(if itn == [] then null else itn[0], itn)
    requires dn[|dn| - 1].next == if itn == [] then null else itn[0]
    ensures IsChain(dn[0], dn + itn)
  {
    var all := dn + itn;
    forall i | 0 <= i < |all| - 1
      ensures all[i].next == all[i + 1]
    {
      if i < |dn| - 1 {
        assert all[i] == dn[i] && all[i + 1] == dn[i + 1];
      } else if i == |dn| - 1 {
        assert all[i + 1] == itn[0];
      } else {
        assert all[i] == itn[i - |dn|] && all[i + 1] == itn[i - |dn| + 1];
      }
    }
  }

  lemma DistinctJoin(dn: seq<FrameNode>, itn: seq<FrameNode>)
    requires Distinct(dn) && Distinct(itn)
    requires forall i, j :: 0 <= i < |dn| && 0 <= j < |itn| ==> dn[i] != itn[j]
    ensures Distinct(dn + itn)
  {
    var all := dn + itn;
    forall i, j | 0 <= i < j < |all|
      ensures all[i] != all[j]
    {
      if j < |dn| {
        assert all[i] == dn[i] && all[j] == dn[j];
      } else if i >= |dn| {
        assert all[i] == itn[i - |dn|] && all[j] == itn[j - |dn|];
      } else {
        assert all[i] == dn[i] && all[j] == itn[j - |dn|];
      }
    }
  }

  lemma {:induction false} ValuesJoin(dn: seq<FrameNode>, itn: seq<FrameNode>)
    ensures Values(dn + itn) == Values(dn) + Values(itn)
  {
    if dn != [] {
      assert (dn + itn)[1..] == dn[1..] + itn;
      ValuesJoin(dn[1..], itn);
      assert Values(dn + itn) == [dn[0].Value()] + Values(dn[1..] + itn);
    } else {
      assert dn + itn == itn;
    }
  }

  /** sr_js_frame_dup: a copy made of fresh nodes; with `siblings` the whole
      chain is copied, otherwise only the head and the copy's link is null. */
  method Dup(frame: FrameNode, siblings: bool, ghost ns: seq<FrameNode>)
      returns (r: FrameNode, ghost rs: seq<FrameNode>)
    requires IsChain(frame, ns)
    ensures IsChain(r, rs)
    ensures forall n | n in rs :: fresh(n)
    ensures Values(rs) == if siblings then Values(ns) else [frame.Value()]
    decreases |ns|
  {
    ghost var vs := Values(ns);
    r := new FrameNode(frame.Value());
    rs := [r];
    if siblings && frame.next != null {
      ChainTail(frame, ns);
      ghost var vtail := Values(ns[1..]);
      assert vs == [frame.Value()] + vtail;
      var tail, trs := Dup(frame.next, true, ns[1..]);
      assert r !in trs;
      r.next := tail;
      rs := [r] + trs;
      assert IsChain(r, rs) by {
        assert IsChain(tail, trs);
        ChainCons(r, trs);
      }
      assert Values(rs) == vs by {
        assert Values(trs) == vtail;
        assert rs[1..] == trs;
      }
    } else if siblings {
      ChainTail(frame, ns);
      assert |ns[1..]| == 0;
    }
  }

  /** sr_js_frame_append: links `item` after the last node of `dest`; with no
      `dest` the result is `item`. Only the old last node's link changes. */
  method Append(dest: FrameNode?, item: FrameNode?, ghost dn: seq<FrameNode>, ghost itn: seq<FrameNode>)
      returns (r: FrameNode?)
    requires IsChain(dest, dn) && IsChain(item, itn)
    requires forall i, j :: 0 <= i < |dn| && 0 <= j < |itn| ==> dn[i] != itn[j]
    modifies if dn == [] then {} else {dn[|dn| - 1]}
    ensures r == if dest == null then item else dest
    ensures IsChain(r, dn + itn)
  {
    if dest == null {
      assert dn + itn == itn;
      return item;
    }
    var last := dest;
    ghost var k := 0;
    while last.next != null
      invariant 0 <= k < |dn| && last == dn[k]
      invariant IsChain(dest, dn)
      decreases |dn| - k
    {
      last := last.next;
      k := k + 1;
    }
    LinkedNotLast(dn);
    assert dn[k].next == null;
    assert k == |dn| - 1;
    last.next := item;
    r := dest;
    assert Linked(dn) by {
      forall i | 0 <= i < |dn| - 1
        ensures dn[i].next == dn[i + 1]
      {
        assert dn[i] != last;
      }
    }
    DistinctJoin(dn, itn);
    ChainJoin(dn, itn);
  }

  /* ---------------------------------------------------------------------
     Comparators
     --------------------------------------------------------------------- */

  function Sign(x: int): int {
    if x < 0 then -1 else if x > 0 then 1 else 0
  }

  /** The sign of strcmp: lexicographic order on characters, a proper prefix
      first. */
  function StrCmp(a: string, b: string): (r: int)
    ensures -1 <= r <= 1
    ensures r == 0 <==> a == b
  {
    if a == [] || b == [] then
      (if a == b then 0 else if a == [] then -1 else 1)
    else if a[0] < b[0] then -1
    else if a[0] > b[0] then 1
    else
      var r := StrCmp(a[1..], b[1..]);
      assert a == [a[0]] + a[1..] && b == [b[0]] + b[1..];
      r
  }

  lemma {:induction false} StrCmpAntisymmetric(a: string, b: string)
    ensures StrCmp(a, b) == -StrCmp(b, a)
  {
    if a != [] && b != [] && a[0] == b[0] {
      StrCmpAntisymmetric(a[1..], b[1..]);
    }
  }

  lemma {:induction false} StrCmpTransitive(a: string, b: string, c: string)
    requires StrCmp(a, b) < 0 && StrCmp(b, c) < 0
    ensures StrCmp(a, c) < 0
  {
    if a != [] && b != [] && c != [] && a[0] == b[0] && b[0] == c[0] {
      StrCmpTransitive(a[1..], b[1..], c[1..]);
    }
  }

  /** sr_strcmp0: an absent string orders before every string. */
  function StrCmp0(a: Option<string>, b: Option<string>): (r: int)
    ensures -1 <= r <= 1
    ensures r == 0 <==> a == b
    ensures a.None? && b.Some? ==> r < 0
    ensures a.Some? && b.Some? ==> r == StrCmp(a.value, b.value)
  {
    if a.None? then (if b.None? then 0 else -1)
    else if b.None? then 1
    else StrCmp(a.value, b.value)
  }

  lemma StrCmp0Antisymmetric(a: Option<string>, b: Option<string>)
    ensures StrCmp0(a, b) == -StrCmp0(b, a)
  {
    if a.Some? && b.Some? {
      StrCmpAntisymmetric(a.value, b.value);
    }
  }

  lemma StrCmp0Transitive(a: Option<string>, b: Option<string>, c: Option<string>)
    requires StrCmp0(a, b) < 0 && StrCmp0(b, c) < 0
    ensures StrCmp0(a, c) < 0
  {
    if a.Some? {
      StrCmpTransitive(a.value, b.value, c.value);
    }
  }

  /** `int d = u1 - u2` for uint32_t operands: the difference wraps modulo
      2^32 and the conversion to a 32-bit int reads it in two's complement. */
  function DiffAsInt(a: UInt32, b: UInt32): (r: int)
    ensures -0x8000_0000 <= r < 0x8000_0000
    ensures r == 0 <==> a == b
    ensures (r - (a - b)) % 0x1_0000_0000 == 0
    ensures -0x8000_0000 < a - b < 0x8000_0000 ==> r == a - b
  {
    var d := (a - b) % 0x1_0000_0000;
    if d < 0x8000_0000 then d else d - 0x1_0000_0000
  }

  /** Both numeric keys of two frames differ by less than 2^31, the range
      in which DiffAsInt has the sign of the true difference. */
  predicate NumbersClose(f: Frame, g: Frame) {
    && -0x8000_0000 < f.fileLine - g.fileLine < 0x8000_0000
    && -0x8000_0000 < f.lineColumn - g.lineColumn < 0x8000_0000
  }

  /** sr_js_frame_cmp: function name, then file name, then file line, then
      line column; the first key that differs decides. */
  function Cmp(f: Frame, g: Frame): (r: int)
    ensures r == 0 <==> f == g
    ensures f.functionName != g.functionName ==>
      Sign(r) == StrCmp0(f.functionName, g.functionName)
    ensures f.functionName == g.functionName && f.fileName != g.fileName ==>
      Sign(r) == StrCmp0(f.fileName, g.fileName)
    ensures f.functionName == g.functionName && f.fileName == g.fileName && f.fileLine != g.fileLine
            && -0x8000_0000 < f.fileLine - g.fileLine < 0x8000_0000 ==>
      Sign(r) == Sign(f.fileLine - g.fileLine)
    ensures f.functionName == g.functionName && f.fileName == g.fileName && f.fileLine == g.fileLine
            && -0x8000_0000 < f.lineColumn - g.lineColumn < 0x8000_0000 ==>
      Sign(r) == Sign(f.lineColumn - g.lineColumn)
  {
    var functionName := StrCmp0(f.functionName, g.functionName);
    if functionName != 0 then functionName
    else
      var fileName := StrCmp0(f.fileName, g.fileName);
      if fileName != 0 then fileName
      else
        var fileLine := DiffAsInt(f.fileLine, g.fileLine);
        if fileLine != 0 then fileLine
        else DiffAsInt(f.lineColumn, g.lineColumn)
  }

  /** sr_js_frame_cmp_distance: file line, then function name, then file name;
      the line column is not looked at. */
  function CmpDistance(f: Frame, g: Frame): (r: int)
    ensures r == 0 <==>
      f.fileLine == g.fileLine && f.functionName == g.functionName && f.fileName == g.fileName
    ensures f.fileLine != g.fileLine && -0x8000_0000 < f.fileLine - g.fileLine < 0x8000_0000 ==>
      Sign(r) == Sign(f.fileLine - g.fileLine)
    ensures f.fileLine == g.fileLine && f.functionName != g.functionName ==>
      Sign(r) == StrCmp0(f.functionName, g.functionName)
    ensures f.fileLine == g.fileLine && f.functionName == g.functionName ==>
      Sign(r) == StrCmp0(f.fileName, g.fileName)
  {
    var fileLine := DiffAsInt(f.fileLine, g.fileLine);
    if fileLine != 0 then fileLine
    else
      var functionName := StrCmp0(f.functionName, g.functionName);
      if functionName != 0 then functionName
      else StrCmp0(f.fileName, g.fileName)
  }

  /** Two frames that differ only in their line column are equal to
      CmpDistance, and each frame is equal to itself under both comparators. */
  lemma CmpDistanceIgnoresColumn(f: Frame, c: UInt32)
    ensures CmpDistance(f, f.(lineColumn := c)) == 0
    ensures Cmp(f, f) == 0
    ensures c != f.lineColumn ==> Cmp(f, f.(lineColumn := c)) != 0
  {
  }

  /** Swapping the frames reverses the order, while the numbers are close. */
  lemma {:induction false} CmpAntisymmetric(f: Frame, g: Frame)
    requires NumbersClose(f, g)
    ensures Sign(Cmp(f, g)) == -Sign(Cmp(g, f))
    ensures Sign(CmpDistance(f, g)) == -Sign(CmpDistance(g, f))
  {
    StrCmp0Antisymmetric(f.functionName, g.functionName);
    StrCmp0Antisymmetric(f.fileName, g.fileName);
  }

  /** The wrap-around breaks antisymmetry: two frames whose file lines are
      2^31 apart are each "less" than the other. */
  lemma CmpWrapAroundCounterexample()
    ensures var f := Frame(None, None, 0, 0);
            var g := Frame(None, None, 0x8000_0000, 0);
            Cmp(f, g) < 0 && Cmp(g, f) < 0 && CmpDistance(f, g) < 0 && CmpDistance(g, f) < 0
  {
  }

  /** ...and past 2^31 it gives the wrong sign: line 0 sorts after line 2^31 + 1. */
  lemma CmpWrongSignCounterexample()
    ensures var f := Frame(None, None, 0, 0);
            var g := Frame(None, None, 0x8000_0001, 0);
            f.fileLine < g.fileLine && Cmp(f, g) > 0 && CmpDistance(f, g) > 0
  {
  }

  /** Three-way comparison of two numbers without overflow. */
  function NumCmp(a: int, b: int): (r: int)
    ensures r == Sign(a - b)
  {
    if a < b then -1 else if a > b then 1 else 0
  }

  /** sr_js_frame_cmp with the numeric keys compared without wrap-around. */
  function CmpExact(f: Frame, g: Frame): (r: int)
    ensures -1 <= r <= 1
    ensures NumbersClose(f, g) ==> r == Sign(Cmp(f, g))
  {
    var functionName := StrCmp0(f.functionName, g.functionName);
    if functionName != 0 then functionName
    else
      var fileName := StrCmp0(f.fileName, g.fileName);
      if fileName != 0 then fileName
      else
        var fileLine := NumCmp(f.fileLine, g.fileLine);
        if fileLine != 0 then fileLine
        else NumCmp(f.lineColumn, g.lineColumn)
  }

  /** sr_js_frame_cmp_distance with the file lines compared without wrap-around. */
  function CmpDistanceExact(f: Frame, g: Frame): (r: int)
    ensures -1 <= r <= 1
    ensures NumbersClose(f, g) ==> r == Sign(CmpDistance(f, g))
  {
    var fileLine := NumCmp(f.fileLine, g.fileLine);
    if fileLine != 0 then fileLine
    else
      var functionName := StrCmp0(f.functionName, g.functionName);
      if functionName != 0 then functionName
      else StrCmp0(f.fileName, g.fileName)
  }

  /** CmpExact is a strict total order on frames (zero exactly on equal
      frames, antisymmetric, transitive), and so is CmpDistanceExact on the
      frames' (line, function, file) keys. */
  lemma CmpExactTotalOrder(f: Frame, g: Frame, h: Frame)
    ensures CmpExact(f, g) == 0 <==> f == g
    ensures CmpExact(f, g) == -CmpExact(g, f)
    ensures CmpExact(f, g) < 0 && CmpExact(g, h) < 0 ==> CmpExact(f, h) < 0
    ensures CmpDistanceExact(f, g) == -CmpDistanceExact(g, f)
    ensures CmpDistanceExact(f, g) < 0 && CmpDistanceExact(g, h) < 0 ==> CmpDistanceExact(f, h) < 0
  {
    StrCmp0Antisymmetric(f.functionName, g.functionName);
    StrCmp0Antisymmetric(f.fileName, g.fileName);
    if StrCmp0(f.functionName, g.functionName) < 0 && StrCmp0(g.functionName, h.functionName) < 0 {
      StrCmp0Transitive(f.functionName, g.functionName, h.functionName);
    }
    if StrCmp0(f.fileName, g.fileName) < 0 && StrCmp0(g.fileName, h.fileName) < 0 {
      StrCmp0Transitive(f.fileName, g.fileName, h.fileName);
    }
  }

  /* ---------------------------------------------------------------------
     Hash texts and text rendering
     --------------------------------------------------------------------- */

  /** OR_UNKNOWN */
  function OrUnknown(s: Option<string>): string {
    if s.Some? then s.value else "UNKNOWN"
  }

  /** The line js_append_bthash_text adds: "<file>, <line>, <function>\n". */
  function BthashText(f: Frame): string {
    OrUnknown(f.fileName) + ", " + Dec(f.fileLine) + ", " + OrUnknown(f.functionName) + "\n"
  }

  /** The line js_append_duphash_text adds: "<file>:<line>\n". */
  function DuphashText(f: Frame): string {
    OrUnknown(f.fileName) + ":" + Dec(f.fileLine) + "\n"
  }

  /** What sr_js_frame_append_to_str adds: "at F (file:line:col)" for a named
      frame, "at file:line:col" otherwise. */
  function FrameText(f: Frame): string
    requires f.fileName.Some?
  {
    "at "
    + (if f.functionName.Some? then f.functionName.value + " (" else "")
    + f.fileName.value + ":" + Dec(f.fileLine) + ":" + Dec(f.lineColumn)
    + (if f.functionName.Some? then ")" else "")
  }

  /** js_append_bthash_text */
  method AppendBthashText(f: Frame, buf: StrBuf)
    modifies buf
    ensures buf.buf == old(buf.buf) + BthashText(f)
  {
    buf.Append(OrUnknown(f.fileName) + ", " + Dec(f.fileLine) + ", " + OrUnknown(f.functionName) + "\n");
  }

  /** js_append_duphash_text */
  method AppendDuphashText(f: Frame, buf: StrBuf)
    modifies buf
    ensures buf.buf == old(buf.buf) + DuphashText(f)
  {
    buf.Append(OrUnknown(f.fileName) + ":" + Dec(f.fileLine) + "\n");
  }

  /** sr_js_frame_append_to_str */
  method AppendToStr(f: Frame, dest: StrBuf)
    requires f.fileName.Some?
    modifies dest
    ensures dest.buf == old(dest.buf) + FrameText(f)
  {
    dest.Append("at ");
    if f.functionName.Some? {
      dest.Append(f.functionName.value + " (");
    }
    dest.Append(f.fileName.value + ":" + Dec(f.fileLine) + ":" + Dec(f.lineColumn));
    if f.functionName.Some? {
      dest.Append(")");
    }
  }

  /** Cancelling a common prefix and a common last character. */
  lemma {:induction false} MiddleEqual(p: string, x: string, y: string, z: string)
    requires p + x + z == p + y + z
    ensures x == y
  {
    var t := p + x + z;
    assert x == t[|p|..|t| - |z|];
    assert y == (p + y + z)[|p|..|t| - |z|];
  }

  /** Different numbers are printed differently. */
  lemma DecInjective(a: nat, b: nat)
    requires Dec(a) == Dec(b)
    ensures a == b
  {
    assert a == ValueOf(Dec(a), 0, |Dec(a)|);
  }

  /** The duphash text ignores the function name and the line column, and
      for one file name it tells the file lines apart. */
  lemma {:induction false} DuphashTextKeys(f: Frame, g: Frame)
    requires f.fileName == g.fileName
    ensures DuphashText(f) == DuphashText(g) <==> f.fileLine == g.fileLine
  {
    if DuphashText(f) == DuphashText(g) {
      MiddleEqual(OrUnknown(f.fileName) + ":", Dec(f.fileLine), Dec(g.fileLine), "\n");
      DecInjective(f.fileLine, g.fileLine);
    }
  }

  /** For one file name and line, the bthash text changes exactly when the
      function name (or its UNKNOWN stand-in) changes. */
  lemma {:induction false} BthashTextSeesFunctionName(f: Frame, g: Frame)
    requires f.fileName == g.fileName && f.fileLine == g.fileLine
    ensures BthashText(f) == BthashText(g) <==> OrUnknown(f.functionName) == OrUnknown(g.functionName)
  {
    if BthashText(f) == BthashText(g) {
      var p := OrUnknown(f.fileName) + ", " + Dec(f.fileLine) + ", ";
      MiddleEqual(p, OrUnknown(f.functionName), OrUnknown(g.functionName), "\n");
    }
  }

  /** The rendering starts with "at " and ends with a closing parenthesis
      exactly when the frame has a function name. */
  lemma FrameTextShape(f: Frame)
    requires f.fileName.Some?
    ensures |FrameText(f)| > 3 && FrameText(f)[..3] == "at "
    ensures FrameText(f)[|FrameText(f)| - 1] == ')' <==> f.functionName.Some?
  {
    var d := Dec(f.lineColumn);
    assert IsDigit(d[|d| - 1]);
  }

  /* ---------------------------------------------------------------------
     JSON
     --------------------------------------------------------------------- */

  /** sr_js_frame_from_json: the root must be an object; each key is
      optional; a present `file_name` or `function_name` must be a string and
      a present `file_line` or `line_column` an unsigned 32-bit integer. */
  function FromJson(root: JsonValue): (r: Result<Frame, string>)
    ensures !root.JObject? ==> r.Err?
    ensures root.JObject? ==> (r.Ok? <==>
      && ReadString(root.members, "file_name").Ok?
      && ReadString(root.members, "function_name").Ok?
      && ReadUInt32(root.members, "file_line").Ok?
      && ReadUInt32(root.members, "line_column").Ok?)
    ensures r.Ok? ==> root.JObject? && FieldsMatch(r.value, root.members)
  {
    if !root.JObject? then Err(TypeError("frame", "object"))
    else
      var m := root.members;
      match ReadString(m, "file_name")
      case Err(e) => Err(e)
      case Ok(fileName) =>
        match ReadString(m, "function_name")
        case Err(e) => Err(e)
        case Ok(functionName) =>
          match ReadUInt32(m, "file_line")
          case Err(e) => Err(e)
          case Ok(fileLine) =>
            match ReadUInt32(m, "line_column")
            case Err(e) => Err(e)
            case Ok(lineColumn) =>
              Ok(Frame(functionName, fileName, fileLine.GetOr(0), lineColumn.GetOr(0)))
  }

  /** Every field of `f` is the member of the same name, or unset (None or 0)
      when that member is absent. */
  ghost predicate FieldsMatch(f: Frame, m: seq<(string, JsonValue)>) {
    && StringFieldMatches(f.fileName, Element(m, "file_name"))
    && StringFieldMatches(f.functionName, Element(m, "function_name"))
    && NumberFieldMatches(f.fileLine, Element(m, "file_line"))
    && NumberFieldMatches(f.lineColumn, Element(m, "line_column"))
  }

  ghost predicate StringFieldMatches(field: Option<string>, member: Option<JsonValue>) {
    if member.None? then field.None? else field.Some? && member.value == JString(field.value)
  }

  ghost predicate NumberFieldMatches(field: UInt32, member: Option<JsonValue>) {
    if member.None? then field == 0 else member.value == JInteger(field)
  }

  /** The members sr_js_frame_to_json writes, in order: `file_name` when
      present, `file_line` and `line_column` when non-zero. */
  function JsonMembers(f: Frame): seq<(string, JsonValue)> {
    FileNameMember(f) + FileLineMember(f) + LineColumnMember(f)
  }

  function FileNameMember(f: Frame): seq<(string, JsonValue)> {
    if f.fileName.Some? then [("file_name", JString(f.fileName.value))] else []
  }

  function FunctionNameMember(f: Frame): seq<(string, JsonValue)> {
    if f.functionName.Some? then [("function_name", JString(f.functionName.value))] else []
  }

  function FileLineMember(f: Frame): seq<(string, JsonValue)> {
    if f.fileLine != 0 then [("file_line", JInteger(f.fileLine))] else []
  }

  function LineColumnMember(f: Frame): seq<(string, JsonValue)> {
    if f.lineColumn != 0 then [("line_column", JInteger(f.lineColumn))] else []
  }

  /** A member to_json can write: a string or a non-negative integer. */
  predicate Writable(m: (string, JsonValue)) {
    m.1.JString? || (m.1.JInteger? && m.1.i >= 0)
  }

  /** One line of to_json's output: ",   \"key\": value\n". */
  function MemberLine(m: (string, JsonValue)): (r: string)
    requires Writable(m)
    ensures |r| > 0 && r[0] == ','
  {
    ",   \"" + m.0 + "\": " + (if m.1.JString? then Escaped(m.1.str) else Dec(m.1.i)) + "\n"
  }

  function MemberLines(ms: seq<(string, JsonValue)>): (r: string)
    requires forall i :: 0 <= i < |ms| ==> Writable(ms[i])
    ensures ms != [] ==> |r| > 0 && r[0] == ','
    ensures ms == [] ==> r == []
  {
    if ms == [] then [] else MemberLine(ms[0]) + MemberLines(ms[1..])
  }

  /** The text sr_js_frame_to_json returns: the member lines with their
      first character overwritten by '{', then '}'. With no member line the
      '{' lands on the buffer's terminator and is overwritten. */
  function ToJsonText(f: Frame): string {
    Braced(MemberLines(JsonMembers(f)))
  }

  /** `body` with its first character overwritten by '{' (if it has one),
      then '}'. */
  function Braced(body: string): string {
    (if body == [] then [] else ['{'] + body[1..]) + "}"
  }

  /** sr_js_frame_to_json */
  method ToJson(f: Frame) returns (s: string)
    ensures s == ToJsonText(f)
  {
    var strbuf := new StrBuf();
    if f.fileName.Some? {
      strbuf.Append(",   \"file_name\": ");
      strbuf.Append(Escaped(f.fileName.value));
      strbuf.Append("\n");
    }
    assert strbuf.buf == FileNameText(f);
    if f.fileLine != 0 {
      strbuf.Append(",   \"file_line\": " + Dec(f.fileLine) + "\n");
    }
    assert strbuf.buf == FileNameText(f) + FileLineText(f);
    if f.lineColumn != 0 {
      strbuf.Append(",   \"line_column\": " + Dec(f.lineColumn) + "\n");
    }
    ghost var body := strbuf.buf;
    assert body == FileNameText(f) + FileLineText(f) + LineColumnText(f);
    strbuf.SetFirst('{');
    strbuf.AppendChar('}');
    s := strbuf.buf;
    assert s == Braced(body);
    JsonMembersLines(f);
  }

  /** The member line of each field, empty when the field is not written. */
  function FileNameText(f: Frame): string {
    if f.fileName.Some? then ",   \"file_name\": " + Escaped(f.fileName.value) + "\n" else []
  }

  function FileLineText(f: Frame): string {
    if f.fileLine != 0 then ",   \"file_line\": " + Dec(f.fileLine) + "\n" else []
  }

  function LineColumnText(f: Frame): string {
    if f.lineColumn != 0 then ",   \"line_column\": " + Dec(f.lineColumn) + "\n" else []
  }

  lemma FileNameLines(f: Frame)
    ensures FileNameText(f) == MemberLines(FileNameMember(f))
  {
    MemberLinesChunk(FileNameMember(f));
  }

  lemma FileLineLines(f: Frame)
    ensures FileLineText(f) == MemberLines(FileLineMember(f))
  {
    MemberLinesChunk(FileLineMember(f));
  }

  lemma LineColumnLines(f: Frame)
    ensures LineColumnText(f) == MemberLines(LineColumnMember(f))
  {
    MemberLinesChunk(LineColumnMember(f));
  }

  lemma JsonMembersLines(f: Frame)
    ensures ToJsonText(f) == Braced(FileNameText(f) + FileLineText(f) + LineColumnText(f))
  {
    MemberLinesConcat(FileNameMember(f) + FileLineMember(f), LineColumnMember(f));
    MemberLinesConcat(FileNameMember(f), FileLineMember(f));
    FileNameLines(f);
    FileLineLines(f);
    LineColumnLines(f);
  }

  /** The text of at most one member. */
  lemma MemberLinesChunk(ms: seq<(string, JsonValue)>)
    requires |ms| <= 1 && forall i :: 0 <= i < |ms| ==> Writable(ms[i])
    ensures MemberLines(ms) == if ms == [] then [] else MemberLine(ms[0])
  {
    if ms != [] {
      assert ms[1..] == [];
    }
  }

  lemma {:induction false} MemberLinesConcat(x: seq<(string, JsonValue)>, y: seq<(string, JsonValue)>)
    requires forall i :: 0 <= i < |x| ==> Writable(x[i])
    requires forall i :: 0 <= i < |y| ==> Writable(y[i])
    ensures MemberLines(x + y) == MemberLines(x) + MemberLines(y)
  {
    if x == [] {
      assert x + y == y;
    } else {
      assert (x + y)[1..] == x[1..] + y;
      MemberLinesConcat(x[1..], y);
    }
  }

  /** to_json's text is one '{' ... '}' object when at least one member is
      written; for a frame with no file name and zero line and column it is
      the lone "}". The function name never influences it. */
  lemma ToJsonTextShape(f: Frame)
    ensures JsonMembers(f) == [] <==> f.fileName.None? && f.fileLine == 0 && f.lineColumn == 0
    ensures JsonMembers(f) != [] ==>
      var t := ToJsonText(f); |t| >= 2 && t[0] == '{' && t[|t| - 1] == '}'
    ensures JsonMembers(f) == [] ==> ToJsonText(f) == "}"
    ensures ToJsonText(f) == ToJsonText(f.(functionName := None))
  {
  }

  /** Decoding the members to_json writes gives back the frame without its
      function name, which to_json drops. The text holds those members only
      when there is one: for a frame with none, such as EmptyFrame, it is the
      lone "}", which is no JSON object. */
  lemma JsonRoundTripAsWritten(f: Frame)
    ensures FromJson(JObject(JsonMembers(f))) == Ok(f.(functionName := None))
    ensures JsonMembers(f) == [] <==> f.(functionName := None) == EmptyFrame
    ensures JsonMembers(f) == [] ==> ToJsonText(f) == "}"
  {
    DecodeMembers(f);
    ToJsonTextShape(f);
  }

  /** The decoder reads the written members back into every field but the
      function name. */
  lemma DecodeMembers(f: Frame)
    ensures FromJson(JObject(JsonMembers(f))) == Ok(f.(functionName := None))
  {
    ElementsOfMembers(f);
  }

  /** What each key finds among the members to_json writes. */
  lemma ElementsOfMembers(f: Frame)
    ensures Element(JsonMembers(f), "file_name") == if f.fileName.Some? then Some(JString(f.fileName.value)) else None
    ensures Element(JsonMembers(f), "function_name") == None
    ensures Element(JsonMembers(f), "file_line") == if f.fileLine != 0 then Some(JInteger(f.fileLine)) else None
    ensures Element(JsonMembers(f), "line_column") == if f.lineColumn != 0 then Some(JInteger(f.lineColumn)) else None
  {
    var a, b, c := FileNameMember(f), FileLineMember(f), LineColumnMember(f);
    ElementsOfChunks(a, b, c, "file_name");
    ElementsOfChunks(a, b, c, "function_name");
    ElementsOfChunks(a, b, c, "file_line");
    ElementsOfChunks(a, b, c, "line_column");
  }

  /** Lookups in three member lists one after the other. */
  lemma ElementsOfChunks(a: seq<(string, JsonValue)>, b: seq<(string, JsonValue)>, c: seq<(string, JsonValue)>, key: string)
    ensures Element(a + b + c, key) ==
      if Element(a, key).Some? then Element(a, key)
      else if Element(b, key).Some? then Element(b, key)
      else Element(c, key)
  {
    ElementConcat(a + b, c, key);
    ElementConcat(a, b, key);
  }

  /** The function name is lost: a frame with a function name does not
      survive encoding and decoding. */
  lemma JsonRoundTripLosesFunctionName(f: Frame)
    requires f.functionName.Some?
    ensures FromJson(JObject(JsonMembers(f))) != Ok(f)
  {
    JsonRoundTripAsWritten(f);
  }

  /** The members an encoder symmetric to sr_js_frame_from_json writes. */
  function JsonMembersIntended(f: Frame): seq<(string, JsonValue)> {
    FileNameMember(f) + FunctionNameMember(f) + FileLineMember(f) + LineColumnMember(f)
  }

  /** to_json with the function name written and the braces always in place. */
  function ToJsonTextIntended(f: Frame): (t: string)
    ensures |t| >= 2 && t[0] == '{' && t[|t| - 1] == '}'
  {
    var body := MemberLines(JsonMembersIntended(f));
    "{" + (if body == [] then [] else body[1..]) + "}"
  }

  /** The intended text is what to_json would write for the intended
      members, and "{}" for EmptyFrame instead of "}". */
  lemma ToJsonTextIntendedShape(f: Frame)
    ensures JsonMembersIntended(f) == [] <==> f == EmptyFrame
    ensures f == EmptyFrame ==> ToJsonTextIntended(f) == "{}"
    ensures f != EmptyFrame ==> ToJsonTextIntended(f) == Braced(MemberLines(JsonMembersIntended(f)))
  {
  }

  /** Every frame survives the intended encoder followed by the decoder. */
  lemma JsonRoundTripIntended(f: Frame)
    ensures FromJson(JObject(JsonMembersIntended(f))) == Ok(f)
  {
    ElementsOfMembersIntended(f);
  }

  /** What each key finds among the members the intended encoder writes. */
  lemma ElementsOfMembersIntended(f: Frame)
    ensures Element(JsonMembersIntended(f), "file_name") == if f.fileName.Some? then Some(JString(f.fileName.value)) else None
    ensures Element(JsonMembersIntended(f), "function_name") == if f.functionName.Some? then Some(JString(f.functionName.value)) else None
    ensures Element(JsonMembersIntended(f), "file_line") == if f.fileLine != 0 then Some(JInteger(f.fileLine)) else None
    ensures Element(JsonMembersIntended(f), "line_column") == if f.lineColumn != 0 then Some(JInteger(f.lineColumn)) else None
  {
    IntendedFileName(f);
    IntendedFunctionName(f);
    IntendedFileLine(f);
    IntendedLineColumn(f);
  }

  lemma IntendedFileName(f: Frame)
    ensures Element(JsonMembersIntended(f), "file_name") == if f.fileName.Some? then Some(JString(f.fileName.value)) else None
  {
    ElementsOfFour(FileNameMember(f), FunctionNameMember(f), FileLineMember(f), LineColumnMember(f), "file_name");
  }

  lemma IntendedFunctionName(f: Frame)
    ensures Element(JsonMembersIntended(f), "function_name") == if f.functionName.Some? then Some(JString(f.functionName.value)) else None
  {
    ElementsOfFour(FileNameMember(f), FunctionNameMember(f), FileLineMember(f), LineColumnMember(f), "function_name");
  }

  lemma IntendedFileLine(f: Frame)
    ensures Element(JsonMembersIntended(f), "file_line") == if f.fileLine != 0 then Some(JInteger(f.fileLine)) else None
  {
    ElementsOfFour(FileNameMember(f), FunctionNameMember(f), FileLineMember(f), LineColumnMember(f), "file_line");
  }

  lemma IntendedLineColumn(f: Frame)
    ensures Element(JsonMembersIntended(f), "line_column") == if f.lineColumn != 0 then Some(JInteger(f.lineColumn)) else None
  {
    ElementsOfFour(FileNameMember(f), FunctionNameMember(f), FileLineMember(f), LineColumnMember(f), "line_column");
  }

  /** Lookups in four member lists one after the other. */
  lemma ElementsOfFour(a: seq<(string, JsonValue)>, n: seq<(string, JsonValue)>, b: seq<(string, JsonValue)>,
                       c: seq<(string, JsonValue)>, key: string)
    ensures Element(a + n + b + c, key) ==
      if Element(a, key).Some? then Element(a, key)
      else if Element(n, key).Some? then Element(n, key)
      else if Element(b, key).Some? then Element(b, key)
      else Element(c, key)
  {
    ElementsOfChunks(a + n, b, c, key);
    ElementConcat(a, n, key);
  }

}
