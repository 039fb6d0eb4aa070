/** The scanning helpers of satyr's utils (sr_strstr_location, sr_skip_char_cspan,
    sr_parse_uint32, sr_parse_char_cspan, sr_skip_string, sr_skip_char,
    sr_skip_to_next_line_location) and the decimal rendering of "%" PRIu32.
    A C string is a `string` together with an index into it. The string
    holds no '\0': the terminating NUL is represented only by the end of
    the sequence. */
module TextScan {
  import opened Wrappers

  const MaxUInt32: nat := 0xFFFF_FFFF

  /** uint32_t */
  type UInt32 = n: int | 0 <= n <= 0xFFFF_FFFF

  predicate IsDigit(c: char) {
    '0' <= c <= '9'
  }

  /** True when `w` occurs in `s` starting at index `i`. */
  predicate MatchAt(s: string, i: nat, w: string) {
    i + |w| <= |s| && forall k :: 0 <= k < |w| ==> s[i + k] == w[k]
  }

  /** sr_strstr_location: the first occurrence of `w` at or after `from`. */
  function FindFrom(s: string, from: nat, w: string): (r: Option<nat>)
    requires from <= |s|
    ensures r.Some? ==> from <= r.value && MatchAt(s, r.value, w)
    decreases |s| - from
  {
    if MatchAt(s, from, w) then Some(from)
    else if from == |s| then None
    else FindFrom(s, from + 1, w)
  }

  /** sr_strstr_location finds the first occurrence, and fails only when
      there is none. */
  lemma {:induction false} FindFromFirst(s: string, from: nat, w: string, j: nat)
    requires from <= j <= |s| && MatchAt(s, j, w)
    ensures FindFrom(s, from, w).Some? && FindFrom(s, from, w).value <= j
    decreases |s| - from
  {
    if from < j && !MatchAt(s, from, w) {
      FindFromFirst(s, from + 1, w, j);
    }
  }

  /** sr_skip_char_cspan with one rejected character: the index of the first
      `c` at or after `from`, or |s| (the NUL) when there is none. */
  function SpanEnd(s: string, from: nat, c: char): (r: nat)
    requires from <= |s|
    ensures from <= r <= |s|
    ensures r < |s| ==> s[r] == c
    decreases |s| - from
  {
    if from == |s| || s[from] == c then from else SpanEnd(s, from + 1, c)
  }

  /** No `c` lies between `from` and the end of the span: it is the first. */
  lemma {:induction false} SpanEndFirst(s: string, from: nat, c: char, k: nat)
    requires from <= |s| && from <= k < SpanEnd(s, from, c)
    ensures s[k] != c
    decreases |s| - from
  {
    if k > from {
      SpanEndFirst(s, from + 1, c, k);
    }
  }

  /** strchr from index `from`: the first `c` at or after it, up to the NUL. */
  function IndexOf(s: string, from: nat, c: char): (r: Option<nat>)
    requires from <= |s|
    ensures r.Some? ==> from <= r.value < |s| && s[r.value] == c
    ensures r.Some? ==> r.value == SpanEnd(s, from, c)
    ensures r.None? <==> SpanEnd(s, from, c) == |s|
  {
    var e := SpanEnd(s, from, c);
    if e < |s| then Some(e) else None
  }

  /** The whole span is free of `c`. */
  lemma SpanEndClear(s: string, from: nat, c: char)
    requires from <= |s|
    ensures forall k :: from <= k < SpanEnd(s, from, c) ==> s[k] != c
  {
    forall k | from <= k < SpanEnd(s, from, c) {
      SpanEndFirst(s, from, c, k);
    }
  }

  /** The span ends at the first `c`, or at the end when there is none. */
  lemma {:induction false} SpanEndAt(s: string, from: nat, c: char, k: nat)
    requires from <= k <= |s| && (k < |s| ==> s[k] == c)
    requires forall j :: from <= j < k ==> s[j] != c
    ensures SpanEnd(s, from, c) == k
    decreases k - from
  {
    if from < k {
      SpanEndAt(s, from + 1, c, k);
    }
  }

  /** strchr finds the first `c`, and fails only when there is none. */
  lemma IndexOfFirst(s: string, from: nat, c: char, k: nat)
    requires from <= k < |s| && s[k] == c
    ensures IndexOf(s, from, c).Some? && IndexOf(s, from, c).value <= k
  {
    if SpanEnd(s, from, c) > k {
      SpanEndFirst(s, from, c, k);
    }
  }

  /** The end of the run of decimal digits that starts at `from`. */
  function DigitsEnd(s: string, from: nat): (r: nat)
    requires from <= |s|
    ensures from <= r <= |s|
    ensures r < |s| ==> !IsDigit(s[r])
    decreases |s| - from
  {
    if from == |s| || !IsDigit(s[from]) then from else DigitsEnd(s, from + 1)
  }

  /** Every character of the run is a digit. */
  lemma {:induction false} DigitsEndAll(s: string, from: nat, k: nat)
    requires from <= |s| && from <= k < DigitsEnd(s, from)
    ensures IsDigit(s[k])
    decreases |s| - from
  {
    if k > from {
      DigitsEndAll(s, from + 1, k);
    }
  }

  /** The run ends at the first non-digit, or at the end. */
  lemma {:induction false} DigitsEndAt(s: string, from: nat, k: nat)
    requires from <= k <= |s| && (k < |s| ==> !IsDigit(s[k]))
    requires forall j :: from <= j < k ==> IsDigit(s[j])
    ensures DigitsEnd(s, from) == k
    decreases k - from
  {
    if from < k {
      DigitsEndAt(s, from + 1, k);
    }
  }

  function DigitValue(c: char): nat {
    if IsDigit(c) then c as int - '0' as int else 0
  }

  function DigitChar(d: nat): (c: char)
    requires d < 10
    ensures IsDigit(c) && DigitValue(c) == d
  {
    ('0' as int + d) as char
  }

  /** The number the digits s[from..to] spell, most significant first. */
  function ValueOf(s: string, from: nat, to: nat): nat
    requires from <= to <= |s|
  {
    if to == from then 0 else 10 * ValueOf(s, from, to - 1) + DigitValue(s[to - 1])
  }

  /** The value depends only on the characters in the range. */
  lemma {:induction false} ValueOfSame(s: string, a: nat, t: string, b: nat, n: nat)
    requires a + n <= |s| && b + n <= |t|
    requires s[a..a + n] == t[b..b + n]
    ensures ValueOf(s, a, a + n) == ValueOf(t, b, b + n)
  {
    if n > 0 {
      assert s[a + n - 1] == s[a..a + n][n - 1] == t[b..b + n][n - 1] == t[b + n - 1];
      assert s[a..a + n - 1] == s[a..a + n][..n - 1];
      assert t[b..b + n - 1] == t[b..b + n][..n - 1];
      ValueOfSame(s, a, t, b, n - 1);
    }
  }

  /** sr_parse_uint32: a non-empty run of digits whose value fits in 32 bits;
      the second component is the index of the first non-digit. */
  function ParseUInt32(s: string, from: nat): (r: Option<(UInt32, nat)>)
    requires from <= |s|
    ensures r.None? <==>
      from == |s| || !IsDigit(s[from]) || ValueOf(s, from, DigitsEnd(s, from)) > MaxUInt32
    ensures r.Some? ==>
      && from < r.value.1 <= |s|
      && (r.value.1 == |s| || !IsDigit(s[r.value.1]))
      && r.value.0 == ValueOf(s, from, r.value.1)
  {
    var e := DigitsEnd(s, from);
    var v := ValueOf(s, from, e);
    if e == from || v > MaxUInt32 then None else Some((v, e))
  }

  /** "%" PRIu32: decimal digits, no leading zero. */
  function Dec(n: nat): (r: string)
    ensures 0 < |r|
    ensures forall k :: 0 <= k < |r| ==> IsDigit(r[k])
    ensures ValueOf(r, 0, |r|) == n
  {
    if n < 10 then [DigitChar(n)]
    else
      var p := Dec(n / 10);
      var r := p + [DigitChar(n % 10)];
      assert r[0..|p|] == p[0..|p|];
      ValueOfSame(r, 0, p, 0, |p|);
      r
  }

  /** sr_parse_uint32 reads back what "%" PRIu32 prints, when a non-digit
      (or the end) follows. */
  lemma ParseUInt32Dec(s: string, k: nat, n: UInt32)
    requires k + |Dec(n)| <= |s|
    requires forall j :: 0 <= j < |Dec(n)| ==> s[k + j] == Dec(n)[j]
    requires k + |Dec(n)| == |s| || !IsDigit(s[k + |Dec(n)|])
    ensures ParseUInt32(s, k) == Some((n, k + |Dec(n)|))
  {
    var d := Dec(n);
    forall j | k <= j < k + |d|
      ensures IsDigit(s[j])
    {
      assert s[k + (j - k)] == d[j - k];
    }
    DigitsEndAt(s, k, k + |d|);
    assert s[k..k + |d|] == d[0..|d|];
    ValueOfSame(s, k, d, 0, |d|);
  }

  /** sr_strndup: a fresh copy of the characters s[from..to]. */
  function Strndup(s: string, from: nat, to: nat): (r: string)
    requires from <= to <= |s|
    ensures |r| == to - from
    ensures forall k :: 0 <= k < |r| ==> r[k] == s[from + k]
  {
    if to == from then [] else Strndup(s, from, to - 1) + [s[to - 1]]
  }

  /** The copy is the slice. */
  lemma StrndupSlice(s: string, from: nat, to: nat)
    requires from <= to <= |s|
    ensures Strndup(s, from, to) == s[from..to]
  {
    assert forall k :: 0 <= k < to - from ==> Strndup(s, from, to)[k] == s[from..to][k];
  }

  /** sr_parse_char_cspan: the non-empty span before the first `c` (or the NUL). */
  function ParseCharCspan(s: string, from: nat, c: char): (r: Option<(string, nat)>)
    requires from <= |s|
    ensures r.None? <==> from == |s| || s[from] == c
    ensures r.Some? ==>
      && from < r.value.1 <= |s|
      && r.value.0 == s[from..r.value.1]
      && c !in r.value.0
      && (r.value.1 == |s| || s[r.value.1] == c)
  {
    var e := SpanEnd(s, from, c);
    SpanEndClear(s, from, c);
    if e == from then None else Some((s[from..e], e))
  }

  /** sr_skip_string: step over `w` if the input starts with it. */
  function SkipString(s: string, from: nat, w: string): (r: Option<nat>)
    requires from <= |s|
    ensures r.Some? <==> MatchAt(s, from, w)
    ensures r.Some? ==> r.value == from + |w| <= |s|
  {
    if MatchAt(s, from, w) then Some(from + |w|) else None
  }

  /** sr_skip_char: step over `c` if it is the next character. */
  function SkipChar(s: string, from: nat, c: char): (r: Option<nat>)
    requires from <= |s|
    ensures r.Some? <==> from < |s| && s[from] == c
    ensures r.Some? ==> r.value == from + 1
  {
    if from < |s| && s[from] == c then Some(from + 1) else None
  }

  /** sr_skip_to_next_line_location: step past the next newline; fails when the
      NUL comes first. */
  function SkipToNextLine(s: string, from: nat): (r: Option<nat>)
    requires from <= |s|
    ensures r.None? <==> forall k :: from <= k < |s| ==> s[k] != '\n'
    ensures r.Some? ==>
      && from < r.value <= |s| && s[r.value - 1] == '\n'
      && forall k :: from <= k < r.value - 1 ==> s[k] != '\n'
  {
    var e := SpanEnd(s, from, '\n');
    SpanEndClear(s, from, '\n');
    if e < |s| then Some(e + 1) else None
  }

  /** `needle` occurs somewhere in `hay`. */
  predicate Contains(hay: string, needle: string) {
    exists i: nat | i <= |hay| :: MatchAt(hay, i, needle)
  }
}
