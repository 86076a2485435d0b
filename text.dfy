/** String operations the builder relies on: JavaScript white space (the
    class `\s` and `String.prototype.trim`), ASCII lower-casing, replacing
    white-space runs, and substring occurrence. */
module Text {

  /** The characters JavaScript counts as white space in `\s` and in `trim`:
      the ASCII controls TAB, LF, VT, FF, CR, the space, and the Unicode
      space separators, line and paragraph separators and the byte-order mark. */
  predicate IsWhitespace(c: char) {
    c == '\t' || c == '\n' || c == '\U{000B}' || c == '\U{000C}' || c == '\r' || c == ' '
    || c == '\U{00A0}' || c == '\U{1680}' || ('\U{2000}' <= c <= '\U{200A}')
    || c == '\U{2028}' || c == '\U{2029}' || c == '\U{202F}' || c == '\U{205F}'
    || c == '\U{3000}' || c == '\U{FEFF}'
  }

  predicate NoWhitespace(s: string) {
    forall k :: 0 <= k < |s| ==> !IsWhitespace(s[k])
  }

  predicate AllWhitespace(s: string) {
    forall k :: 0 <= k < |s| ==> IsWhitespace(s[k])
  }

  /** The length of the white-space run `s` starts with. */
  function LeadingWhitespace(s: string): (n: nat)
    ensures n <= |s|
    ensures AllWhitespace(s[..n])
    ensures n < |s| ==> !IsWhitespace(s[n])
  {
    if s == [] || !IsWhitespace(s[0]) then 0
    else
      var m := 1 + LeadingWhitespace(s[1..]);
      assert forall k :: 1 <= k < m ==> s[..m][k] == s[1..][..m - 1][k - 1];
      m
  }

  /** The index at which the white-space run `s` ends with begins. */
  function TrailingWhitespaceStart(s: string): (n: nat)
    ensures n <= |s|
    ensures AllWhitespace(s[n..])
    ensures 0 < n ==> !IsWhitespace(s[n - 1])
  {
    if s == [] || !IsWhitespace(s[|s| - 1]) then |s|
    else
      var m := TrailingWhitespaceStart(s[..|s| - 1]);
      assert forall k :: m <= k < |s| - 1 ==> s[..|s| - 1][k] == s[k];
      m
  }

  /** `String.prototype.trim`: `s` without its leading and trailing white
      space. The result is a slice of `s`, everything cut away is white space,
      and the result neither starts nor ends with white space. */
  function Trim(s: string): (r: string)
    ensures var i := LeadingWhitespace(s);
      i + |r| <= |s| && r == s[i..i + |r|] && AllWhitespace(s[i + |r|..])
    ensures AllWhitespace(s[..LeadingWhitespace(s)])
    ensures r == [] || (!IsWhitespace(r[0]) && !IsWhitespace(r[|r| - 1]))
    ensures r == [] <==> AllWhitespace(s)
  {
    var i := LeadingWhitespace(s);
    var t := s[i..];
    var j := TrailingWhitespaceStart(t);
    assert s[i..i + j] == t[..j];
    assert s[i + j..] == t[j..];
    assert AllWhitespace(s) ==> i == |s|;
    assert i == |s| ==> AllWhitespace(s) by {
      if i == |s| { assert s[..i] == s; }
    }
    t[..j]
  }

  /** Trimming twice is trimming once. */
  lemma TrimIdempotent(s: string)
    ensures Trim(Trim(s)) == Trim(s)
  {
    var t := Trim(s);
    if t != [] {
      assert LeadingWhitespace(t) == 0;
    }
  }

  /** ASCII lower-casing of one character; every other character is kept. */
  function LowerChar(c: char): char {
    if 'A' <= c <= 'Z' then (c as int + 32) as char else c
  }

  predicate IsUpperAscii(c: char) {
    'A' <= c <= 'Z'
  }

  /** `String.prototype.toLowerCase`, restricted to ASCII letters. */
  function Lower(s: string): (r: string)
    ensures |r| == |s|
    ensures forall k :: 0 <= k < |s| ==> r[k] == LowerChar(s[k])
    ensures forall k :: 0 <= k < |r| ==> !IsUpperAscii(r[k])
    ensures forall k :: 0 <= k < |r| ==> (IsWhitespace(r[k]) <==> IsWhitespace(s[k]))
  {
    if s == [] then [] else [LowerChar(s[0])] + Lower(s[1..])
  }

  /** Lower-casing twice is lower-casing once. */
  lemma LowerIdempotent(s: string)
    ensures Lower(Lower(s)) == Lower(s)
  {
  }

  /** `s.replace(/\s+/g, '-')`: every maximal run of white space becomes one
      hyphen; every other character is kept. */
  function ReplaceWhitespaceRuns(s: string): (r: string)
    ensures |r| <= |s|
    ensures NoWhitespace(r)
    ensures NoWhitespace(s) ==> r == s
    decreases |s|
  {
    if s == [] then []
    else if IsWhitespace(s[0]) then "-" + ReplaceWhitespaceRuns(s[LeadingWhitespace(s)..])
    else [s[0]] + ReplaceWhitespaceRuns(s[1..])
  }

  /** A reference definition of the same replacement, one character at a
      time: `inRun` says whether the previous character was white space. A
      white-space character opens a run (and emits a hyphen) only when the
      previous character was not white space. */
  function ReplaceScan(s: string, inRun: bool): (r: string)
  {
    if s == [] then []
    else if IsWhitespace(s[0]) then (if inRun then "" else "-") + ReplaceScan(s[1..], true)
    else [s[0]] + ReplaceScan(s[1..], false)
  }

  /** Inside a run, the scan skips the rest of the run and carries on as if
      no run were open. */
  lemma {:induction false} ScanSkipsRun(s: string)
    ensures ReplaceScan(s, true) == ReplaceScan(s[LeadingWhitespace(s)..], false)
  {
    if s != [] && IsWhitespace(s[0]) {
      ScanSkipsRun(s[1..]);
      assert s[1..][LeadingWhitespace(s[1..])..] == s[LeadingWhitespace(s)..];
    }
  }

  /** The run-skipping definition and the character scan agree. */
  lemma {:induction false} ReplaceRunsMatchesScan(s: string)
    ensures ReplaceWhitespaceRuns(s) == ReplaceScan(s, false)
    decreases |s|
  {
    if s != [] {
      if IsWhitespace(s[0]) {
        ScanSkipsRun(s[1..]);
        assert s[1..][LeadingWhitespace(s[1..])..] == s[LeadingWhitespace(s)..];
        ReplaceRunsMatchesScan(s[LeadingWhitespace(s)..]);
      } else {
        ReplaceRunsMatchesScan(s[1..]);
      }
    }
  }

  /** The length of the leading white-space run does not change under lower-casing. */
  lemma {:induction false} LowerKeepsLeadingWhitespace(s: string)
    ensures LeadingWhitespace(Lower(s)) == LeadingWhitespace(s)
    ensures Lower(s)[LeadingWhitespace(s)..] == Lower(s[LeadingWhitespace(s)..])
  {
    if s != [] && IsWhitespace(s[0]) {
      LowerKeepsLeadingWhitespace(s[1..]);
      assert Lower(s)[1..] == Lower(s[1..]);
      assert s[1..][LeadingWhitespace(s[1..])..] == s[LeadingWhitespace(s)..];
    }
  }

  /** Lower-casing works piece by piece. */
  lemma LowerConcat(a: string, b: string)
    ensures Lower(a + b) == Lower(a) + Lower(b)
  {
    assert forall k :: 0 <= k < |a + b| ==> Lower(a + b)[k] == (Lower(a) + Lower(b))[k];
  }

  /** Replacing runs and lower-casing commute, so the order the download
      name applies them in does not matter. */
  lemma {:induction false} LowerCommutesWithReplace(s: string)
    ensures Lower(ReplaceWhitespaceRuns(s)) == ReplaceWhitespaceRuns(Lower(s))
    decreases |s|
  {
    if s != [] {
      var l := Lower(s);
      assert l[0] == LowerChar(s[0]);
      if IsWhitespace(s[0]) {
        LowerKeepsLeadingWhitespace(s);
        LowerCommutesWithReplace(s[LeadingWhitespace(s)..]);
        assert Lower("-" + ReplaceWhitespaceRuns(s[LeadingWhitespace(s)..]))
            == "-" + Lower(ReplaceWhitespaceRuns(s[LeadingWhitespace(s)..]));
      } else {
        assert l[1..] == Lower(s[1..]);
        LowerCommutesWithReplace(s[1..]);
        assert Lower([s[0]] + ReplaceWhitespaceRuns(s[1..]))
            == [LowerChar(s[0])] + Lower(ReplaceWhitespaceRuns(s[1..]));
      }
    }
  }

  /** `x` occurs in `s` as a contiguous piece. */
  ghost predicate Occurs(x: string, s: string) {
    exists i :: OccursAt(x, s, i)
  }

  /** `x` occurs in `s` starting at index `i`. */
  predicate OccursAt(x: string, s: string, i: int) {
    0 <= i <= |s| - |x| && s[i..i + |x|] == x
  }

  /** A piece placed between two others occurs in the whole. */
  lemma OccursBetween(a: string, x: string, b: string)
    ensures Occurs(x, a + x + b)
  {
    var s := a + x + b;
    assert OccursAt(x, s, |a|);
  }

  /** What occurs in a part occurs in any text that contains the part. */
  lemma OccursWithin(x: string, a: string, m: string, b: string)
    requires Occurs(x, m)
    ensures Occurs(x, a + m + b)
  {
    var i :| OccursAt(x, m, i);
    var s := a + m + b;
    assert s[|a| + i..|a| + i + |x|] == m[i..i + |x|];
    assert OccursAt(x, s, |a| + i);
  }

  /** What occurs in a suffix occurs in the whole. */
  lemma OccursInSuffix(x: string, a: string, m: string)
    requires Occurs(x, m)
    ensures Occurs(x, a + m)
  {
    OccursWithin(x, a, m, "");
    assert a + m + "" == a + m;
  }

  /** A text occurs at the start of itself followed by anything. */
  lemma OccursStart(x: string, b: string)
    ensures Occurs(x, x + b)
  {
    assert OccursAt(x, x + b, 0);
  }

  /** What occurs in a prefix occurs in the whole. */
  lemma OccursInPrefix(x: string, m: string, b: string)
    requires Occurs(x, m)
    ensures Occurs(x, m + b)
  {
    var i :| OccursAt(x, m, i);
    assert (m + b)[i..i + |x|] == m[i..i + |x|];
    assert OccursAt(x, m + b, i);
  }

  /** Occurrence is transitive. */
  lemma OccursTransitive(x: string, y: string, s: string)
    requires Occurs(x, y) && Occurs(y, s)
    ensures Occurs(x, s)
  {
    var i :| OccursAt(x, y, i);
    var j :| OccursAt(y, s, j);
    forall k | 0 <= k < |x| ensures s[j + i..j + i + |x|][k] == x[k] {
      assert x[k] == y[i..i + |x|][k] == y[i + k];
      assert y[i + k] == s[j..j + |y|][i + k] == s[j + i + k];
    }
    assert OccursAt(x, s, j + i);
  }

  /** The concatenation of a list of strings: JavaScript's `join('')`. */
  function Concat(ss: seq<string>): (r: string)
    ensures ss == [] ==> r == ""
  {
    if ss == [] then "" else ss[0] + Concat(ss[1..])
  }

  /** Joining distributes over concatenation of the lists. */
  lemma {:induction false} ConcatAppend(a: seq<string>, b: seq<string>)
    ensures Concat(a + b) == Concat(a) + Concat(b)
  {
    if a == [] {
      assert a + b == b;
    } else {
      assert (a + b)[1..] == a[1..] + b;
      ConcatAppend(a[1..], b);
    }
  }

  /** The joined text is the text before element `i`, the element, and the text after it. */
  lemma {:induction false} ConcatSplit(ss: seq<string>, i: nat)
    requires i < |ss|
    ensures Concat(ss) == Concat(ss[..i]) + ss[i] + Concat(ss[i + 1..])
  {
    if i == 0 {
      assert ss[..0] == [];
      assert ss[1..] == ss[i + 1..];
    } else {
      var tail := ss[1..];
      ConcatSplit(tail, i - 1);
      assert tail[..i - 1] == ss[..i][1..];
      assert tail[i..] == ss[i + 1..];
      assert tail[i - 1] == ss[i];
    }
  }

  /** Every element of the list occurs in the joined text. */
  lemma ConcatAt(ss: seq<string>, i: nat)
    requires i < |ss|
    ensures Occurs(ss[i], Concat(ss))
  {
    ConcatSplit(ss, i);
    OccursBetween(Concat(ss[..i]), ss[i], Concat(ss[i + 1..]));
  }
}
