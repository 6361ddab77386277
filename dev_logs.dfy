/**
 * The development console message: `clean`, a three-step whitespace
 * normaliser defined by two regular expressions and `trim`, and the
 * message and style list built around it.
 */
module DevLogs {

  /** A character of the class `[ \t]`. */
  predicate IsBlank(c: char) {
    c == ' ' || c == '\t'
  }

  /** An ECMAScript LineTerminator: where `^` matches under the `m` flag. */
  predicate IsLineTerminator(c: char) {
    c == '\n' || c == '\r' || c == '\U{2028}' || c == '\U{2029}'
  }

  /** An ECMAScript WhiteSpace or LineTerminator: what `trim` removes. */
  predicate IsJsSpace(c: char) {
    IsLineTerminator(c) || c == '\t' || c == '\U{000B}' || c == '\U{000C}' || c == ' ' ||
    c == '\U{00A0}' || c == '\U{FEFF}' || c == '\U{1680}' || ('\U{2000}' <= c <= '\U{200A}') ||
    c == '\U{202F}' || c == '\U{205F}' || c == '\U{3000}'
  }

  /** No two adjacent characters are both spaces or tabs. */
  predicate NoBlankPair(s: string) {
    forall i :: 0 <= i && i + 1 < |s| ==> !(IsBlank(s[i]) && IsBlank(s[i + 1]))
  }

  /** No line terminator at all. */
  predicate NoLineTerminator(s: string) {
    forall i :: 0 <= i < |s| ==> !IsLineTerminator(s[i])
  }

  /**
   * No line of `s` begins with a space or tab: neither the character after a
   * line terminator nor, when `s` starts a line, its first character.
   */
  predicate Unindented(s: string, atLineStart: bool) {
    && (atLineStart && |s| > 0 ==> !IsBlank(s[0]))
    && (forall i :: 0 < i < |s| && IsLineTerminator(s[i - 1]) ==> !IsBlank(s[i]))
  }

  /** The characters other than spaces and tabs, in order. */
  function NonBlanks(s: string): string {
    if |s| == 0 then "" else (if IsBlank(s[0]) then "" else [s[0]]) + NonBlanks(s[1..])
  }

  lemma {:induction false} NoBlankPairAppend(x: string, y: string)
    requires NoBlankPair(x) && NoBlankPair(y)
    requires |x| == 0 || |y| == 0 || !IsBlank(x[|x| - 1]) || !IsBlank(y[0])
    ensures NoBlankPair(x + y)
  {
    var s := x + y;
    forall i | 0 <= i && i + 1 < |s|
      ensures !(IsBlank(s[i]) && IsBlank(s[i + 1]))
    {
      if i + 1 < |x| {
        assert s[i] == x[i] && s[i + 1] == x[i + 1];
      } else if i >= |x| {
        assert s[i] == y[i - |x|] && s[i + 1] == y[i + 1 - |x|];
      } else {
        assert s[i] == x[|x| - 1] && s[i + 1] == y[0];
      }
    }
  }

  lemma {:induction false} NoBlankPairSlice(s: string, a: nat, b: nat)
    requires NoBlankPair(s) && a <= b <= |s|
    ensures NoBlankPair(s[a..b])
  {
    var t := s[a..b];
    forall i | 0 <= i && i + 1 < |t|
      ensures !(IsBlank(t[i]) && IsBlank(t[i + 1]))
    {
      assert t[i] == s[a + i] && t[i + 1] == s[a + i + 1];
    }
  }

  // ---------------------------------------------------------------------
  // Step 1: `.replace(/[ \t]{2,}/g, ' ')`

  /**
   * Two spaces or tabs in a row merge into one space until no two are
   * adjacent: every run of two or more becomes a single space, as the
   * greedy global match replaces it, and a lone space or tab is kept
   * (`CollapseBlanksRun`, `CollapseBlanksAppend`). The result starts with a
   * space or tab exactly when `s` does, and with the same character when
   * that is not one.
   */
  function CollapseBlanks(s: string): (r: string)
    ensures |r| == 0 <==> |s| == 0
    ensures |s| > 0 ==> (IsBlank(r[0]) <==> IsBlank(s[0]))
    ensures |s| > 0 && !IsBlank(s[0]) ==> r[0] == s[0]
    decreases |s|
  {
    if |s| == 0 then ""
    else if |s| >= 2 && IsBlank(s[0]) && IsBlank(s[1]) then CollapseBlanks(" " + s[2..])
    else [s[0]] + CollapseBlanks(s[1..])
  }

  /** The unfolding of step 1 where the first two characters merge. */
  lemma {:induction false} CollapseBlanksMerges(s: string)
    requires |s| >= 2 && IsBlank(s[0]) && IsBlank(s[1])
    ensures CollapseBlanks(s) == CollapseBlanks(" " + s[2..])
  {
  }

  /** The unfolding of step 1 where the first character is kept. */
  lemma {:induction false} CollapseBlanksKeepsFirst(s: string)
    requires |s| > 0 && !(|s| >= 2 && IsBlank(s[0]) && IsBlank(s[1]))
    ensures CollapseBlanks(s) == [s[0]] + CollapseBlanks(s[1..])
  {
  }

  /** After step 1 no two adjacent characters are spaces or tabs. */
  lemma {:induction false} CollapseBlanksNoPair(s: string)
    ensures NoBlankPair(CollapseBlanks(s))
    decreases |s|
  {
    if |s| >= 2 && IsBlank(s[0]) && IsBlank(s[1]) {
      CollapseBlanksNoPair(" " + s[2..]);
    } else if |s| > 0 {
      CollapseBlanksNoPair(s[1..]);
      NoBlankPairAppend([s[0]], CollapseBlanks(s[1..]));
    }
  }

  /** Step 1 only rewrites spaces and tabs: every other character, newlines included, is kept in order. */
  lemma {:induction false} CollapseBlanksKeepsOthers(s: string)
    ensures NonBlanks(CollapseBlanks(s)) == NonBlanks(s)
    decreases |s|
  {
    if |s| >= 2 && IsBlank(s[0]) && IsBlank(s[1]) {
      var t := " " + s[2..];
      CollapseBlanksKeepsOthers(t);
      NonBlanksCons(" ", s[2..]);
      NonBlanksCons([s[0]], s[1..]);
      NonBlanksCons([s[1]], s[2..]);
      assert s == [s[0]] + s[1..] && s[1..] == [s[1]] + s[2..];
    } else if |s| > 0 {
      CollapseBlanksKeepsOthers(s[1..]);
      NonBlanksCons([s[0]], CollapseBlanks(s[1..]));
      NonBlanksCons([s[0]], s[1..]);
      assert s == [s[0]] + s[1..];
    }
  }

  lemma {:induction false} NonBlanksCons(c: string, s: string)
    requires |c| == 1
    ensures NonBlanks(c + s) == (if IsBlank(c[0]) then "" else c) + NonBlanks(s)
  {
    assert (c + s)[1..] == s;
  }

  /** A string with no two adjacent spaces or tabs is left as it is. */
  lemma {:induction false} CollapseBlanksIdentity(s: string)
    requires NoBlankPair(s)
    ensures CollapseBlanks(s) == s
    decreases |s|
  {
    if |s| > 0 {
      assert !(|s| >= 2 && IsBlank(s[0]) && IsBlank(s[1]));
      NoBlankPairSlice(s, 1, |s|);
      CollapseBlanksIdentity(s[1..]);
    }
  }

  /** A run of two or more spaces and tabs becomes one space. */
  lemma {:induction false} CollapseBlanksRun(s: string)
    requires |s| >= 2 && forall i :: 0 <= i < |s| ==> IsBlank(s[i])
    ensures CollapseBlanks(s) == " "
    decreases |s|
  {
    var t := " " + s[2..];
    CollapseBlanksMerges(s);
    if |s| == 2 {
      assert t == " ";
      CollapseBlanksKeepsFirst(t);
    } else {
      assert forall i :: 0 <= i < |t| ==> IsBlank(t[i]) by {
        assert forall i :: 1 <= i < |t| ==> t[i] == s[i + 1];
      }
      CollapseBlanksRun(t);
    }
  }

  /**
   * Step 1 works piece by piece when the cut is not inside a run of spaces
   * and tabs. With `CollapseBlanksRun` and `CollapseBlanksIdentity` this
   * determines the step on every string.
   */
  lemma {:induction false} CollapseBlanksAppend(x: string, y: string)
    requires |x| == 0 || |y| == 0 || !IsBlank(x[|x| - 1]) || !IsBlank(y[0])
    ensures CollapseBlanks(x + y) == CollapseBlanks(x) + CollapseBlanks(y)
    decreases |x|, 1
  {
    if |x| == 0 {
      assert x + y == y;
    } else if |x| >= 2 && IsBlank(x[0]) && IsBlank(x[1]) {
      CollapseBlanksAppendMerge(x, y);
    } else {
      CollapseBlanksAppendKeep(x, y);
    }
  }

  lemma {:induction false} CollapseBlanksAppendMerge(x: string, y: string)
    requires |x| >= 2 && IsBlank(x[0]) && IsBlank(x[1])
    requires |y| == 0 || !IsBlank(x[|x| - 1]) || !IsBlank(y[0])
    ensures CollapseBlanks(x + y) == CollapseBlanks(x) + CollapseBlanks(y)
    decreases |x|, 0
  {
    var t := " " + x[2..];
    assert (x + y)[0] == x[0] && (x + y)[1] == x[1] && " " + (x + y)[2..] == t + y;
    CollapseBlanksMerges(x + y);
    CollapseBlanksMerges(x);
    assert |y| == 0 || !IsBlank(t[|t| - 1]) || !IsBlank(y[0]) by {
      if |x| > 2 {
        assert t[|t| - 1] == x[|x| - 1];
      }
    }
    CollapseBlanksAppend(t, y);
  }

  lemma {:induction false} CollapseBlanksAppendKeep(x: string, y: string)
    requires |x| > 0 && !(|x| >= 2 && IsBlank(x[0]) && IsBlank(x[1]))
    requires |y| == 0 || !IsBlank(x[|x| - 1]) || !IsBlank(y[0])
    ensures CollapseBlanks(x + y) == CollapseBlanks(x) + CollapseBlanks(y)
    decreases |x|, 0
  {
    var rest := x[1..];
    ConsAppend(x, y);
    assert !(|x + y| >= 2 && IsBlank((x + y)[0]) && IsBlank((x + y)[1]));
    CollapseBlanksKeepsFirst(x + y);
    CollapseBlanksKeepsFirst(x);
    assert |rest| == 0 || |y| == 0 || !IsBlank(rest[|rest| - 1]) || !IsBlank(y[0]) by {
      if |rest| > 0 {
        assert rest[|rest| - 1] == x[|x| - 1];
      }
    }
    CollapseBlanksAppend(rest, y);
    AppendAssoc([x[0]], CollapseBlanks(rest), CollapseBlanks(y));
  }

  lemma {:induction false} AppendAssoc(a: string, b: string, c: string)
    ensures a + (b + c) == (a + b) + c
  {
  }

  /** The first characters of `x + y`, and what follows the first. */
  lemma {:induction false} ConsAppend(x: string, y: string)
    requires |x| > 0
    ensures (x + y)[0] == x[0] && (x + y)[1..] == x[1..] + y
    ensures |x| >= 2 ==> (x + y)[1] == x[1]
    ensures |x| == 1 && |y| > 0 ==> (x + y)[1] == y[0]
  {
  }

  // ---------------------------------------------------------------------
  // Step 2: `.replace(/^[ \t]*/gm, '')`

  /**
   * Removes the spaces and tabs each line starts with. `atLineStart` says
   * whether `^` matches before the first character: at the start of the
   * input and after every line terminator it does.
   */
  function StripIndent(s: string, atLineStart: bool): (r: string)
    ensures |r| <= |s|
    ensures atLineStart && |r| > 0 ==> !IsBlank(r[0])
    ensures !atLineStart && |s| > 0 ==> |r| > 0 && r[0] == s[0]
    decreases |s|
  {
    if |s| == 0 then ""
    else if atLineStart && IsBlank(s[0]) then StripIndent(s[1..], true)
    else [s[0]] + StripIndent(s[1..], IsLineTerminator(s[0]))
  }

  /** Whether `^` matches after `s` has been scanned. */
  function IndentStateAfter(s: string, atLineStart: bool): bool
    decreases |s|
  {
    if |s| == 0 then atLineStart
    else if atLineStart && IsBlank(s[0]) then IndentStateAfter(s[1..], true)
    else IndentStateAfter(s[1..], IsLineTerminator(s[0]))
  }

  /** After step 2 no line begins with a space or tab. */
  lemma {:induction false} StripIndentUnindented(s: string, atLineStart: bool)
    ensures Unindented(StripIndent(s, atLineStart), atLineStart)
    decreases |s|
  {
    if |s| > 0 {
      if atLineStart && IsBlank(s[0]) {
        StripIndentUnindented(s[1..], true);
      } else {
        var after := IsLineTerminator(s[0]);
        var rest := StripIndent(s[1..], after);
        StripIndentUnindented(s[1..], after);
        var r := [s[0]] + rest;
        forall i | 0 < i < |r| && IsLineTerminator(r[i - 1])
          ensures !IsBlank(r[i])
        {
          assert r[i] == rest[i - 1];
        }
      }
    }
  }

  /** Step 2 only removes spaces and tabs. */
  lemma {:induction false} StripIndentKeepsOthers(s: string, atLineStart: bool)
    ensures NonBlanks(StripIndent(s, atLineStart)) == NonBlanks(s)
    decreases |s|
  {
    if |s| > 0 {
      var after := if atLineStart && IsBlank(s[0]) then true else IsLineTerminator(s[0]);
      StripIndentKeepsOthers(s[1..], after);
      if !(atLineStart && IsBlank(s[0])) {
        NonBlanksCons([s[0]], StripIndent(s[1..], after));
      }
    }
  }

  /** Step 2 does not bring two spaces or tabs together. */
  lemma {:induction false} StripIndentKeepsPairFree(s: string, atLineStart: bool)
    requires NoBlankPair(s)
    ensures NoBlankPair(StripIndent(s, atLineStart))
    decreases |s|
  {
    if |s| > 0 {
      NoBlankPairSlice(s, 1, |s|);
      if atLineStart && IsBlank(s[0]) {
        StripIndentKeepsPairFree(s[1..], true);
      } else {
        var after := IsLineTerminator(s[0]);
        StripIndentKeepsPairFree(s[1..], after);
        NoBlankPairAppend([s[0]], StripIndent(s[1..], after));
      }
    }
  }

  /** Text in which no line begins with a space or tab is left as it is. */
  lemma {:induction false} StripIndentIdentity(s: string, atLineStart: bool)
    requires Unindented(s, atLineStart)
    ensures StripIndent(s, atLineStart) == s
    decreases |s|
  {
    if |s| > 0 {
      var rest := s[1..];
      var after := IsLineTerminator(s[0]);
      assert Unindented(rest, after) by {
        forall i | 0 < i < |rest| && IsLineTerminator(rest[i - 1])
          ensures !IsBlank(rest[i])
        {
          assert rest[i] == s[i + 1] && rest[i - 1] == s[i];
        }
        if after && |rest| > 0 {
          assert rest[0] == s[1];
        }
      }
      StripIndentIdentity(rest, after);
    }
  }

  /** Step 2 works piece by piece, each piece scanned in the state the previous one left. */
  lemma {:induction false} StripIndentAppend(x: string, y: string, atLineStart: bool)
    ensures StripIndent(x + y, atLineStart) ==
      StripIndent(x, atLineStart) + StripIndent(y, IndentStateAfter(x, atLineStart))
    ensures IndentStateAfter(x + y, atLineStart) == IndentStateAfter(y, IndentStateAfter(x, atLineStart))
    decreases |x|
  {
    if |x| == 0 {
      assert x + y == y;
    } else {
      assert (x + y)[1..] == x[1..] + y;
      var after := if atLineStart && IsBlank(x[0]) then true else IsLineTerminator(x[0]);
      StripIndentAppend(x[1..], y, after);
    }
  }

  /** Once past a line's start, text without line terminators is kept and does not reach a new line. */
  lemma {:induction false} StripIndentMidLine(s: string)
    requires NoLineTerminator(s)
    ensures StripIndent(s, false) == s && !IndentStateAfter(s, false)
  {
    StripIndentIdentity(s, false);
    if |s| > 0 {
      assert NoLineTerminator(s[1..]) by {
        assert forall i :: 0 <= i < |s[1..]| ==> s[1..][i] == s[i + 1];
      }
      StripIndentMidLine(s[1..]);
    }
  }

  // ---------------------------------------------------------------------
  // Step 3: `.trim()`

  /** `s` with its leading whitespace removed: the longest suffix that does not start with whitespace. */
  function TrimStart(s: string): (r: string)
    ensures |r| <= |s| && r == s[|s| - |r|..]
    ensures forall i :: 0 <= i < |s| - |r| ==> IsJsSpace(s[i])
    ensures |r| > 0 ==> !IsJsSpace(r[0])
    decreases |s|
  {
    if |s| > 0 && IsJsSpace(s[0]) then TrimStart(s[1..]) else s
  }

  /** `s` with its trailing whitespace removed: the longest prefix that does not end with whitespace. */
  function TrimEnd(s: string): (r: string)
    ensures |r| <= |s| && r == s[..|r|]
    ensures forall i :: |r| <= i < |s| ==> IsJsSpace(s[i])
    ensures |r| > 0 ==> !IsJsSpace(r[|r| - 1])
    decreases |s|
  {
    if |s| > 0 && IsJsSpace(s[|s| - 1]) then TrimEnd(s[..|s| - 1]) else s
  }

  function Trim(s: string): string {
    TrimEnd(TrimStart(s))
  }

  /**
   * `trim` keeps the part of `s` between its leading and its trailing
   * whitespace: the result is `s[a..b]`, everything cut off is whitespace,
   * and the result neither starts nor ends with whitespace.
   */
  lemma {:induction false} TrimSpec(s: string) returns (a: nat, b: nat)
    ensures a <= b <= |s| && Trim(s) == s[a..b]
    ensures forall i :: 0 <= i < a ==> IsJsSpace(s[i])
    ensures forall i :: b <= i < |s| ==> IsJsSpace(s[i])
    ensures |Trim(s)| > 0 ==> !IsJsSpace(Trim(s)[0]) && !IsJsSpace(Trim(s)[|Trim(s)| - 1])
  {
    var t := TrimStart(s);
    var e := TrimEnd(t);
    a := |s| - |t|;
    b := a + |e|;
    SuffixThenPrefix(s, a, t, e);
    if |e| > 0 {
      assert e[0] == t[0];
    }
  }

  /** A prefix `e` of the suffix `t` of `s` that starts at `a` is a slice of `s`, followed there by what `t` has after `e`. */
  lemma {:induction false} SuffixThenPrefix(s: string, a: nat, t: string, e: string)
    requires a <= |s| && t == s[a..] && |e| <= |t| && e == t[..|e|]
    requires forall i :: |e| <= i < |t| ==> IsJsSpace(t[i])
    ensures e == s[a..a + |e|]
    ensures forall i :: a + |e| <= i < |s| ==> IsJsSpace(s[i])
  {
    forall i | a + |e| <= i < |s|
      ensures IsJsSpace(s[i])
    {
      assert s[i] == t[i - a];
    }
  }

  /** Text that neither starts nor ends with whitespace is left as it is. */
  lemma {:induction false} TrimIdentity(s: string)
    requires |s| == 0 || (!IsJsSpace(s[0]) && !IsJsSpace(s[|s| - 1]))
    ensures Trim(s) == s
  {
  }

  /** Whitespace around `s`, which neither starts nor ends with whitespace, is cut off. */
  lemma {:induction false} TrimAround(x: string, s: string, y: string)
    requires forall i :: 0 <= i < |x| ==> IsJsSpace(x[i])
    requires forall i :: 0 <= i < |y| ==> IsJsSpace(y[i])
    requires |s| > 0 && !IsJsSpace(s[0]) && !IsJsSpace(s[|s| - 1])
    ensures Trim(x + s + y) == s
  {
    TrimStartDrops(x, s + y);
    assert (x + s + y) == x + (s + y);
    TrimEndDrops(s, y);
  }

  lemma {:induction false} TrimStartDrops(x: string, s: string)
    requires forall i :: 0 <= i < |x| ==> IsJsSpace(x[i])
    requires |s| > 0 && !IsJsSpace(s[0])
    ensures TrimStart(x + s) == s
  {
    if |x| == 0 {
      assert x + s == s;
    } else {
      assert (x + s)[1..] == x[1..] + s;
      TrimStartDrops(x[1..], s);
    }
  }

  lemma {:induction false} TrimEndDrops(s: string, y: string)
    requires forall i :: 0 <= i < |y| ==> IsJsSpace(y[i])
    requires |s| > 0 && !IsJsSpace(s[|s| - 1])
    ensures TrimEnd(s + y) == s
    decreases |y|
  {
    if |y| == 0 {
      assert s + y == s;
    } else {
      assert (s + y)[..|s + y| - 1] == s + y[..|y| - 1];
      TrimEndDrops(s, y[..|y| - 1]);
    }
  }

  // ---------------------------------------------------------------------
  // `clean`

  function Clean(value: string): string {
    Trim(StripIndent(CollapseBlanks(value), true))
  }

  /** What `clean` guarantees: the shape every cleaned message has. */
  predicate IsClean(r: string) {
    && NoBlankPair(r)
    && Unindented(r, true)
    && (|r| > 0 ==> !IsJsSpace(r[0]) && !IsJsSpace(r[|r| - 1]))
  }

  /**
   * A cleaned string has no two adjacent spaces or tabs, no line of it
   * begins with a space or tab, and it neither starts nor ends with
   * whitespace, newlines included.
   */
  lemma {:induction false} CleanSpec(value: string)
    ensures IsClean(Clean(value))
  {
    var t1 := CollapseBlanks(value);
    var t2 := StripIndent(t1, true);
    CollapseBlanksNoPair(value);
    StripIndentKeepsPairFree(t1, true);
    StripIndentUnindented(t1, true);
    var a, b := TrimSpec(t2);
    NoBlankPairSlice(t2, a, b);
    UnindentedSlice(t2, a, b);
  }

  /** Inside a slice, the character after a line terminator is still not a space or tab. */
  lemma {:induction false} UnindentedSlice(t: string, a: nat, b: nat)
    requires a <= b <= |t| && Unindented(t, false)
    ensures Unindented(t[a..b], false)
  {
    var r := t[a..b];
    forall i | 0 < i < |r| && IsLineTerminator(r[i - 1])
      ensures !IsBlank(r[i])
    {
      assert r[i] == t[a + i] && r[i - 1] == t[a + i - 1];
    }
  }

  /** Cleaning a cleaned string changes nothing. */
  lemma {:induction false} CleanIdempotent(value: string)
    ensures Clean(Clean(value)) == Clean(value)
  {
    var r := Clean(value);
    CleanSpec(value);
    CollapseBlanksIdentity(r);
    StripIndentIdentity(r, true);
    TrimIdentity(r);
  }

  /** Clean text in the middle of a line is kept by step 2 and leaves the scan mid-line. */
  lemma {:induction false} CleanMidLine(m: string)
    requires IsClean(m)
    ensures StripIndent(m, false) == m && !IndentStateAfter(m, false)
  {
    StripIndentIdentity(m, false);
    if |m| > 0 {
      var n := |m| - 1;
      assert m == m[..n] + [m[n]];
      StripIndentAppend(m[..n], [m[n]], false);
    }
  }

  // ---------------------------------------------------------------------
  // `getDevMessage` and `getFormattedMessage`

  /** The indentation of the template's lines. */
  const Indent: string := "  "

  /** The title line, in two pieces checked one at a time. */
  const TitlePieces: seq<string> := ["%cApache", " Proteus"]

  const TitleLine: string := TitlePieces[0] + TitlePieces[1]

  /** The footer line, in pieces short enough to check character by character. */
  const FooterPieces: seq<string> :=
    ["%c\U{1F477}\U{200D} This", " is a", " development", " only", " message.", " It will", " be", " removed in", " production", " builds."]

  const FooterLine: string :=
    FooterPieces[0] + FooterPieces[1] + FooterPieces[2] + FooterPieces[3] + FooterPieces[4] + FooterPieces[5] + FooterPieces[6] + FooterPieces[7] + FooterPieces[8] + FooterPieces[9]

  /** The template literal of `getDevMessage` with `m` substituted. */
  function DevTemplate(m: string): string {
    "\n" + Indent + TitleLine + "\n\n" + Indent + "%c" + m + "\n\n" + Indent + FooterLine + "\n"
  }

  function GetDevMessage(message: string): string {
    Clean(DevTemplate(Clean(message)))
  }

  lemma TitlePiecePlain0()
    ensures PlainPiece(TitlePieces[0])
  {
  }

  lemma TitlePiecePlain1()
    ensures PlainPiece(TitlePieces[1])
  {
  }

  lemma TitleLineFacts()
    ensures NoBlankPair(TitleLine) && NoLineTerminator(TitleLine) && TitleLine[0] == '%'
  {
    TitlePiecePlain0();
    TitlePiecePlain1();
    PlainAppend(TitlePieces[0], TitlePieces[1]);
  }

  /** Text with neither two adjacent spaces or tabs nor a line terminator. */
  predicate Plain(s: string) {
    NoBlankPair(s) && NoLineTerminator(s)
  }

  /** A piece of the footer is plain, non-empty and ends with neither space nor tab. */
  predicate PlainPiece(p: string) {
    Plain(p) && |p| > 0 && !IsBlank(p[|p| - 1])
  }

  lemma FooterPiecePlain0()
    ensures PlainPiece(FooterPieces[0])
  {
  }

  lemma FooterPiecePlain1()
    ensures PlainPiece(FooterPieces[1])
  {
  }

  lemma FooterPiecePlain2()
    ensures PlainPiece(FooterPieces[2])
  {
  }

  lemma FooterPiecePlain3()
    ensures PlainPiece(FooterPieces[3])
  {
  }

  lemma FooterPiecePlain4()
    ensures PlainPiece(FooterPieces[4])
  {
  }

  lemma FooterPiecePlain5()
    ensures PlainPiece(FooterPieces[5])
  {
  }

  lemma FooterPiecePlain6()
    ensures PlainPiece(FooterPieces[6])
  {
  }

  lemma FooterPiecePlain7()
    ensures PlainPiece(FooterPieces[7])
  {
  }

  lemma FooterPiecePlain8()
    ensures PlainPiece(FooterPieces[8])
  {
  }

  lemma FooterPiecePlain9()
    ensures PlainPiece(FooterPieces[9])
  {
  }

  lemma {:induction false} PlainAppend(x: string, y: string)
    requires Plain(x) && Plain(y) && |x| > 0 && !IsBlank(x[|x| - 1])
    ensures Plain(x + y)
  {
    NoBlankPairAppend(x, y);
    assert forall i :: |x| <= i < |x + y| ==> (x + y)[i] == y[i - |x|];
  }

  lemma FooterLineFacts()
    ensures NoBlankPair(FooterLine) && NoLineTerminator(FooterLine)
    ensures FooterLine[0] == '%' && FooterLine[|FooterLine| - 1] == '.'
  {
    var p := FooterPieces;
    FooterPiecePlain0();
    FooterPiecePlain1();
    FooterPiecePlain2();
    FooterPiecePlain3();
    FooterPiecePlain4();
    FooterPiecePlain5();
    FooterPiecePlain6();
    FooterPiecePlain7();
    FooterPiecePlain8();
    FooterPiecePlain9();
    PlainAppend(p[0], p[1]);
    PlainAppend(p[0] + p[1], p[2]);
    PlainAppend(p[0] + p[1] + p[2], p[3]);
    PlainAppend(p[0] + p[1] + p[2] + p[3], p[4]);
    PlainAppend(p[0] + p[1] + p[2] + p[3] + p[4], p[5]);
    PlainAppend(p[0] + p[1] + p[2] + p[3] + p[4] + p[5], p[6]);
    PlainAppend(p[0] + p[1] + p[2] + p[3] + p[4] + p[5] + p[6], p[7]);
    PlainAppend(p[0] + p[1] + p[2] + p[3] + p[4] + p[5] + p[6] + p[7], p[8]);
    PlainAppend(p[0] + p[1] + p[2] + p[3] + p[4] + p[5] + p[6] + p[7] + p[8], p[9]);
  }

  /**
   * The template's indentation is gone: the message is the title line, a
   * blank line, the cleaned message after its `%c`, a blank line and the
   * footer line, with nothing before or after.
   */
  lemma {:induction false} DevMessageLayout(message: string)
    ensures GetDevMessage(message) ==
      TitleLine + "\n\n" + "%c" + Clean(message) + "\n\n" + FooterLine
  {
    var m := Clean(message);
    CleanSpec(message);
    var collapsed := "\n" + " " + TitleLine + "\n\n" + " " + "%c" + m + "\n\n" + " " + FooterLine + "\n";
    CollapseTemplate(m);
    var stripped := "\n" + TitleLine + "\n\n" + "%c" + m + "\n\n" + FooterLine + "\n";
    StripTemplate(m);
    var layout := TitleLine + "\n\n" + "%c" + m + "\n\n" + FooterLine;
    Regroup(TitleLine, "\n\n", "%c", m, FooterLine);
    FooterLineFacts();
    TitleLineFacts();
    TrimAround("\n", layout, "\n");
  }

  lemma {:induction false} Regroup(a: string, b: string, c: string, m: string, f: string)
    ensures "\n" + a + b + c + m + b + f + "\n" == "\n" + (a + b + c + m + b + f) + "\n"
  {
  }

  /** One piece more for step 1, cut where no run of spaces and tabs is split. */
  lemma {:induction false} CollapseStep(prefix: string, piece: string, collapsedPrefix: string, collapsedPiece: string)
    requires CollapseBlanks(prefix) == collapsedPrefix && CollapseBlanks(piece) == collapsedPiece
    requires |prefix| == 0 || |piece| == 0 || !IsBlank(prefix[|prefix| - 1]) || !IsBlank(piece[0])
    ensures CollapseBlanks(prefix + piece) == collapsedPrefix + collapsedPiece
  {
    CollapseBlanksAppend(prefix, piece);
  }

  /** The template up to the message: the indentation of its lines becomes one space each. */
  lemma CollapseHead()
    ensures CollapseBlanks("\n" + Indent + TitleLine + "\n\n" + Indent + "%c") ==
      "\n" + " " + TitleLine + "\n\n" + " " + "%c"
  {
    TitleLineFacts();
    CollapseBlanksRun(Indent);
    CollapseBlanksIdentity("\n");
    CollapseBlanksIdentity("\n\n");
    CollapseBlanksIdentity("%c");
    CollapseBlanksIdentity(TitleLine);
    var t1 := "\n" + Indent;
    var t2 := t1 + TitleLine;
    var t3 := t2 + "\n\n";
    var t4 := t3 + Indent;
    var c1 := "\n" + " ";
    var c2 := c1 + TitleLine;
    var c3 := c2 + "\n\n";
    var c4 := c3 + " ";
    CollapseStep("\n", Indent, "\n", " ");
    CollapseStep(t1, TitleLine, c1, TitleLine);
    CollapseStep(t2, "\n\n", c2, "\n\n");
    CollapseStep(t3, Indent, c3, " ");
    CollapseStep(t4, "%c", c4, "%c");
  }

  /** The template after the message: the footer's indentation becomes one space. */
  lemma CollapseTail()
    ensures CollapseBlanks("\n\n" + Indent + FooterLine + "\n") == "\n\n" + " " + FooterLine + "\n"
  {
    FooterLineFacts();
    CollapseBlanksRun(Indent);
    CollapseBlanksIdentity("\n");
    CollapseBlanksIdentity("\n\n");
    CollapseBlanksIdentity(FooterLine);
    var t1 := "\n\n" + Indent;
    var t2 := t1 + FooterLine;
    var c1 := "\n\n" + " ";
    var c2 := c1 + FooterLine;
    CollapseStep("\n\n", Indent, "\n\n", " ");
    CollapseStep(t1, FooterLine, c1, FooterLine);
    CollapseStep(t2, "\n", c2, "\n");
  }

  lemma {:induction false} RegroupTail(x: string, a: string, b: string, c: string, d: string)
    ensures x + a + b + c + d == x + (a + b + c + d)
  {
  }

  lemma {:induction false} CollapseTemplate(m: string)
    requires IsClean(m)
    ensures CollapseBlanks(DevTemplate(m)) ==
      "\n" + " " + TitleLine + "\n\n" + " " + "%c" + m + "\n\n" + " " + FooterLine + "\n"
  {
    var h := "\n" + Indent + TitleLine + "\n\n" + Indent + "%c";
    var hc := "\n" + " " + TitleLine + "\n\n" + " " + "%c";
    var t := "\n\n" + Indent + FooterLine + "\n";
    var tc := "\n\n" + " " + FooterLine + "\n";
    CollapseHead();
    CollapseTail();
    CollapseBlanksIdentity(m);
    assert h[|h| - 1] == 'c';
    CollapseStep(h, m, hc, m);
    CollapseStep(h + m, t, hc + m, tc);
    RegroupTail(h + m, "\n\n", Indent, FooterLine, "\n");
    RegroupTail(hc + m, "\n\n", " ", FooterLine, "\n");
  }

  /** One piece more for step 2, scanned in the state the prefix left. */
  lemma {:induction false} StripStep(prefix: string, piece: string, strippedPrefix: string, state: bool,
                  strippedPiece: string, stateAfter: bool)
    requires StripIndent(prefix, true) == strippedPrefix && IndentStateAfter(prefix, true) == state
    requires StripIndent(piece, state) == strippedPiece && IndentStateAfter(piece, state) == stateAfter
    ensures StripIndent(prefix + piece, true) == strippedPrefix + strippedPiece
    ensures IndentStateAfter(prefix + piece, true) == stateAfter
  {
    StripIndentAppend(prefix, piece, true);
  }

  /** Text starting a line with neither indentation nor line terminator is kept, and leaves the scan mid-line. */
  lemma {:induction false} StripIndentPlainLine(s: string, atLineStart: bool)
    requires |s| > 0 && !IsBlank(s[0]) && NoLineTerminator(s)
    ensures StripIndent(s, atLineStart) == s && !IndentStateAfter(s, atLineStart)
  {
    StripIndentMidLine(s[1..]);
    assert s == [s[0]] + s[1..];
  }

  /** The template's line breaks and indentation, for step 2. */
  lemma StripTemplatePieces()
    ensures StripIndent("\n", false) == "\n" && IndentStateAfter("\n", false)
    ensures StripIndent("\n\n", false) == "\n\n" && IndentStateAfter("\n\n", false)
    ensures StripIndent(" ", true) == "" && IndentStateAfter(" ", true)
    ensures StripIndent("%c", true) == "%c" && !IndentStateAfter("%c", true)
  {
    assert "\n"[1..] == "";
    assert "\n\n"[1..] == "\n";
    assert " "[1..] == "";
    assert "%c"[1..] == "c" && "c"[1..] == "";
  }

  lemma {:induction false} StripTemplate(m: string)
    requires IsClean(m)
    ensures StripIndent("\n" + " " + TitleLine + "\n\n" + " " + "%c" + m + "\n\n" + " " + FooterLine + "\n", true) ==
      "\n" + TitleLine + "\n\n" + "%c" + m + "\n\n" + FooterLine + "\n"
  {
    TitleLineFacts();
    FooterLineFacts();
    CleanMidLine(m);
    StripTemplatePieces();
    StripIndentPlainLine(TitleLine, true);
    StripIndentPlainLine(FooterLine, true);
    assert StripIndent("\n", true) == "\n" && IndentStateAfter("\n", true) by {
      assert "\n"[1..] == "";
    }
    var c1 := "\n" + " ";
    var c2 := c1 + TitleLine;
    var c3 := c2 + "\n\n";
    var c4 := c3 + " ";
    var c5 := c4 + "%c";
    var c6 := c5 + m;
    var c7 := c6 + "\n\n";
    var c8 := c7 + " ";
    var c9 := c8 + FooterLine;
    var r2 := "\n" + TitleLine;
    var r3 := r2 + "\n\n";
    var r5 := r3 + "%c";
    var r6 := r5 + m;
    var r7 := r6 + "\n\n";
    var r9 := r7 + FooterLine;
    StripStep("\n", " ", "\n", true, "", true);
    assert "\n" + "" == "\n";
    StripStep(c1, TitleLine, "\n", true, TitleLine, false);
    StripStep(c2, "\n\n", r2, false, "\n\n", true);
    StripStep(c3, " ", r3, true, "", true);
    assert r3 + "" == r3;
    StripStep(c4, "%c", r3, true, "%c", false);
    StripStep(c5, m, r5, false, m, false);
    StripStep(c6, "\n\n", r6, false, "\n\n", true);
    StripStep(c7, " ", r7, true, "", true);
    assert r7 + "" == r7;
    StripStep(c8, FooterLine, r7, true, FooterLine, false);
    StripStep(c9, "\n", r9, false, "\n", true);
  }

  /** The style of the title (green), of the message, and of the footer (purple). */
  const TitleStyle: string := "color: #00c584; font-size: 1.2em; font-weight: bold;"
  const MessageStyle: string := "line-height: 1.5"
  const FooterStyle: string := "color: #723874;"

  /**
   * `getFormattedMessage`: the arguments handed to `console.log`, the
   * message and one style for each of its three `%c` directives.
   */
  function GetFormattedMessage(message: string): (r: seq<string>)
    ensures |r| == 4
  {
    [GetDevMessage(message), TitleStyle, MessageStyle, FooterStyle]
  }

  /**
   * The formatted message is the cleaned message in its layout followed by
   * the title, message and footer styles, and cleaning the message first
   * changes nothing.
   */
  lemma {:induction false} FormattedMessageSpec(message: string)
    ensures var r := GetFormattedMessage(message);
      && r[0] == TitleLine + "\n\n" + "%c" + Clean(message) + "\n\n" + FooterLine
      && r[1..] == [TitleStyle, MessageStyle, FooterStyle]
      && GetFormattedMessage(Clean(message)) == r
  {
    DevMessageLayout(message);
    DevMessageLayout(Clean(message));
    CleanIdempotent(message);
  }
}
