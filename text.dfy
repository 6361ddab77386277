/**
 * The JavaScript string primitives the views rely on: `indexOf`, `includes`,
 * `startsWith`-by-`indexOf`, `split`, ASCII `toLowerCase` and the UTF-16
 * `length` of a string.
 */
module Text {

  /** `sub` occurs in `s` at index `i`. */
  predicate OccursAt(s: string, sub: string, i: nat) {
    i + |sub| <= |s| && s[i..i + |sub|] == sub
  }

  predicate StartsWith(s: string, p: string) {
    |p| <= |s| && s[..|p|] == p
  }

  /** The first index at or after `from` where `sub` occurs, or -1. */
  function FindFrom(s: string, sub: string, from: nat): (r: int)
    requires from <= |s|
    ensures r == -1 || (from <= r && OccursAt(s, sub, r))
    ensures r == -1 ==> forall i :: from <= i <= |s| ==> !OccursAt(s, sub, i)
    ensures r != -1 ==> forall i :: from <= i < r ==> !OccursAt(s, sub, i)
    decreases |s| - from
  {
    if OccursAt(s, sub, from) then from
    else if from == |s| then -1
    else FindFrom(s, sub, from + 1)
  }

  /**
   * `s.indexOf(sub)`: the first occurrence of `sub` in `s`, or -1. The index
   * counts characters, where JavaScript counts UTF-16 code units; the two
   * agree on 0 and -1, and before the first character beyond the Basic
   * Multilingual Plane.
   */
  function IndexOf(s: string, sub: string): (r: int)
    ensures r == -1 <==> forall i :: 0 <= i <= |s| ==> !OccursAt(s, sub, i)
    ensures r != -1 ==> 0 <= r && OccursAt(s, sub, r) && forall i :: 0 <= i < r ==> !OccursAt(s, sub, i)
  {
    FindFrom(s, sub, 0)
  }

  /** `s.includes(sub)`. */
  predicate Includes(s: string, sub: string) {
    IndexOf(s, sub) != -1
  }

  lemma {:induction false} IncludesIff(s: string, sub: string)
    ensures Includes(s, sub) <==> exists i :: 0 <= i <= |s| && OccursAt(s, sub, i)
  {
    if Includes(s, sub) {
      var i := IndexOf(s, sub);
      assert 0 <= i <= |s| && OccursAt(s, sub, i);
    }
  }

  /** `s.indexOf(p) === 0` holds exactly when `s` starts with `p`. */
  lemma {:induction false} IndexOfZeroIffStartsWith(s: string, p: string)
    ensures IndexOf(s, p) == 0 <==> StartsWith(s, p)
  {
  }

  /**
   * `s.split(sep)`. A non-empty separator cuts `s` at its successive
   * non-overlapping occurrences, left to right; the empty separator splits
   * `s` into its characters.
   */
  function Split(s: string, sep: string): (parts: seq<string>)
    ensures |sep| > 0 ==> |parts| >= 1
  {
    if |sep| == 0 then Chars(s) else SplitAt(s, sep)
  }

  function Chars(s: string): (parts: seq<string>)
    ensures |parts| == |s|
  {
    seq(|s|, i requires 0 <= i < |s| => [s[i]])
  }

  /** Splitting by a non-empty separator. */
  function SplitAt(s: string, sep: string): (parts: seq<string>)
    requires |sep| > 0
    ensures |parts| >= 1
    decreases |s|
  {
    var i := IndexOf(s, sep);
    if i == -1 then [s] else [s[..i]] + SplitAt(s[i + |sep|..], sep)
  }

  /** One step of `SplitAt`: the text before the first occurrence, then the split of the rest. */
  lemma {:induction false} SplitAtUnfold(s: string, sep: string)
    requires |sep| > 0
    ensures IndexOf(s, sep) == -1 ==> SplitAt(s, sep) == [s]
    ensures IndexOf(s, sep) != -1 ==>
      SplitAt(s, sep) == [s[..IndexOf(s, sep)]] + SplitAt(s[IndexOf(s, sep) + |sep|..], sep)
  {
  }

  /** `parts.join(sep)`. */
  function Join(parts: seq<string>, sep: string): string {
    if |parts| == 0 then ""
    else if |parts| == 1 then parts[0]
    else parts[0] + sep + Join(parts[1..], sep)
  }

  /** Splitting and joining with the same separator gives the string back. */
  lemma {:induction false} SplitJoin(s: string, sep: string)
    ensures Join(Split(s, sep), sep) == s
  {
    if |sep| == 0 {
      JoinChars(s);
    } else {
      SplitAtJoin(s, sep);
    }
  }

  lemma {:induction false} SplitAtJoin(s: string, sep: string)
    requires |sep| > 0
    ensures Join(SplitAt(s, sep), sep) == s
    decreases |s|
  {
    var i := IndexOf(s, sep);
    if i != -1 {
      var rest := s[i + |sep|..];
      SplitAtJoin(rest, sep);
      var tail := SplitAt(rest, sep);
      assert SplitAt(s, sep) == [s[..i]] + tail;
      assert ([s[..i]] + tail)[1..] == tail;
      assert s == s[..i] + sep + rest;
    }
  }

  lemma {:induction false} JoinChars(s: string)
    ensures Join(Chars(s), "") == s
  {
    if |s| > 1 {
      JoinChars(s[1..]);
      assert Chars(s)[1..] == Chars(s[1..]);
      assert s == [s[0]] + s[1..];
    }
  }

  /** The text before the first occurrence of `sub` does not contain `sub`. */
  lemma {:induction false} PrefixBeforeFirstOccurrence(s: string, sub: string)
    requires |sub| > 0 && IndexOf(s, sub) != -1
    ensures !Includes(s[..IndexOf(s, sub)], sub)
  {
    var i := IndexOf(s, sub);
    var head := s[..i];
    var k := IndexOf(head, sub);
    if k != -1 {
      assert head[k..k + |sub|] == s[k..k + |sub|];
      assert k < i && OccursAt(s, sub, k);
    }
  }

  /** No part of a split by a non-empty separator contains the separator. */
  lemma {:induction false} SplitPartsAvoidSeparator(s: string, sep: string)
    requires |sep| > 0
    ensures forall k :: 0 <= k < |SplitAt(s, sep)| ==> !Includes(SplitAt(s, sep)[k], sep)
    decreases |s|
  {
    var i := IndexOf(s, sep);
    if i == -1 {
      assert SplitAt(s, sep) == [s];
      assert !Includes(s, sep);
    } else {
      var rest := s[i + |sep|..];
      SplitPartsAvoidSeparator(rest, sep);
      PrefixBeforeFirstOccurrence(s, sep);
      var parts := SplitAt(s, sep);
      var tail := SplitAt(rest, sep);
      assert parts == [s[..i]] + tail;
      forall k | 0 <= k < |parts|
        ensures !Includes(parts[k], sep)
      {
        if k > 0 {
          assert parts[k] == tail[k - 1];
        }
      }
    }
  }

  /** A split by a non-empty separator yields more than one part exactly when the separator occurs. */
  lemma {:induction false} SplitSingleIff(s: string, sep: string)
    requires |sep| > 0
    ensures |SplitAt(s, sep)| == 1 <==> !Includes(s, sep)
  {
    var i := IndexOf(s, sep);
    if i != -1 {
      var tail := SplitAt(s[i + |sep|..], sep);
      assert SplitAt(s, sep) == [s[..i]] + tail;
      assert |tail| >= 1;
    } else {
      assert SplitAt(s, sep) == [s];
    }
  }

  /** The ASCII part of `toLowerCase`. */
  function LowerChar(c: char): char {
    if 'A' <= c <= 'Z' then (c as int + 32) as char else c
  }

  function Lower(s: string): (r: string)
    ensures |r| == |s|
    ensures forall i :: 0 <= i < |s| ==> r[i] == LowerChar(s[i])
  {
    seq(|s|, i requires 0 <= i < |s| => LowerChar(s[i]))
  }

  /** Lower-casing twice is lower-casing once. */
  lemma {:induction false} LowerIdempotent(s: string)
    ensures Lower(Lower(s)) == Lower(s)
  {
  }

  /** The JavaScript `length` of a string: its number of UTF-16 code units. */
  function Utf16Length(s: string): (n: nat)
    ensures |s| <= n <= 2 * |s|
  {
    if |s| == 0 then 0
    else (if s[0] as int > 0xFFFF then 2 else 1) + Utf16Length(s[1..])
  }

  lemma {:induction false} Utf16LengthAppend(a: string, b: string)
    ensures Utf16Length(a + b) == Utf16Length(a) + Utf16Length(b)
  {
    if |a| == 0 {
      assert a + b == b;
    } else {
      assert (a + b)[1..] == a[1..] + b;
      Utf16LengthAppend(a[1..], b);
    }
  }

  /** A string of Basic Multilingual Plane characters has one code unit per character. */
  lemma {:induction false} Utf16LengthOfBmp(s: string)
    requires forall i :: 0 <= i < |s| ==> s[i] as int <= 0xFFFF
    ensures Utf16Length(s) == |s|
  {
    if |s| > 0 {
      Utf16LengthOfBmp(s[1..]);
    }
  }
}
