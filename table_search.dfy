/**
 * What the two tables share: the `onFilter` of a searchable column (the
 * lower-cased cell text contains the lower-cased query), the comparator by
 * string length, and the `searchText` that `handleSearch` and
 * `handleReset` store.
 */
module TableSearch {
  import opened Wrappers
  import opened Text

  /**
   * `text.toString().toLowerCase().includes(value.toLowerCase())` for a
   * cell holding the string `text`.
   */
  predicate MatchesSearch(text: string, value: string) {
    Includes(Lower(text), Lower(value))
  }

  /** Lower-casing a slice is slicing the lower-cased string. */
  lemma {:induction false} LowerSlice(s: string, i: nat, j: nat)
    requires i <= j <= |s|
    ensures Lower(s[i..j]) == Lower(s)[i..j]
  {
  }

  /**
   * A cell matches exactly when the lower-cased query occurs somewhere in
   * the lower-cased text.
   */
  lemma {:induction false} MatchesSearchIff(text: string, value: string)
    ensures MatchesSearch(text, value) <==>
      exists i :: 0 <= i <= |text| && OccursAt(Lower(text), Lower(value), i)
  {
    IncludesIff(Lower(text), Lower(value));
  }

  /** The empty query matches every cell. */
  lemma {:induction false} EmptyQueryMatchesAll(text: string)
    ensures MatchesSearch(text, "")
  {
    assert OccursAt(Lower(text), Lower(""), 0);
  }

  /** A query that occurs in the text, as typed, matches. */
  lemma {:induction false} OccurrenceMatches(text: string, value: string, i: nat)
    requires OccursAt(text, value, i)
    ensures MatchesSearch(text, value)
  {
    LowerSlice(text, i, i + |value|);
    assert OccursAt(Lower(text), Lower(value), i);
    IncludesIff(Lower(text), Lower(value));
  }

  /** Upper or lower case in the query or the text makes no difference. */
  lemma {:induction false} SearchIgnoresCase(text: string, value: string)
    ensures MatchesSearch(text, value) == MatchesSearch(Lower(text), value)
    ensures MatchesSearch(text, value) == MatchesSearch(text, Lower(value))
  {
    LowerIdempotent(text);
    LowerIdempotent(value);
  }

  /** A query longer than the text matches nothing. */
  lemma {:induction false} LongerQueryMatchesNothing(text: string, value: string)
    requires |value| > |text|
    ensures !MatchesSearch(text, value)
  {
    IncludesIff(Lower(text), Lower(value));
  }

  /** `sorter: (a, b) => a.length - b.length` on the two cells compared. */
  function ByLength(a: string, b: string): int {
    Utf16Length(a) - Utf16Length(b)
  }

  /**
   * The comparator is a consistent ordering: swapping its arguments flips
   * the sign, it is zero exactly for equal lengths, and "not after" is
   * transitive.
   */
  lemma {:induction false} ByLengthIsOrdering(a: string, b: string, c: string)
    ensures ByLength(a, b) == -ByLength(b, a)
    ensures ByLength(a, b) == 0 <==> Utf16Length(a) == Utf16Length(b)
    ensures ByLength(a, b) <= 0 && ByLength(b, c) <= 0 ==> ByLength(a, c) <= 0
    ensures ByLength(a, b) < 0 <==> Utf16Length(a) < Utf16Length(b)
  {
  }

  /** On text without characters beyond the Basic Multilingual Plane the comparator compares character counts. */
  lemma {:induction false} ByLengthOfBmp(a: string, b: string)
    requires forall i :: 0 <= i < |a| ==> a[i] as int <= 0xFFFF
    requires forall i :: 0 <= i < |b| ==> b[i] as int <= 0xFFFF
    ensures ByLength(a, b) == |a| - |b|
  {
    Utf16LengthOfBmp(a);
    Utf16LengthOfBmp(b);
  }

  /**
   * `selectedKeys[0]`: the query typed into the dropdown, or `undefined`
   * when nothing is selected.
   */
  function FirstSelected(selectedKeys: seq<string>): (r: Option<string>)
    ensures r.Some? <==> |selectedKeys| > 0
    ensures r.Some? ==> r.value == selectedKeys[0]
  {
    if |selectedKeys| == 0 then None else Some(selectedKeys[0])
  }

  /** The `searchText` every table starts with and `handleReset` restores. */
  const NoSearch: Option<string> := Some("")
}
