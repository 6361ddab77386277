/**
 * `resultingData.sort((a, b) => b.y - a.y)`: the stable sort of the entries
 * by non-increasing total, as `Array.prototype.sort` is required to perform
 * it (equal totals keep their previous relative order).
 *
 * The sort is specified by a reference insertion sort on sequences; which
 * algorithm the JavaScript engine uses is not observable, since a stable
 * sort by a given comparator has exactly one result.
 */
module Ranking {
  import opened PrefixTotals

  /** The comparator the charts pass to `sort`: negative when `a` is to come first. */
  function Compare(a: Entry, b: Entry): int {
    b.y - a.y
  }

  /** Ordered by non-increasing `y`. */
  predicate SortedDesc(s: seq<Entry>) {
    forall i, j :: 0 <= i < j < |s| ==> s[i].y >= s[j].y
  }

  /**
   * Inserts `x` into `t` after every element that the comparator does not
   * place after `x`.
   */
  function InsertDesc(t: seq<Entry>, x: Entry): seq<Entry>
    decreases |t|
  {
    if |t| == 0 || Compare(t[|t| - 1], x) <= 0 then t + [x]
    else InsertDesc(t[..|t| - 1], x) + [t[|t| - 1]]
  }

  /** The stable sort by `Compare`. */
  function SortDesc(s: seq<Entry>): seq<Entry> {
    if |s| == 0 then [] else InsertDesc(SortDesc(s[..|s| - 1]), s[|s| - 1])
  }

  /**
   * `x` goes in just after the last element whose total is at least its
   * own; every element after it has a smaller total.
   */
  lemma {:induction false} InsertDescAt(t: seq<Entry>, x: Entry) returns (before: seq<Entry>, after: seq<Entry>)
    ensures t == before + after
    ensures InsertDesc(t, x) == before + [x] + after
    ensures forall i :: 0 <= i < |after| ==> after[i].y < x.y
    ensures |before| == 0 || before[|before| - 1].y >= x.y
    decreases |t|
  {
    if |t| > 0 && t[|t| - 1].y < x.y {
      var n := |t| - 1;
      var after0;
      before, after0 := InsertDescAt(t[..n], x);
      after := after0 + [t[n]];
      assert InsertDesc(t, x) == before + [x] + after by {
        assert InsertDesc(t, x) == (before + [x] + after0) + [t[n]];
      }
      assert t == before + after by {
        assert t == t[..n] + [t[n]];
      }
    } else {
      before, after := t, [];
    }
  }

  /** The entries among `s` whose total is `v`, in their order in `s`. */
  function WithY(s: seq<Entry>, v: int): seq<Entry> {
    if |s| == 0 then []
    else WithY(s[..|s| - 1], v) + (if s[|s| - 1].y == v then [s[|s| - 1]] else [])
  }

  lemma {:induction false} WithYAppend(a: seq<Entry>, b: seq<Entry>, v: int)
    ensures WithY(a + b, v) == WithY(a, v) + WithY(b, v)
    decreases |b|
  {
    if |b| == 0 {
      assert a + b == a;
    } else {
      var n := |b| - 1;
      assert (a + b)[..|a + b| - 1] == a + b[..n];
      WithYAppend(a, b[..n], v);
    }
  }

  lemma {:induction false} WithYSingle(x: Entry, v: int)
    ensures WithY([x], v) == if x.y == v then [x] else []
  {
    assert [x][..0] == [];
  }

  lemma {:induction false} WithYBelow(s: seq<Entry>, v: int)
    requires forall i :: 0 <= i < |s| ==> s[i].y < v
    ensures WithY(s, v) == []
  {
    if |s| > 0 {
      WithYBelow(s[..|s| - 1], v);
    }
  }

  lemma {:induction false} InsertDescPermutes(t: seq<Entry>, x: Entry)
    ensures multiset(InsertDesc(t, x)) == multiset(t) + multiset{x}
  {
    var before, after := InsertDescAt(t, x);
  }

  lemma {:induction false} InsertDescSorted(t: seq<Entry>, x: Entry)
    requires SortedDesc(t)
    ensures SortedDesc(InsertDesc(t, x))
  {
    var before, after := InsertDescAt(t, x);
    var r := before + [x] + after;
    forall i, j | 0 <= i < j < |r|
      ensures r[i].y >= r[j].y
    {
      var b := |before|;
      if j < b {
        assert r[i] == t[i] && r[j] == t[j];
      } else if i < b {
        assert r[i] == t[i] && t[b - 1] == before[b - 1];
        assert r[j].y <= x.y by {
          if j > b {
            assert r[j] == after[j - b - 1];
          }
        }
      } else if i == b {
        assert r[j] == after[j - b - 1];
      } else {
        assert r[i] == t[i - 1] && r[j] == t[j - 1];
      }
    }
  }

  lemma {:induction false} WithYAround(before: seq<Entry>, x: Entry, after: seq<Entry>, v: int)
    ensures WithY(before + [x] + after, v) == WithY(before, v) + WithY([x], v) + WithY(after, v)
  {
    WithYAppend(before + [x], after, v);
    WithYAppend(before, [x], v);
  }

  /** Putting `x` between the two parts of `t`, all of whose entries after it are smaller, appends it to its total's entries. */
  lemma {:induction false} WithYInsertedBetween(before: seq<Entry>, x: Entry, after: seq<Entry>, v: int)
    requires forall i :: 0 <= i < |after| ==> after[i].y < x.y
    ensures WithY(before + [x] + after, v) == WithY(before + after, v) + WithY([x], v)
  {
    WithYAround(before, x, after, v);
    WithYAppend(before, after, v);
    WithYSingle(x, v);
    var wb, wx, wa := WithY(before, v), WithY([x], v), WithY(after, v);
    if v == x.y {
      WithYBelow(after, v);
      assert wa == [];
      assert wb + wx + wa == wb + wx && wb + wa == wb;
    } else {
      assert wx == [];
      assert wb + wx + wa == wb + wa && wb + wa + wx == wb + wa;
    }
  }

  /** Inserting `x` appends it to the entries with its total and leaves the others as they were. */
  lemma {:induction false} InsertDescStable(t: seq<Entry>, x: Entry, v: int)
    ensures WithY(InsertDesc(t, x), v) == WithY(t, v) + WithY([x], v)
  {
    var before, after := InsertDescAt(t, x);
    WithYInsertedBetween(before, x, after, v);
  }

  /** The sort only reorders: the result is a permutation of its input. */
  lemma {:induction false} SortDescPermutes(s: seq<Entry>)
    ensures multiset(SortDesc(s)) == multiset(s)
  {
    if |s| > 0 {
      var n := |s| - 1;
      SortDescPermutes(s[..n]);
      InsertDescPermutes(SortDesc(s[..n]), s[n]);
      assert s == s[..n] + [s[n]];
    }
  }

  /** The result is ordered by non-increasing total. */
  lemma {:induction false} SortDescSorted(s: seq<Entry>)
    ensures SortedDesc(SortDesc(s))
  {
    if |s| > 0 {
      SortDescSorted(s[..|s| - 1]);
      InsertDescSorted(SortDesc(s[..|s| - 1]), s[|s| - 1]);
    }
  }

  /** The sort is stable: the entries with any one total keep their relative order. */
  lemma {:induction false} SortDescStable(s: seq<Entry>, v: int)
    ensures WithY(SortDesc(s), v) == WithY(s, v)
  {
    if |s| > 0 {
      var n := |s| - 1;
      SortDescStable(s[..n], v);
      InsertDescStable(SortDesc(s[..n]), s[n], v);
      WithYAppend(s[..n], [s[n]], v);
      assert s == s[..n] + [s[n]];
    }
  }

  /** The sort keeps the length. */
  lemma {:induction false} SortDescLength(s: seq<Entry>)
    ensures |SortDesc(s)| == |s|
  {
    SortDescPermutes(s);
    assert |multiset(SortDesc(s))| == |multiset(s)|;
  }

  /** Sorting entries with distinct keys gives entries with distinct keys. */
  lemma {:induction false} SortDescKeepsDistinctKeys(es: seq<Entry>)
    requires DistinctKeys(es)
    ensures DistinctKeys(SortDesc(es))
  {
    var r := SortDesc(es);
    SortDescPermutes(es);
    forall i, j | 0 <= i < j < |r|
      ensures r[i].key != r[j].key
    {
      DistinctAfterPermutation(es, r, i, j);
    }
  }

  /** Two different positions of a permutation of distinct-keyed entries hold different keys. */
  lemma {:induction false} DistinctAfterPermutation(es: seq<Entry>, r: seq<Entry>, i: nat, j: nat)
    requires DistinctKeys(es) && multiset(r) == multiset(es)
    requires i < j < |r|
    ensures r[i].key != r[j].key
  {
    assert r[i] in multiset(es) && r[j] in multiset(es);
    var a :| 0 <= a < |es| && es[a] == r[i];
    var b :| 0 <= b < |es| && es[b] == r[j];
    if a == b {
      assert r[i] == r[j];
      var rs := multiset(r);
      assert rs[r[i]] >= 2 by {
        CountTwo(r, i, j);
      }
      CountOne(es, a);
    }
  }

  lemma {:induction false} CountTwo(r: seq<Entry>, i: nat, j: nat)
    requires i < j < |r| && r[i] == r[j]
    ensures multiset(r)[r[i]] >= 2
  {
    var x := r[i];
    assert r == r[..i] + [x] + r[i + 1..j] + [x] + r[j + 1..];
  }

  lemma {:induction false} CountOne(es: seq<Entry>, a: nat)
    requires DistinctKeys(es) && a < |es|
    ensures multiset(es)[es[a]] == 1
  {
    var x := es[a];
    assert es == es[..a] + [x] + es[a + 1..];
    NotIn(es[..a], x);
    NotIn(es[a + 1..], x);
  }

  lemma {:induction false} NotIn(s: seq<Entry>, x: Entry)
    requires forall i :: 0 <= i < |s| ==> s[i].key != x.key
    ensures multiset(s)[x] == 0
  {
  }

  /** A position of a permutation holds an element of the original. */
  lemma {:induction false} PermutationElement(es: seq<Entry>, r: seq<Entry>, i: nat) returns (m: nat)
    requires multiset(r) == multiset(es) && i < |r|
    ensures m < |es| && es[m] == r[i]
  {
    assert r[i] in multiset(es);
    m :| 0 <= m < |es| && es[m] == r[i];
  }

  /** The entries of the totals of `kvs`, sorted. */
  function RankedOf(kvs: seq<Entry>): seq<Entry> {
    SortDesc(EntriesOf(Accumulated(kvs)))
  }

  /**
   * The ranked totals of keyed fields: sorted, one entry per distinct key,
   * each carrying the sum of the values of that key's fields.
   */
  lemma {:induction false} RankedTotals(kvs: seq<Entry>)
    ensures var r := RankedOf(kvs);
      && SortedDesc(r)
      && DistinctKeys(r)
      && (forall i :: 0 <= i < |r| ==> r[i].key in Keys(kvs) && r[i].y == SumFor(kvs, r[i].key))
      && (forall k :: k in Keys(kvs) ==> exists i :: 0 <= i < |r| && r[i].key == k)
  {
    var es := EntriesOf(Accumulated(kvs));
    var r := SortDesc(es);
    EntriesSpec(kvs);
    SortDescPermutes(es);
    SortDescSorted(es);
    SortDescKeepsDistinctKeys(es);
    forall i | 0 <= i < |r|
      ensures r[i].key in Keys(kvs) && r[i].y == SumFor(kvs, r[i].key)
    {
      var m := PermutationElement(es, r, i);
    }
    forall k | k in Keys(kvs)
      ensures exists i :: 0 <= i < |r| && r[i].key == k
    {
      var m :| 0 <= m < |es| && es[m].key == k;
      var i := PermutationElement(r, es, m);
    }
  }
}
