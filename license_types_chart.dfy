/**
 * The License Types pie chart: totals per `license_` field, sorted by
 * decreasing total, drawn up to the first zero total; and the component's
 * load cycle.
 */
module LicenseTypesChart {
  import opened PrefixTotals
  import opened Ranking
  import opened Fetch
  import opened Legend

  const LicensePrefix: string := "license_"

  /** The sorted totals, that is `resultingData` after the sort. */
  function Ranked(docs: seq<Doc>): seq<Entry> {
    RankedOf(Keyed(Flatten(docs), LicensePrefix))
  }

  /** The length of the run of non-zero totals at the start of `s`. */
  function NonzeroRun(s: seq<Entry>): (n: nat)
    ensures n <= |s|
  {
    if |s| == 0 || s[0].y == 0 then 0 else 1 + NonzeroRun(s[1..])
  }

  /** The data the chart draws. */
  function PieData(docs: seq<Doc>): seq<Entry> {
    var ranked := Ranked(docs);
    ranked[..NonzeroRun(ranked)]
  }

  /**
   * The loop that copies `resultingData[i]` to `result[i]` and stops at the
   * first entry whose total is zero.
   */
  method SelectNonzero(resultingData: seq<Entry>) returns (result: seq<Entry>)
    ensures |result| == NonzeroRun(resultingData)
    ensures result == resultingData[..|result|]
  {
    result := [];
    var i := 0;
    var len := |resultingData|;
    while i < len
      invariant 0 <= i <= len
      invariant result == resultingData[..i]
      invariant NonzeroRun(resultingData) == i + NonzeroRun(resultingData[i..])
    {
      if resultingData[i].y == 0 {
        break;
      }
      assert resultingData[i..][1..] == resultingData[i + 1..];
      result := result + [resultingData[i]];
      i := i + 1;
    }
  }

  /**
   * The selected entries are the longest prefix without a zero total: none
   * of them is zero, and the entry after them, if any, is.
   */
  lemma {:induction false} NonzeroRunIsLongest(s: seq<Entry>)
    ensures forall i :: 0 <= i < NonzeroRun(s) ==> s[i].y != 0
    ensures NonzeroRun(s) == |s| || s[NonzeroRun(s)].y == 0
  {
    if |s| > 0 && s[0].y != 0 {
      NonzeroRunIsLongest(s[1..]);
    }
  }

  /** Without a zero total everything is drawn. */
  lemma {:induction false} NonzeroRunWithoutZero(s: seq<Entry>)
    requires forall i :: 0 <= i < |s| ==> s[i].y != 0
    ensures NonzeroRun(s) == |s|
  {
    if |s| > 0 {
      NonzeroRunWithoutZero(s[1..]);
    }
  }

  /**
   * With counts, which are never negative, the sorted data holds its zero
   * totals at the end, so what is left out is exactly the zero totals.
   */
  lemma {:induction false} NonzeroRunOfSortedCounts(s: seq<Entry>)
    requires SortedDesc(s)
    requires forall i :: 0 <= i < |s| ==> s[i].y >= 0
    ensures forall i :: NonzeroRun(s) <= i < |s| ==> s[i].y == 0
  {
    NonzeroRunIsLongest(s);
  }

  /** `drawChart` up to the data handed to the pie layout. */
  method DrawChartData(docs: seq<Doc>) returns (result: seq<Entry>)
    ensures result == PieData(docs)
  {
    var license := Accumulate(docs, LicensePrefix);
    var resultingData := ToEntries(license);
    resultingData := SortDesc(resultingData);
    result := SelectNonzero(resultingData);
  }

  /** The drawn slices: distinct keys, none zero, each with the sum of its fields. */
  lemma {:induction false} PieDataTotals(docs: seq<Doc>)
    ensures var kvs := Keyed(Flatten(docs), LicensePrefix);
      var pie := PieData(docs);
      && DistinctKeys(pie)
      && |pie| <= |Ranked(docs)|
      && (forall i :: 0 <= i < |pie| ==> pie[i].y != 0 && pie[i].key in Keys(kvs) && pie[i].y == SumFor(kvs, pie[i].key))
  {
    RankedTotals(Keyed(Flatten(docs), LicensePrefix));
    NonzeroRunIsLongest(Ranked(docs));
    assert forall i :: 0 <= i < |PieData(docs)| ==> PieData(docs)[i] == Ranked(docs)[i];
  }

  /** When every field value is a count, every key with a non-zero total is drawn. */
  lemma {:induction false} PieDataComplete(docs: seq<Doc>, k: string)
    requires forall i :: 0 <= i < |Flatten(docs)| ==> Flatten(docs)[i].value >= 0
    requires k in Keys(Keyed(Flatten(docs), LicensePrefix))
    requires SumFor(Keyed(Flatten(docs), LicensePrefix), k) != 0
    ensures exists i :: 0 <= i < |PieData(docs)| && PieData(docs)[i].key == k
  {
    var kvs := Keyed(Flatten(docs), LicensePrefix);
    assert forall i :: 0 <= i < |kvs| ==> kvs[i].y == Flatten(docs)[i].value;
    var ranked := Ranked(docs);
    var i := NonzeroKeysDrawn(kvs, k);
    assert PieData(docs) == ranked[..NonzeroRun(ranked)];
    assert PieData(docs)[i] == ranked[i];
  }

  lemma {:induction false} NonzeroKeysDrawn(kvs: seq<Entry>, k: string) returns (i: nat)
    requires forall i :: 0 <= i < |kvs| ==> kvs[i].y >= 0
    requires k in Keys(kvs) && SumFor(kvs, k) != 0
    ensures i < NonzeroRun(RankedOf(kvs)) && RankedOf(kvs)[i].key == k
  {
    var ranked := RankedOf(kvs);
    RankedTotals(kvs);
    forall i | 0 <= i < |ranked|
      ensures ranked[i].y >= 0
    {
      SumForNonNegative(kvs, ranked[i].key);
    }
    NonzeroRunOfSortedCounts(ranked);
    i :| 0 <= i < |ranked| && ranked[i].key == k;
  }

  lemma {:induction false} SumForNonNegative(kvs: seq<Entry>, k: string)
    requires forall i :: 0 <= i < |kvs| ==> kvs[i].y >= 0
    ensures SumFor(kvs, k) >= 0
  {
    if |kvs| > 0 {
      SumForNonNegative(kvs[..|kvs| - 1], k);
    }
  }

  /**
   * The legend of the License Types pie lists the drawn keys once each, from the
   * largest total down, in rows whose swatches do not overlap; each row
   * stands for the sum of its key's fields.
   */
  lemma {:induction false} PieLegend(docs: seq<Doc>)
    ensures var kvs := Keyed(Flatten(docs), LicensePrefix);
      var rows := LegendOf(PieData(docs));
      && |rows| == |PieData(docs)|
      && (forall i :: 0 <= i < |rows| ==> rows[i].key == PieData(docs)[i].key && rows[i].key in Keys(kvs))
      && (forall i, j :: 0 <= i < j < |rows| ==>
            rows[i].key != rows[j].key && rows[i].offset + SwatchSize < rows[j].offset &&
            SumFor(kvs, rows[i].key) >= SumFor(kvs, rows[j].key))
  {
    var data := PieData(docs);
    PieDataTotals(docs);
    RankedTotals(Keyed(Flatten(docs), LicensePrefix));
    assert forall i :: 0 <= i < |data| ==> data[i] == Ranked(docs)[i];
    assert SortedDesc(data);
    LegendSpec(data);
  }

  /** `shouldComponentUpdate`: `docs` are not deep-equal, or `loading` or `error` differs. */
  predicate ShouldUpdate(current: LoadState<seq<Doc>>, next: LoadState<seq<Doc>>) {
    !DocsDeepEqual(current.docs, next.docs) || current.loading != next.loading || current.error != next.error
  }

  /**
   * A re-render is skipped only when the documents are deep-equal and the
   * flags agree; it is skipped when the states differ at most in `errorMsg`,
   * and also when the documents' fields are only enumerated in another order.
   */
  lemma {:induction false} ShouldUpdateIgnoresErrorMsgAndFieldOrder(current: LoadState<seq<Doc>>, next: LoadState<seq<Doc>>)
    ensures !ShouldUpdate(current, next) ==>
      DocsDeepEqual(current.docs, next.docs) && current.(docs := next.docs, errorMsg := next.errorMsg) == next
    ensures current.(errorMsg := next.errorMsg) == next ==> !ShouldUpdate(current, next)
    ensures Reordered(current.docs, next.docs) && current.(docs := next.docs, errorMsg := next.errorMsg) == next ==>
      !ShouldUpdate(current, next)
  {
    DocsDeepEqualFacts(current.docs, next.docs, next.docs);
  }

  class LicenseTypesChart {
    var state: LoadState<seq<Doc>>
    var isMounted: bool
    /** The data of each pie drawn so far; every draw appends one more SVG element. */
    var drawn: seq<seq<Entry>>

    constructor ()
      ensures state == Initial([]) && !isMounted && drawn == []
    {
      state := Initial([]);
      isMounted := false;
      drawn := [];
    }

    /** `componentDidMount`: marks the component mounted and starts a load. */
    method Mount()
      modifies this
      ensures isMounted && state == Started(old(state)) && drawn == old(drawn)
    {
      isMounted := true;
      StartLoad();
    }

    /** `componentWillUnmount`. */
    method Unmount()
      modifies this
      ensures !isMounted && state == old(state) && drawn == old(drawn)
    {
      isMounted := false;
    }

    /** The synchronous part of `callApiLoadLicenseTypesData`. */
    method StartLoad()
      modifies this
      ensures state == Started(old(state))
      ensures isMounted == old(isMounted) && drawn == old(drawn)
    {
      state := Started(state);
    }

    /**
     * The request settles. A 200 is used only while mounted; any other
     * response, including a 200 after unmounting, sets the error flag; a
     * rejection does so only while mounted.
     */
    method Resolve(outcome: FetchOutcome<seq<Doc>>)
      modifies this
      ensures isMounted == old(isMounted)
      ensures outcome.Response? && old(isMounted) && outcome.status == StatusOk ==>
        state == Loaded(old(state), outcome.docs) && drawn == old(drawn) + [PieData(outcome.docs)]
      ensures outcome.Response? && !(old(isMounted) && outcome.status == StatusOk) ==>
        state == Failed(old(state)) && drawn == old(drawn)
      ensures outcome.Rejected? ==>
        state == (if old(isMounted) then Failed(old(state)) else old(state)) && drawn == old(drawn)
    {
      match outcome {
        case Response(status, docs) =>
          if isMounted && status == StatusOk {
            state := Loaded(state, docs);
            var result := DrawChartData(docs);
            drawn := drawn + [result];
          } else {
            state := Failed(state);
          }
        case Rejected =>
          if isMounted {
            state := Failed(state);
          }
      }
    }
  }
}
