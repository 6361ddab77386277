/**
 * The Top MIME Types pie chart: totals per `mime_` field, sorted by
 * decreasing total, of which the first `count` are drawn; and the
 * component's load cycle.
 */
module TopMimeTypesChart {
  import opened PrefixTotals
  import opened Ranking
  import opened Fetch
  import opened Legend

  const MimePrefix: string := "mime_"

  /** The number of slices drawn unless the state says otherwise. */
  const InitialCount: int := 10

  /** How many entries the selection loop copies: `count`, lowered to the number of entries. */
  function Shown(count: int, n: nat): nat {
    if count > n then n else if count < 0 then 0 else count
  }

  /** The sorted totals, that is `resultingData` after the sort. */
  function Ranked(docs: seq<Doc>): seq<Entry> {
    RankedOf(Keyed(Flatten(docs), MimePrefix))
  }

  /** The data the chart draws: the first `count` ranked entries. */
  function TopData(docs: seq<Doc>, count: int): seq<Entry> {
    var ranked := Ranked(docs);
    ranked[..Shown(count, |ranked|)]
  }

  /**
   * The clamp of `count` and the loop that copies `resultingData[i - 1]` to
   * `result[i - 1]` for `i` from 1 to `count`.
   */
  method SelectTop(resultingData: seq<Entry>, count0: int) returns (result: seq<Entry>)
    ensures |result| == Shown(count0, |resultingData|)
    ensures result == resultingData[..|result|]
  {
    var count := count0;
    if count > |resultingData| {
      count := |resultingData|;
    }
    result := [];
    var i := 1;
    while i <= count
      invariant 1 <= i
      invariant count <= 0 ==> i == 1
      invariant count > 0 ==> i <= count + 1
      invariant result == resultingData[..i - 1]
    {
      result := result + [resultingData[i - 1]];
      i := i + 1;
    }
  }

  /** `drawChart` up to the data handed to the pie layout. */
  method DrawChartData(docs: seq<Doc>, count: int) returns (result: seq<Entry>)
    ensures result == TopData(docs, count)
  {
    var mime := Accumulate(docs, MimePrefix);
    var resultingData := ToEntries(mime);
    resultingData := SortDesc(resultingData);
    result := SelectTop(resultingData, count);
  }

  /**
   * The drawn slices are the `min(count, number of keys)` largest totals:
   * a prefix of the ranking, each at least as large as any total left out.
   */
  lemma {:induction false} TopDataIsTop(docs: seq<Doc>, count: int)
    ensures var keys := |Totals(docs, MimePrefix).order|;
      |TopData(docs, count)| == if count < 0 then 0 else if count < keys then count else keys
    ensures forall i, j :: 0 <= i < |TopData(docs, count)| <= j < |Ranked(docs)| ==>
      TopData(docs, count)[i].y >= Ranked(docs)[j].y
  {
    var ranked := Ranked(docs);
    SortDescLength(EntriesOf(Totals(docs, MimePrefix)));
    SortDescSorted(EntriesOf(Totals(docs, MimePrefix)));
    assert forall i :: 0 <= i < |TopData(docs, count)| ==> TopData(docs, count)[i] == ranked[i];
  }

  /**
   * Every drawn slice is the total of one key: its value is the sum of the
   * fields carrying that key, and no key is drawn twice.
   */
  lemma {:induction false} TopDataTotals(docs: seq<Doc>, count: int)
    ensures var kvs := Keyed(Flatten(docs), MimePrefix);
      forall i :: 0 <= i < |TopData(docs, count)| ==>
        TopData(docs, count)[i].key in Keys(kvs) &&
        TopData(docs, count)[i].y == SumFor(kvs, TopData(docs, count)[i].key)
    ensures DistinctKeys(TopData(docs, count))
  {
    RankedTotals(Keyed(Flatten(docs), MimePrefix));
    assert forall i :: 0 <= i < |TopData(docs, count)| ==> TopData(docs, count)[i] == Ranked(docs)[i];
  }

  /**
   * The legend of the Top MIME Types pie lists the drawn keys once each, from the
   * largest total down, in rows whose swatches do not overlap; each row
   * stands for the sum of its key's fields.
   */
  lemma {:induction false} TopLegend(docs: seq<Doc>, count: int)
    ensures var kvs := Keyed(Flatten(docs), MimePrefix);
      var rows := LegendOf(TopData(docs, count));
      && |rows| == |TopData(docs, count)|
      && (forall i :: 0 <= i < |rows| ==> rows[i].key == TopData(docs, count)[i].key && rows[i].key in Keys(kvs))
      && (forall i, j :: 0 <= i < j < |rows| ==>
            rows[i].key != rows[j].key && rows[i].offset + SwatchSize < rows[j].offset &&
            SumFor(kvs, rows[i].key) >= SumFor(kvs, rows[j].key))
  {
    var data := TopData(docs, count);
    TopDataTotals(docs, count);
    RankedTotals(Keyed(Flatten(docs), MimePrefix));
    assert forall i :: 0 <= i < |data| ==> data[i] == Ranked(docs)[i];
    assert SortedDesc(data);
    LegendSpec(data);
  }

  /** `this.state`. */
  datatype ChartState = ChartState(docs: seq<Doc>, count: int, loading: bool, error: bool, errorMsg: string)

  const InitialState: ChartState := ChartState([], InitialCount, true, false, DefaultErrorMsg)

  /** `shouldComponentUpdate`: `docs` are not deep-equal, or `count`, `loading` or `error` differs. */
  predicate ShouldUpdate(current: ChartState, next: ChartState) {
    !DocsDeepEqual(current.docs, next.docs) || current.count != next.count ||
    current.loading != next.loading || current.error != next.error
  }

  /**
   * A re-render is skipped only when the documents are deep-equal and the
   * states agree except in `docs` and `errorMsg`; it is skipped when the
   * states differ at most in `errorMsg`, and also when the documents' fields
   * are only enumerated in another order.
   */
  lemma {:induction false} ShouldUpdateIgnoresErrorMsgAndFieldOrder(current: ChartState, next: ChartState)
    ensures !ShouldUpdate(current, next) ==>
      DocsDeepEqual(current.docs, next.docs) && current.(docs := next.docs, errorMsg := next.errorMsg) == next
    ensures current.(errorMsg := next.errorMsg) == next ==> !ShouldUpdate(current, next)
    ensures Reordered(current.docs, next.docs) && current.(docs := next.docs, errorMsg := next.errorMsg) == next ==>
      !ShouldUpdate(current, next)
  {
    DocsDeepEqualFacts(current.docs, next.docs, next.docs);
  }

  class TopMimeTypesChart {
    var state: ChartState
    var isMounted: bool
    /** The data of each pie drawn so far; every draw appends one more SVG element. */
    var drawn: seq<seq<Entry>>

    constructor ()
      ensures state == InitialState && !isMounted && drawn == []
    {
      state := InitialState;
      isMounted := false;
      drawn := [];
    }

    /** `componentDidMount`: marks the component mounted and starts a load. */
    method Mount()
      modifies this
      ensures isMounted
      ensures state == old(state).(loading := true, error := false)
      ensures drawn == old(drawn)
    {
      isMounted := true;
      StartLoad();
    }

    /** `componentWillUnmount`. */
    method Unmount()
      modifies this
      ensures !isMounted && state == old(state) && drawn == old(drawn)
    {
      isMounted := false;
    }

    /** The synchronous part of `callApiLoadSoftwareData`. */
    method StartLoad()
      modifies this
      ensures state == old(state).(loading := true, error := false)
      ensures isMounted == old(isMounted) && drawn == old(drawn)
    {
      state := state.(loading := true, error := false);
    }

    /**
     * The request settles. A 200 is used only while mounted; any other
     * response, including a 200 after unmounting, sets the error flag; a
     * rejection does so only while mounted.
     */
    method Resolve(outcome: FetchOutcome<seq<Doc>>)
      modifies this
      ensures isMounted == old(isMounted)
      ensures outcome.Response? && old(isMounted) && outcome.status == StatusOk ==>
        state == old(state).(docs := outcome.docs, loading := false) &&
        drawn == old(drawn) + [TopData(outcome.docs, old(state).count)]
      ensures outcome.Response? && !(old(isMounted) && outcome.status == StatusOk) ==>
        state == old(state).(loading := false, error := true) && drawn == old(drawn)
      ensures outcome.Rejected? && old(isMounted) ==>
        state == old(state).(loading := false, error := true) && drawn == old(drawn)
      ensures outcome.Rejected? && !old(isMounted) ==>
        state == old(state) && drawn == old(drawn)
    {
      match outcome {
        case Response(status, docs) =>
          if isMounted && status == StatusOk {
            state := state.(docs := docs, loading := false);
            var result := DrawChartData(docs, state.count);
            drawn := drawn + [result];
          } else {
            state := state.(loading := false, error := true);
          }
        case Rejected =>
          if isMounted {
            state := state.(loading := false, error := true);
          }
      }
    }
  }
}
