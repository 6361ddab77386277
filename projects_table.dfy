/**
 * The Projects table: the projects the license service knows, their
 * search filters, and a load cycle with no mounted guard.
 */
module ProjectsTable {
  import opened Wrappers
  import opened Text
  import opened Fetch
  import opened TableSearch

  /**
   * A project document as the license service returns it. The id is the
   * index's unique key and always present; any other field may be missing
   * (`None`).
   */
  datatype ProjectDoc = ProjectDoc(id: string, repo: Option<string>, name: Option<string>, description: Option<string>)

  /** A table row: every field of the document plus the React `key`. */
  datatype ProjectRow = ProjectRow(doc: ProjectDoc, key: string)

  /** The columns of the table, each with a search dropdown. */
  datatype ProjectColumn = Repository | Name | Description

  /** `record[dataIndex]`, `None` where the field is missing. */
  function Cell(row: ProjectRow, column: ProjectColumn): Option<string> {
    match column
    case Repository => row.doc.repo
    case Name => row.doc.name
    case Description => row.doc.description
  }

  /**
   * `onFilter`: whether the row passes, or `None` where
   * `record[dataIndex].toString()` throws on a missing field.
   */
  function OnFilter(column: ProjectColumn, value: string, row: ProjectRow): Option<bool> {
    match Cell(row, column)
    case None => None
    case Some(text) => Some(MatchesSearch(text, value))
  }

  /**
   * The search throws exactly on a row whose cell is missing. Otherwise a
   * row passes exactly when the lower-cased query occurs in the lower-cased
   * cell; the empty query passes every row, and a query typed exactly as it
   * appears in the cell passes it.
   */
  lemma {:induction false} OnFilterSpec(column: ProjectColumn, value: string, row: ProjectRow)
    ensures OnFilter(column, value, row).None? <==> Cell(row, column).None?
    ensures Cell(row, column).Some? ==>
      (OnFilter(column, value, row) == Some(true) <==>
       exists i :: 0 <= i <= |Cell(row, column).value| &&
         OccursAt(Lower(Cell(row, column).value), Lower(value), i))
    ensures Cell(row, column).Some? && value == "" ==> OnFilter(column, value, row) == Some(true)
    ensures Cell(row, column).Some? ==>
      (exists i :: 0 <= i <= |Cell(row, column).value| && OccursAt(Cell(row, column).value, value, i)) ==>
      OnFilter(column, value, row) == Some(true)
  {
    if Cell(row, column).Some? {
      var text := Cell(row, column).value;
      MatchesSearchIff(text, value);
      EmptyQueryMatchesAll(text);
      forall i | 0 <= i <= |text| && OccursAt(text, value, i)
        ensures OnFilter(column, value, row) == Some(true)
      {
        OccurrenceMatches(text, value, i);
      }
    }
  }

  /** `docs.map(doc => ({...doc, key: doc.id}))`. */
  function Rows(docs: seq<ProjectDoc>): (rows: seq<ProjectRow>)
    ensures |rows| == |docs|
  {
    seq(|docs|, i requires 0 <= i < |docs| => ProjectRow(docs[i], docs[i].id))
  }

  /**
   * The rows keep every document, in order, and each row's key is its id;
   * so rows of documents with distinct ids have distinct keys.
   */
  lemma {:induction false} RowsKeepDocs(docs: seq<ProjectDoc>)
    ensures forall i :: 0 <= i < |docs| ==> Rows(docs)[i].doc == docs[i] && Rows(docs)[i].key == docs[i].id
    ensures (forall i, j :: 0 <= i < j < |docs| ==> docs[i].id != docs[j].id) ==>
      forall i, j :: 0 <= i < j < |docs| ==> Rows(docs)[i].key != Rows(docs)[j].key
  {
  }

  /** `this.state`. */
  datatype TableState = TableState(
    docs: seq<ProjectRow>, searchText: Option<string>, loading: bool, error: bool, errorMsg: string)

  const InitialState: TableState := TableState([], NoSearch, true, false, DefaultErrorMsg)

  /** The rows per page of antd's `Table` when no `pagination` is given. */
  const PageSize: nat := 10

  /** A row whose three cells are all present. */
  predicate Complete(row: ProjectRow) {
    row.doc.repo.Some? && row.doc.name.Some? && row.doc.description.Some?
  }

  /** A row is complete exactly when none of its cells is missing. */
  lemma {:induction false} CompleteIffCells(row: ProjectRow)
    ensures Complete(row) <==> forall column :: Cell(row, column).Some?
  {
    if !Complete(row) {
      if row.doc.repo.None? {
        assert Cell(row, Repository).None?;
      } else if row.doc.name.None? {
        assert Cell(row, Name).None?;
      } else {
        assert Cell(row, Description).None?;
      }
    }
  }

  /**
   * Whether the table's first page, the rows the `Table` renders with no
   * filter active, renders: each of its cells goes through
   * `text.toString()` without a guard, which throws on a missing field.
   */
  predicate FirstPageRenders(rows: seq<ProjectRow>) {
    forall i :: 0 <= i < |rows| && i < PageSize ==> Complete(rows[i])
  }

  /** What `render` shows; `RenderThrows` where rendering a cell throws. */
  datatype TableView = LoadingText | ErrorResult(title: string) | RowsView(rows: seq<ProjectRow>) | RenderThrows

  function View(s: TableState): (v: TableView)
    ensures v.LoadingText? <==> s.loading
    ensures v.ErrorResult? <==> !s.loading && s.error
    ensures v.RenderThrows? <==>
      !s.loading && !s.error && exists i :: 0 <= i < |s.docs| && i < PageSize && !Complete(s.docs[i])
    ensures v.RowsView? ==> v.rows == s.docs
  {
    if s.loading then LoadingText
    else if s.error then ErrorResult(s.errorMsg)
    else if FirstPageRenders(s.docs) then RowsView(s.docs)
    else RenderThrows
  }

  /**
   * The first page of the rows renders exactly when the first `PageSize`
   * documents have every field; documents further on do not matter.
   */
  lemma {:induction false} RowsRenderIff(docs: seq<ProjectDoc>, more: seq<ProjectDoc>)
    ensures FirstPageRenders(Rows(docs)) <==>
      forall i :: 0 <= i < |docs| && i < PageSize ==>
        docs[i].repo.Some? && docs[i].name.Some? && docs[i].description.Some?
    ensures |docs| >= PageSize ==> (FirstPageRenders(Rows(docs + more)) <==> FirstPageRenders(Rows(docs)))
  {
    RowsKeepDocs(docs);
    RowsKeepDocs(docs + more);
    if |docs| >= PageSize {
      assert forall i :: 0 <= i < PageSize ==> (docs + more)[i] == docs[i];
    }
  }

  class ProjectsTable {
    var state: TableState

    constructor ()
      ensures state == InitialState
    {
      state := InitialState;
    }

    /** `componentDidMount`: starts a load. */
    method Mount()
      modifies this
      ensures state == old(state).(loading := true, error := false)
    {
      StartLoad();
    }

    /** The synchronous part of `callApiLoadData`, also run by the Refresh button. */
    method StartLoad()
      modifies this
      ensures state == old(state).(loading := true, error := false)
    {
      state := state.(loading := true, error := false);
    }

    /**
     * The request settles and its outcome is applied at any time: a 200
     * replaces the rows, anything else sets the error flag and keeps the
     * rows.
     */
    method Resolve(outcome: FetchOutcome<seq<ProjectDoc>>)
      modifies this
      ensures outcome.Response? && outcome.status == StatusOk ==>
        state == old(state).(docs := Rows(outcome.docs), loading := false)
      ensures !(outcome.Response? && outcome.status == StatusOk) ==>
        state == old(state).(loading := false, error := true)
    {
      match outcome {
        case Response(status, docs) =>
          if status == StatusOk {
            state := state.(docs := Rows(docs), loading := false);
          } else {
            state := state.(loading := false, error := true);
          }
        case Rejected =>
          state := state.(loading := false, error := true);
      }
    }

    /**
     * `callApiLoadData` from start to end: when the request succeeds the
     * table shows one row per document, whatever it showed before, unless
     * a document on the first page lacks a field and rendering throws; when
     * it fails it shows the error and keeps the rows it had.
     */
    method Reload(outcome: FetchOutcome<seq<ProjectDoc>>)
      modifies this
      ensures outcome.Response? && outcome.status == StatusOk ==>
        View(state) == (if FirstPageRenders(Rows(outcome.docs)) then RowsView(Rows(outcome.docs)) else RenderThrows)
      ensures !(outcome.Response? && outcome.status == StatusOk) ==>
        View(state) == ErrorResult(old(state).errorMsg) && state.docs == old(state).docs
    {
      StartLoad();
      Resolve(outcome);
    }

    /** `handleSearch`: stores the first selected key as the search text. */
    method HandleSearch(selectedKeys: seq<string>)
      modifies this
      ensures state == old(state).(searchText := FirstSelected(selectedKeys))
    {
      state := state.(searchText := FirstSelected(selectedKeys));
    }

    /** `handleReset`: clears the search text. */
    method HandleReset()
      modifies this
      ensures state == old(state).(searchText := NoSearch)
    {
      state := state.(searchText := NoSearch);
    }
  }
}
