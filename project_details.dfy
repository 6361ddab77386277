/**
 * The Project Details drawer: the file table of one project, its search,
 * license and length filters, and the load cycle guarded by `_isMounted`.
 */
module ProjectDetails {
  import opened Wrappers
  import opened Text
  import opened Fetch
  import opened TableSearch

  /**
   * A file document as the license service returns it. The id is the
   * index's unique key and always present; any other field may be missing
   * (`None`).
   */
  datatype FileDoc = FileDoc(id: string, mimetype: Option<string>, license: Option<string>, header: Option<string>)

  /** A table row: every field of the document plus the React `key`. */
  datatype FileRow = FileRow(doc: FileDoc, key: string)

  /** The columns of the file table. */
  datatype FileColumn = Location | MimeType | License | Header

  /** `record[dataIndex]`: the cell of a row in a column, `None` where the field is missing. */
  function Cell(row: FileRow, column: FileColumn): Option<string> {
    match column
    case Location => Some(row.doc.id)
    case MimeType => row.doc.mimetype
    case License => row.doc.license
    case Header => row.doc.header
  }

  /** The columns that carry a search dropdown. */
  predicate Searchable(column: FileColumn) {
    column != License
  }

  /**
   * `onFilter` of a searchable column: whether the row passes, or `None`
   * where `record[dataIndex].toString()` throws on a missing field.
   */
  function OnFilter(column: FileColumn, value: string, row: FileRow): Option<bool>
    requires Searchable(column)
  {
    match Cell(row, column)
    case None => None
    case Some(text) => Some(MatchesSearch(text, value))
  }

  /**
   * The search throws exactly on a row whose cell is missing. Otherwise a
   * row passes exactly when the lower-cased query occurs in the lower-cased
   * cell, and the empty query passes every row.
   */
  lemma {:induction false} OnFilterSpec(column: FileColumn, value: string, row: FileRow)
    requires Searchable(column)
    ensures OnFilter(column, value, row).None? <==> Cell(row, column).None?
    ensures Cell(row, column).Some? ==>
      (OnFilter(column, value, row) == Some(true) <==>
       exists i :: 0 <= i <= |Cell(row, column).value| &&
         OccursAt(Lower(Cell(row, column).value), Lower(value), i))
    ensures Cell(row, column).Some? && value == "" ==> OnFilter(column, value, row) == Some(true)
  {
    if Cell(row, column).Some? {
      MatchesSearchIff(Cell(row, column).value, value);
      EmptyQueryMatchesAll(Cell(row, column).value);
    }
  }

  /** The values of the License column's filter menu. */
  const LicenseFilters: seq<string> :=
    ["Standard", "Unknown", "Apache", "Binaries", "Generated", "Notes", "Archives"]

  /**
   * `onFilter` of the License column, `record.license.indexOf(value) === 0`,
   * or `None` where a missing license throws.
   */
  function LicenseFilter(value: string, row: FileRow): Option<bool> {
    match row.doc.license
    case None => None
    case Some(license) => Some(IndexOf(license, value) == 0)
  }

  /**
   * The License column's filter throws exactly on a row without a license,
   * and otherwise accepts it exactly when its license starts with the value.
   */
  lemma {:induction false} LicenseFilterSpec(value: string, row: FileRow)
    ensures LicenseFilter(value, row).None? <==> row.doc.license.None?
    ensures row.doc.license.Some? ==>
      (LicenseFilter(value, row) == Some(true) <==> StartsWith(row.doc.license.value, value))
  {
    if row.doc.license.Some? {
      IndexOfZeroIffStartsWith(row.doc.license.value, value);
    }
  }

  /** No license starts with two of the menu's values, so at most one menu entry accepts a row. */
  lemma {:induction false} LicenseFiltersExclusive(row: FileRow, i: nat, j: nat)
    requires i < j < |LicenseFilters|
    ensures !(LicenseFilter(LicenseFilters[i], row) == Some(true) && LicenseFilter(LicenseFilters[j], row) == Some(true))
  {
    LicenseFilterSpec(LicenseFilters[i], row);
    LicenseFilterSpec(LicenseFilters[j], row);
    if row.doc.license.Some? {
      StartsWithFirstTwo(row.doc.license.value, LicenseFilters[i]);
      StartsWithFirstTwo(row.doc.license.value, LicenseFilters[j]);
    }
  }

  lemma {:induction false} StartsWithFirstTwo(s: string, p: string)
    requires |p| >= 2
    ensures StartsWith(s, p) ==> s[0] == p[0] && s[1] == p[1]
  {
    if StartsWith(s, p) {
      assert s[..|p|][0] == s[0] && s[..|p|][1] == s[1];
    }
  }

  /**
   * The `sorter` of a column: the difference of the cells' lengths, or
   * `None` where either row's `.length` throws on a missing field.
   */
  function Sorter(column: FileColumn, a: FileRow, b: FileRow): Option<int> {
    if Cell(a, column).None? || Cell(b, column).None? then None
    else Some(ByLength(Cell(a, column).value, Cell(b, column).value))
  }

  /**
   * Every column's comparator throws exactly when one of the two cells is
   * missing; on present cells it has the sign of the difference of their
   * lengths, and it is an ordering.
   */
  lemma {:induction false} SorterSpec(column: FileColumn, a: FileRow, b: FileRow, c: FileRow)
    ensures Sorter(column, a, b).None? <==> Cell(a, column).None? || Cell(b, column).None?
    ensures Sorter(column, a, b).Some? ==>
      (Sorter(column, a, b).value < 0 <==>
       Utf16Length(Cell(a, column).value) < Utf16Length(Cell(b, column).value))
    ensures Sorter(column, a, b).Some? ==>
      (Sorter(column, a, b).value == 0 <==>
       Utf16Length(Cell(a, column).value) == Utf16Length(Cell(b, column).value))
    ensures Sorter(column, a, b).Some? ==> Sorter(column, a, b).value == -Sorter(column, b, a).value
    ensures Sorter(column, a, b).Some? && Sorter(column, b, c).Some? ==>
      (Sorter(column, a, b).value <= 0 && Sorter(column, b, c).value <= 0 ==> Sorter(column, a, c).value <= 0)
  {
    if Cell(a, column).Some? && Cell(b, column).Some? && Cell(c, column).Some? {
      ByLengthIsOrdering(Cell(a, column).value, Cell(b, column).value, Cell(c, column).value);
    } else if Cell(a, column).Some? && Cell(b, column).Some? {
      ByLengthIsOrdering(Cell(a, column).value, Cell(b, column).value, Cell(b, column).value);
    }
  }

  /** `docs.map(doc => ({...doc, key: Helpers.uid(doc.id)}))`, the key generator given as `uid`. */
  function Rows(docs: seq<FileDoc>, uid: string -> string): (rows: seq<FileRow>)
    ensures |rows| == |docs|
  {
    seq(|docs|, i requires 0 <= i < |docs| => FileRow(docs[i], uid(docs[i].id)))
  }

  /**
   * The rows keep every document, in order, and each key is generated from
   * its row's id.
   */
  lemma {:induction false} RowsKeepDocs(docs: seq<FileDoc>, uid: string -> string)
    ensures forall i :: 0 <= i < |docs| ==> Rows(docs, uid)[i].doc == docs[i] && Rows(docs, uid)[i].key == uid(docs[i].id)
  {
  }

  /** `this.state`. */
  datatype DetailsState = DetailsState(
    fileDocs: seq<FileRow>, searchText: Option<string>, loading: bool, error: bool, errorMsg: string)

  const InitialState: DetailsState := DetailsState([], NoSearch, true, false, DefaultErrorMsg)

  /** `shouldComponentUpdate`. */
  predicate ShouldUpdate(current: DetailsState, next: DetailsState) {
    current.fileDocs != next.fileDocs || current.searchText != next.searchText ||
    current.loading != next.loading || current.error != next.error
  }

  /** A re-render is skipped exactly when the states differ at most in `errorMsg`. */
  lemma {:induction false} ShouldUpdateIgnoresOnlyErrorMsg(current: DetailsState, next: DetailsState)
    ensures !ShouldUpdate(current, next) <==> current.(errorMsg := next.errorMsg) == next
  {
  }

  /** What `renderFileDetails` shows below its title. */
  datatype FileView = Skeleton | ErrorView(text: string) | TableView(rows: seq<FileRow>)

  function View(s: DetailsState): (v: FileView)
    ensures v.Skeleton? <==> s.loading
    ensures v.ErrorView? <==> !s.loading && s.error
    ensures v.TableView? ==> v.rows == s.fileDocs
  {
    if s.loading then Skeleton else if s.error then ErrorView(s.errorMsg) else TableView(s.fileDocs)
  }

  class ProjectDetails {
    var state: DetailsState
    var isMounted: bool
    /** `props.item.repo`: the project whose files are requested. */
    const repo: string

    constructor (repo: string)
      ensures state == InitialState && !isMounted && this.repo == repo
    {
      state := InitialState;
      isMounted := false;
      this.repo := repo;
    }

    /** `componentDidMount`: marks the drawer mounted and starts a load. */
    method Mount()
      modifies this
      ensures isMounted && state == old(state).(loading := true, error := false)
    {
      isMounted := true;
      StartLoad();
    }

    /** `componentWillUnmount`. */
    method Unmount()
      modifies this
      ensures !isMounted && state == old(state)
    {
      isMounted := false;
    }

    /** The synchronous part of `callApiLoadFileDetails`, also run by the error message's retry. */
    method StartLoad()
      modifies this
      ensures state == old(state).(loading := true, error := false) && isMounted == old(isMounted)
    {
      state := state.(loading := true, error := false);
    }

    /**
     * The request settles. While mounted, a 200 stores the keyed rows and any
     * other outcome sets the error flag; once unmounted nothing changes.
     */
    method Resolve(outcome: FetchOutcome<seq<FileDoc>>, uid: string -> string)
      modifies this
      ensures isMounted == old(isMounted)
      ensures !old(isMounted) ==> state == old(state)
      ensures old(isMounted) && outcome.Response? && outcome.status == StatusOk ==>
        state == old(state).(fileDocs := Rows(outcome.docs, uid), loading := false)
      ensures old(isMounted) && !(outcome.Response? && outcome.status == StatusOk) ==>
        state == old(state).(loading := false, error := true)
    {
      match outcome {
        case Response(status, docs) =>
          if isMounted && status == StatusOk {
            state := state.(fileDocs := Rows(docs, uid), loading := false);
          } else {
            if isMounted {
              state := state.(loading := false, error := true);
            }
          }
        case Rejected =>
          if isMounted {
            state := state.(loading := false, error := true);
          }
      }
    }

    /**
     * `callApiLoadFileDetails` from start to end. While mounted, a request
     * that succeeds shows the table with one row per document and one that
     * fails shows the error message; once unmounted the skeleton stays.
     */
    method Reload(outcome: FetchOutcome<seq<FileDoc>>, uid: string -> string)
      modifies this
      ensures isMounted == old(isMounted)
      ensures old(isMounted) && outcome.Response? && outcome.status == StatusOk ==>
        View(state) == TableView(Rows(outcome.docs, uid))
      ensures old(isMounted) && !(outcome.Response? && outcome.status == StatusOk) ==>
        View(state) == ErrorView(old(state).errorMsg)
      ensures !old(isMounted) ==> View(state) == Skeleton
    {
      StartLoad();
      Resolve(outcome, uid);
    }

    /** `handleSearch`: stores the first selected key as the search text. */
    method HandleSearch(selectedKeys: seq<string>)
      modifies this
      ensures state == old(state).(searchText := FirstSelected(selectedKeys)) && isMounted == old(isMounted)
    {
      state := state.(searchText := FirstSelected(selectedKeys));
    }

    /** `handleReset`: clears the search text. */
    method HandleReset()
      modifies this
      ensures state == old(state).(searchText := NoSearch) && isMounted == old(isMounted)
    {
      state := state.(searchText := NoSearch);
    }
  }
}
