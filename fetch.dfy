/**
 * What a view's request can come back with, and the part of `this.state`
 * every view shares. The network call itself is not modelled: the promise
 * settles either with a response (its HTTP status and the documents under
 * `data.response.docs`) or by being rejected.
 */
module Fetch {
  datatype FetchOutcome<T> = Response(status: int, docs: T) | Rejected

  /** The status the views treat as success. */
  const StatusOk: int := 200

  /** The message every view shows when a request fails. */
  const DefaultErrorMsg: string := "Error fetching data"

  /** `this.state` of the chart views: the loaded documents and the load flags. */
  datatype LoadState<T> = LoadState(docs: T, loading: bool, error: bool, errorMsg: string)

  /** The state a view starts in: nothing loaded yet, a load pending. */
  function Initial<T>(empty: T): LoadState<T> {
    LoadState(empty, true, false, DefaultErrorMsg)
  }

  /** `setState({loading: true, error: false})` when a load starts. */
  function Started<T>(s: LoadState<T>): LoadState<T> {
    s.(loading := true, error := false)
  }

  /** `setState({docs, loading: false})` on success. */
  function Loaded<T>(s: LoadState<T>, docs: T): LoadState<T> {
    s.(docs := docs, loading := false)
  }

  /** `setState({loading: false, error: true})` on failure. */
  function Failed<T>(s: LoadState<T>): LoadState<T> {
    s.(loading := false, error := true)
  }

  /**
   * `shouldComponentUpdate` of a view whose documents are records with a
   * fixed set of fields, where deep equality is equality: the documents
   * differ, or `loading` or `error` changed.
   */
  predicate ShouldUpdate<T(==)>(current: LoadState<T>, next: LoadState<T>) {
    current.docs != next.docs || current.loading != next.loading || current.error != next.error
  }

  /** A re-render is skipped exactly when the states differ at most in `errorMsg`. */
  lemma {:induction false} ShouldUpdateIgnoresOnlyErrorMsg<T>(current: LoadState<T>, next: LoadState<T>)
    ensures !ShouldUpdate(current, next) <==> current.(errorMsg := next.errorMsg) == next
  {
  }
}
