/**
 * The search state of the App component and the three updaters that fold a response into
 * it. React's `setState(updater)` merges the partial object the updater returns into the
 * current state: a key the update leaves out keeps its current value.
 */
module SearchState {
  import opened Wrappers

  /** A hit as the search API returns it; the core never inspects or transforms it. */
  datatype Item = Item(objectID: string, url: string, title: string)

  /** The JSON body of a successful response: its hits and the page it served. */
  datatype SearchResult = SearchResult(hits: seq<Item>, page: nat)

  /** `this.state`; `page == None` is JavaScript's `null`, before any successful search. */
  datatype State = State(hits: seq<Item>, page: Option<nat>, isLoading: bool, isError: bool)

  /** The state the constructor installs. */
  const Initial: State := State([], None, false, false)

  /** A partial state object handed to `setState`; `None` marks a key it leaves out. */
  datatype Update = Update(
    hits: Option<seq<Item>>,
    page: Option<Option<nat>>,
    isLoading: Option<bool>,
    isError: Option<bool>)

  /** `setState`'s shallow merge of a partial update into the state. */
  function Merge(s: State, u: Update): State {
    State(u.hits.GetOr(s.hits), u.page.GetOr(s.page), u.isLoading.GetOr(s.isLoading), u.isError.GetOr(s.isError))
  }

  /** `applyUpdateResult(result)(prevState)`: appends the new hits to the previous ones. */
  function ApplyUpdateResult(result: SearchResult, prev: State): Update {
    Update(Some(prev.hits + result.hits), Some(Some(result.page)), Some(false), Some(false))
  }

  /** `applySetResult(result)`: replaces the hits, whatever they were. */
  function ApplySetResult(result: SearchResult): Update {
    Update(Some(result.hits), Some(Some(result.page)), Some(false), Some(false))
  }

  /** `applySetError`: only `isError` and `isLoading`; hits and page are not keys of it. */
  function ApplySetError(prev: State): Update {
    Update(None, None, Some(false), Some(true))
  }

  /** The literal `{isLoading: true}` that `fetchStories` hands to `setState`. */
  const StartLoading: Update := Update(None, None, Some(true), None)

  /** The state right after a request is dispatched. */
  function Dispatch(s: State): State {
    Merge(s, StartLoading)
  }

  /**
   * `onSetResult(result, page)`: the response to a request for page 0 replaces the hits,
   * any other response appends to them. `page` is the page that was requested, not the
   * page the response reports.
   */
  function FoldResult(s: State, result: SearchResult, page: nat): (r: State)
    ensures r.page == Some(result.page) && !r.isLoading && !r.isError
    ensures page == 0 ==> r.hits == result.hits
    ensures page != 0 ==> |r.hits| == |s.hits| + |result.hits|
    ensures page != 0 ==> r.hits[..|s.hits|] == s.hits && r.hits[|s.hits|..] == result.hits
  {
    if page == 0 then Merge(s, ApplySetResult(result)) else Merge(s, ApplyUpdateResult(result, s))
  }

  /** `onSetError`: the state after a request failed. */
  function FoldError(s: State): State {
    Merge(s, ApplySetError(s))
  }

  /**
   * The invariant the transitions keep: without a page (before any successful response)
   * there are no hits either.
   */
  predicate Consistent(s: State) {
    s.page.None? ==> s.hits == []
  }

  lemma InitialConsistent()
    ensures Consistent(Initial) && !Initial.isLoading && !Initial.isError
  {
  }

  /** Dispatching sets `isLoading` and nothing else; a previous error stays set while loading. */
  lemma DispatchOnlyStartsLoading(s: State)
    ensures Dispatch(s) == s.(isLoading := true)
    ensures Dispatch(s).isError == s.isError
  {
  }

  /** A response to page 0 replaces the hits, whatever came before. */
  lemma SetResultReplaces(s: State, result: SearchResult)
    ensures FoldResult(s, result, 0) == State(result.hits, Some(result.page), false, false)
  {
  }

  /** A response to a later page appends its hits after the old ones, which keep their order. */
  lemma UpdateResultAppends(s: State, result: SearchResult, page: nat)
    requires page != 0
    ensures FoldResult(s, result, page) == State(s.hits + result.hits, Some(result.page), false, false)
  {
  }

  /** A failure sets the error, ends loading, and leaves hits and page as they were. */
  lemma ErrorKeepsResults(s: State)
    ensures FoldError(s) == s.(isLoading := false, isError := true)
  {
  }

  /** Each transition keeps `Consistent`. */
  lemma TransitionsKeepConsistent(s: State, result: SearchResult, page: nat)
    requires Consistent(s)
    ensures Consistent(Dispatch(s))
    ensures Consistent(FoldResult(s, result, page))
    ensures Consistent(FoldError(s))
  {
  }

  /** Once a response (success or failure) is folded in, loading and error are not both set. */
  lemma CompletedNotLoadingAndError(s: State, result: SearchResult, page: nat)
    ensures !FoldResult(s, result, page).isLoading && !FoldError(s).isLoading
    ensures FoldError(s).isError && !FoldResult(s, result, page).isError
  {
  }
}
