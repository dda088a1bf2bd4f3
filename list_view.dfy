/**
 * The List component: the scroll handler that triggers pagination by itself, and the
 * conditions under which the loading indicator, the "More" button and the error panel with
 * "Try Again" are rendered. Its props are the App's state.
 */
module ListView {
  import opened Wrappers
  import opened SearchState
  import opened SearchApp

  /** The viewport's bottom edge is within 500 pixels of the bottom of the document. */
  predicate NearBottom(innerHeight: int, pageYOffset: int, bodyOffsetHeight: int) {
    innerHeight + pageYOffset >= bodyOffsetHeight - 500
  }

  /** The guard of `onScroll`: near the bottom, some hits, no request pending, no error. */
  predicate ScrollFires(nearBottom: bool, list: seq<Item>, isLoading: bool, isError: bool) {
    nearBottom && |list| != 0 && !isLoading && !isError
  }

  predicate ShowsLoading(isLoading: bool) {
    isLoading
  }

  /** The "More" button is rendered once there is a page. */
  predicate ShowsMore(page: Option<nat>) {
    page != None
  }

  /** The error panel with its "Try Again" button. */
  predicate ShowsErrorPanel(page: Option<nat>, isLoading: bool, isError: bool) {
    page != None && !isLoading && isError
  }

  /** `onScroll`: evaluated afresh on every scroll event, calls `onPaginatedSearch` when the guard holds. */
  method OnScroll(app: App, innerHeight: int, pageYOffset: int, bodyOffsetHeight: int, value: string)
    returns (req: Option<Request>)
    requires app.Valid()
    modifies app
    ensures app.Valid()
    ensures var s := old(app.Snapshot());
      if ScrollFires(NearBottom(innerHeight, pageYOffset, bodyOffsetHeight), s.hits, s.isLoading, s.isError)
      then app.Snapshot() == Step(s, Paginate(value)) && req == Issued(s, Paginate(value))
      else app.Snapshot() == s && req == None
    ensures req.Some? ==> old(app.page).Some? && req == Some(Fetch(value, old(app.page).value + 1))
  {
    if NearBottom(innerHeight, pageYOffset, bodyOffsetHeight) && |app.hits| != 0 && !app.isLoading && !app.isError {
      var r := app.OnPaginatedSearch(value);
      req := Some(r);
    } else {
      req := None;
    }
  }

  /** The guard never fires while a request is pending or after an error. */
  lemma ScrollBlockedWhileLoadingOrError(nearBottom: bool, s: State)
    requires s.isLoading || s.isError
    ensures !ScrollFires(nearBottom, s.hits, s.isLoading, s.isError)
  {
  }

  /**
   * In every reachable state the guard fires only when there is a page, so the scroll always
   * asks for the page after the current one (never the `null + 1` page).
   */
  lemma ScrollRequestsFollowingPage(events: seq<Event>, nearBottom: bool, value: string)
    requires var s := Run(Initial, events); ScrollFires(nearBottom, s.hits, s.isLoading, s.isError)
    ensures var s := Run(Initial, events);
      s.page.Some? && ShowsMore(s.page)
      && Issued(s, Paginate(value)) == Some(Fetch(value, s.page.value + 1))
  {
    ReachableConsistent(events);
  }

  /**
   * After a failure, automatic pagination stays suspended through any number of dispatches
   * and further failures, until a success is folded in.
   */
  lemma ScrollSuspendedUntilSuccess(s: State, events: seq<Event>, nearBottom: bool)
    requires s.isError
    requires forall i :: 0 <= i < |events| ==> !events[i].Resolve?
    ensures var t := Run(s, events); !ScrollFires(nearBottom, t.hits, t.isLoading, t.isError)
  {
    ErrorPersistsUntilSuccess(s, events);
  }

  /** At start neither the loading indicator, "More", nor the error panel is rendered. */
  lemma InitialShowsNothing()
    ensures !ShowsLoading(Initial.isLoading) && !ShowsMore(Initial.page)
    ensures !ShowsErrorPanel(Initial.page, Initial.isLoading, Initial.isError)
  {
  }

  /** "Try Again" is reachable only with an error and a page, and only when "More" is shown too. */
  lemma ErrorPanelNeedsErrorAndPage(page: Option<nat>, isLoading: bool, isError: bool)
    requires ShowsErrorPanel(page, isLoading, isError)
    ensures isError && page.Some? && !isLoading && ShowsMore(page)
  {
  }

  /**
   * A failure shows the error panel exactly when a page was already there: a failed first
   * search renders neither the panel nor "More".
   */
  lemma ErrorPanelAfterFailure(s: State)
    ensures var t := FoldError(s);
      ShowsErrorPanel(t.page, t.isLoading, t.isError) <==> s.page.Some?
    ensures var t := FoldError(s); ShowsMore(t.page) <==> s.page.Some?
  {
  }

  /** While a retry is loading, the panel is hidden although the error is still set. */
  lemma RetryHidesErrorPanelWhileLoading(s: State, value: string)
    requires s.isError
    ensures var t := Step(s, Paginate(value));
      t.isError && ShowsLoading(t.isLoading) && !ShowsErrorPanel(t.page, t.isLoading, t.isError)
  {
  }
}
