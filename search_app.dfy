/**
 * The App component as a controller: its state fields, the dispatch methods that issue a
 * request, and the callbacks that fold a response or a failure into the state. The network
 * is outside the model: a dispatch returns the request it would hand to `fetch`, and the
 * later success or failure arrives as a call of `OnSetResult` or `OnSetError`.
 */
module SearchApp {
  import opened Wrappers
  import opened SearchState
  import opened HackerNewsUrl

  /** What `fetchStories` sends: the target URL, and the page its success callback is keyed by. */
  datatype Request = Request(url: string, page: nat)

  function Fetch(value: string, page: nat): Request {
    Request(GetHackerNewsUrl(value, page), page)
  }

  /** `this.state.page + 1`; in JavaScript `null + 1` is `1`. */
  function NextPage(page: Option<nat>): nat {
    match page
    case None => 1
    case Some(p) => p + 1
  }

  /**
   * The events the component reacts to, one callback at a time: a submitted search with the
   * input's text, a pagination request ("More", "Try Again" or the scroll guard) with the
   * input's current text, a success for a requested page, and a failure. Responses may be
   * applied in any order, and not necessarily one per request.
   */
  datatype Event =
    | Submit(value: string)
    | Paginate(value: string)
    | Resolve(result: SearchResult, page: nat)
    | Reject

  /** The state after one event. */
  function Step(s: State, e: Event): State {
    match e
    case Submit(value) => if value == "" then s else Dispatch(s)
    case Paginate(_) => Dispatch(s)
    case Resolve(result, page) => FoldResult(s, result, page)
    case Reject => FoldError(s)
  }

  /** The request an event sends, if any. */
  function Issued(s: State, e: Event): Option<Request> {
    match e
    case Submit(value) => if value == "" then None else Some(Fetch(value, 0))
    case Paginate(value) => Some(Fetch(value, NextPage(s.page)))
    case Resolve(_, _) => None
    case Reject => None
  }

  /** The state after a sequence of events, applied in order. */
  function Run(s: State, events: seq<Event>): State
    decreases |events|
  {
    if events == [] then s else Run(Step(s, events[0]), events[1..])
  }

  /** An empty search text (no trimming) changes nothing and sends nothing. */
  lemma EmptySubmitIsNoOp(s: State)
    ensures Step(s, Submit("")) == s && Issued(s, Submit("")) == None
  {
  }

  /** Any other text sends exactly one request, for page 0, and only starts loading. */
  lemma SubmitRequestsPageZero(s: State, value: string)
    requires value != ""
    ensures Issued(s, Submit(value)) == Some(Request(GetHackerNewsUrl(value, 0), 0))
    ensures Step(s, Submit(value)) == s.(isLoading := true)
  {
  }

  /** Pagination asks for the page after the current one, with the input's current text. */
  lemma PaginateRequestsFollowingPage(s: State, value: string)
    requires s.page.Some?
    ensures Issued(s, Paginate(value)) == Some(Request(GetHackerNewsUrl(value, s.page.value + 1), s.page.value + 1))
    ensures Step(s, Paginate(value)) == s.(isLoading := true)
  {
  }

  lemma {:induction false} RunConcat(s: State, first: seq<Event>, second: seq<Event>)
    ensures Run(s, first + second) == Run(Run(s, first), second)
    decreases |first|
  {
    if first == [] {
      assert first + second == second;
    } else {
      assert (first + second)[0] == first[0];
      assert (first + second)[1..] == first[1..] + second;
      RunConcat(Step(s, first[0]), first[1..], second);
    }
  }

  /**
   * Responses are applied in completion order and the last one wins: whatever happened
   * before, the final success alone decides the page and the flags, and for page 0 the hits.
   */
  lemma LastResponseWins(s: State, events: seq<Event>, result: SearchResult, page: nat)
    ensures Run(s, events + [Resolve(result, page)]) == FoldResult(Run(s, events), result, page)
    ensures page == 0 ==> Run(s, events + [Resolve(result, page)]).hits == result.hits
  {
    var before := Run(s, events);
    RunConcat(s, events, [Resolve(result, page)]);
    assert Run(before, [Resolve(result, page)]) == Run(Step(before, Resolve(result, page)), []);
  }

  lemma {:induction false} RunKeepsConsistent(s: State, events: seq<Event>)
    requires Consistent(s)
    ensures Consistent(Run(s, events))
    decreases |events|
  {
    if events != [] {
      var e := events[0];
      if e.Resolve? {
        TransitionsKeepConsistent(s, e.result, e.page);
      }
      RunKeepsConsistent(Step(s, e), events[1..]);
    }
  }

  /** Every state reachable from the initial one, in any order of events, is `Consistent`. */
  lemma ReachableConsistent(events: seq<Event>)
    ensures Consistent(Run(Initial, events))
  {
    RunKeepsConsistent(Initial, events);
  }

  /**
   * Dispatching never clears an error: once a request failed, `isError` stays set through
   * any number of submissions, paginations and failures, until a success is folded in.
   */
  lemma {:induction false} ErrorPersistsUntilSuccess(s: State, events: seq<Event>)
    requires s.isError
    requires forall i :: 0 <= i < |events| ==> !events[i].Resolve?
    ensures Run(s, events).isError
    decreases |events|
  {
    if events != [] {
      assert !events[0].Resolve?;
      ErrorPersistsUntilSuccess(Step(s, events[0]), events[1..]);
    }
  }

  /**
   * A failed new search leaves the old hits and page in place, so "Try Again" asks for the
   * page after the OLD page, with the new text, and its success is appended to the old hits.
   */
  lemma RetryAfterFailedSearchAppends(s: State, value: string, result: SearchResult)
    requires s.page.Some? && value != ""
    ensures var failed := Run(s, [Submit(value), Reject]);
      failed.hits == s.hits && failed.page == s.page && failed.isError
      && Issued(failed, Paginate(value)) == Some(Fetch(value, s.page.value + 1))
      && Run(failed, [Paginate(value), Resolve(result, s.page.value + 1)]).hits == s.hits + result.hits
  {
    var submitted := Step(s, Submit(value));
    var failed := Step(submitted, Reject);
    assert Run(s, [Submit(value), Reject]) == Run(submitted, [Reject]) == Run(failed, []);
    var loading := Step(failed, Paginate(value));
    var done := Step(loading, Resolve(result, s.page.value + 1));
    assert Run(failed, [Paginate(value), Resolve(result, s.page.value + 1)])
      == Run(loading, [Resolve(result, s.page.value + 1)]) == Run(done, []);
  }

  class App {
    var hits: seq<Item>
    var page: Option<nat>
    var isLoading: bool
    var isError: bool

    function Snapshot(): State
      reads this
    {
      State(hits, page, isLoading, isError)
    }

    ghost predicate Valid()
      reads this
    {
      Consistent(Snapshot())
    }

    constructor ()
      ensures Valid() && Snapshot() == Initial
    {
      hits := [];
      page := None;
      isLoading := false;
      isError := false;
    }

    /** React's `setState`: merges the partial update into the fields. */
    method SetState(u: Update)
      modifies this
      ensures Snapshot() == Merge(old(Snapshot()), u)
    {
      hits := u.hits.GetOr(hits);
      page := u.page.GetOr(page);
      isLoading := u.isLoading.GetOr(isLoading);
      isError := u.isError.GetOr(isError);
    }

    /** `fetchStories(value, page)`: starts loading and returns the request it sends. */
    method FetchStories(value: string, page: nat) returns (req: Request)
      requires Valid()
      modifies this
      ensures Valid()
      ensures Snapshot() == Dispatch(old(Snapshot()))
      ensures req == Fetch(value, page)
    {
      SetState(StartLoading);
      req := Fetch(value, page);
    }

    /** `onInitialSearch` with the input's text: page 0 unless the text is exactly empty. */
    method OnInitialSearch(value: string) returns (req: Option<Request>)
      requires Valid()
      modifies this
      ensures Valid()
      ensures Snapshot() == Step(old(Snapshot()), Submit(value))
      ensures req == Issued(old(Snapshot()), Submit(value))
    {
      if value == "" {
        return None;
      }
      var r := FetchStories(value, 0);
      req := Some(r);
    }

    /** `onPaginatedSearch` with the input's current text: asks for `page + 1`. */
    method OnPaginatedSearch(value: string) returns (req: Request)
      requires Valid()
      modifies this
      ensures Valid()
      ensures Snapshot() == Step(old(Snapshot()), Paginate(value))
      ensures Some(req) == Issued(old(Snapshot()), Paginate(value))
    {
      req := FetchStories(value, NextPage(page));
    }

    /** `onSetError`: the `catch` of a request. */
    method OnSetError()
      requires Valid()
      modifies this
      ensures Valid()
      ensures Snapshot() == Step(old(Snapshot()), Reject)
    {
      SetState(ApplySetError(Snapshot()));
    }

    /** `onSetResult(result, page)` for the page the request was made for. */
    method OnSetResult(result: SearchResult, page: nat)
      requires Valid()
      modifies this
      ensures Valid()
      ensures Snapshot() == Step(old(Snapshot()), Resolve(result, page))
    {
      if page == 0 {
        SetState(ApplySetResult(result));
      } else {
        SetState(ApplyUpdateResult(result, Snapshot()));
      }
    }
  }
}
