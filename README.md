# Infinite-scroll Hacker News search: the search and pagination state machine

This project models the client-side core of a small React application that searches
Hacker News through the Algolia search API and extends the result list by infinite
scroll. The core is `src/App.js`:

- the App component's state `{hits, page, isLoading, isError}`, starting as
  `{[], null, false, false}`;
- the three updaters `applyUpdateResult` (append), `applySetResult` (replace) and
  `applySetError` (a partial update, so `hits` and `page` survive React's merge);
- the dispatch methods `onInitialSearch` (page 0, skipped for an empty text),
  `onPaginatedSearch` (page `page + 1`), `fetchStories` (sets only `isLoading`) and the
  callbacks `onSetResult` (replace for a page-0 request, append otherwise) and `onSetError`;
- the request target `getHackerNewsUrl(value, page)` with its fixed 100 hits per page;
- the List component's scroll guard and its render conditions for the loading indicator,
  the "More" button and the error panel with "Try Again".

Modules:

- `Wrappers` (`wrappers.dfy`): `Option`, for JavaScript's `null` page and for the keys a
  partial state update leaves out.
- `HackerNewsUrl` (`hacker_news_url.dfy`): `GetHackerNewsUrl` and the decimal printing of the
  page, with a parser `ParseUrl` as its partner. Parsing a target returns the pair it was
  built from. Every target the parser accepts is rebuilt exactly from the pair it returns.
  So the query text and the page fully determine the request.
- `SearchState` (`search_state.dfy`): the state record, React's `setState` merge of a
  partial update, the three updaters, and the invariant `Consistent`: without a page there
  are no hits.
- `SearchApp` (`search_app.dfy`): the App component as a class `App` whose methods change
  its four fields through `SetState`. `SetState` is proved against the merge `Merge`, and
  `FetchStories` against `Dispatch` and `Fetch`. The other methods are proved against the
  pure step function `Step` over events and the request function `Issued`. `Run` applies any sequence of
  events (submissions, paginations, successes and failures, in any completion order).
  The lemmas over `Run` prove the invariant for every reachable state, that the last
  response wins, and that an error persists until a success.
- `ListView` (`list_view.dfy`): the scroll guard, the render conditions, and `OnScroll`,
  which calls the App's `OnPaginatedSearch` when the guard holds.

The model follows the code as written; in particular:

- The empty check of `onInitialSearch` is `value === ''` (src/App.js:66), with no
  trimming. A text of spaces is searched.
- `fetchStories` merges only `{isLoading: true}` (src/App.js:81). It does not clear
  `isError`, so an error stays set while a new search or a retry is loading. `isError`
  goes back to false only when a success is folded in (src/App.js:13, 24). The lemmas
  `SearchApp.ErrorPersistsUntilSuccess` and `ListView.ScrollSuspendedUntilSuccess` state
  the consequence.
- In JavaScript `null + 1` is `1`, so `onPaginatedSearch` with no page would ask for
  page 1 (`SearchApp.NextPage`). `ListView.ScrollRequestsFollowingPage` proves the scroll
  guard never fires in that situation in any reachable state. "More" and "Try Again" are
  rendered only with a page.
- A failed first search renders neither the error panel nor "More", because both need
  a page (`ListView.ErrorPanelAfterFailure`).
- After a failed new search, the old hits and page stay in place. "Try Again" then asks
  for the page after the OLD page, with the new text, and appends the new results to the
  old hits (`SearchApp.RetryAfterFailedSearchAppends`).

## Model

| member | source | states |
|---|---|---|
| HackerNewsUrl.NatToString | src/App.js:34 | the page is interpolated as a canonical decimal: digits only, no leading zero, `"0"` exactly for page 0 |
| HackerNewsUrl.ParseUrlOfGetHackerNewsUrl | src/App.js:33-34 | parsing the target built from `(value, page)` gives back exactly `(value, page)`, for any raw query text (even one containing `&page=`) |
| HackerNewsUrl.GetHackerNewsUrlOfParseUrl | src/App.js:33-34 | every string the parser accepts is exactly the target built from the pair it returns |
| HackerNewsUrl.GetHackerNewsUrlInjective | src/App.js:33-34 | two targets are equal only if their query texts and pages are equal: the pair fully determines the request |
| HackerNewsUrl.GetHackerNewsUrlShape | src/App.js:33-34 | every target starts with the fixed search endpoint and ends with the fixed page size `&hitsPerPage=100` |
| SearchState.FoldResult | src/App.js:95-98 | after a success the page is the response's page and both flags are false; for a page-0 request the hits are the response's hits, otherwise the old hits followed by the new ones, unchanged and in order |
| SearchState.InitialConsistent | src/App.js:41-50 | the initial state has no hits, no page and neither flag, and satisfies the invariant |
| SearchState.DispatchOnlyStartsLoading | src/App.js:79-81 | dispatching sets `isLoading` and changes no other field; a previous error persists while loading |
| SearchState.SetResultReplaces | src/App.js:16-25 | a page-0 success makes the state exactly `{result.hits, result.page, false, false}`, whatever the prior hits |
| SearchState.UpdateResultAppends | src/App.js:5-14 | a later-page success makes the state exactly `{old hits ++ result.hits, result.page, false, false}` |
| SearchState.ErrorKeepsResults | src/App.js:28-31 | a failure sets `isError`, clears `isLoading`, and leaves hits and page unchanged (nothing else changes under the merge) |
| SearchState.TransitionsKeepConsistent | src/App.js:5-31 | dispatch, success and failure each keep the invariant "no page implies no hits" |
| SearchState.CompletedNotLoadingAndError | src/App.js:5-31 | after a completed response `isLoading` is false, `isError` is true exactly after a failure, so the two are never both set |
| SearchApp.EmptySubmitIsNoOp | src/App.js:60-72 | an exactly empty search text changes no state and sends no request |
| SearchApp.SubmitRequestsPageZero | src/App.js:60-72 | any other text sends exactly one request, for page 0 with that text, and only sets `isLoading` |
| SearchApp.PaginateRequestsFollowingPage | src/App.js:76-77 | pagination sends one request for `page + 1` with the input's current text, and only sets `isLoading` |
| SearchApp.LastResponseWins | src/App.js:84-98 | whatever order the events came in, the last success alone decides page and flags, and for a page-0 request the hits |
| SearchApp.ReachableConsistent | src/App.js:41-98 | every state reached from the initial one by any sequence of events has hits only when it has a page |
| SearchApp.ErrorPersistsUntilSuccess | src/App.js:79-98 | once set, `isError` stays set through any submissions, paginations and failures until a success is folded in |
| SearchApp.RetryAfterFailedSearchAppends | src/App.js:76-98 | after a failed new search the old hits and page remain; "Try Again" asks for the old page + 1 with the new text and appends its hits to the old ones |
| SearchApp.App.constructor | src/App.js:37-51 | the component starts with no hits, a `null` page and both flags false |
| SearchApp.App.SetState | src/App.js:92-98 | `setState` merges the keys of a partial update into the fields and keeps the others |
| SearchApp.App.FetchStories | src/App.js:79-89 | sets only `isLoading` and returns the request for the target built from `(value, page)`, keyed by `page` |
| SearchApp.App.OnInitialSearch | src/App.js:60-72 | no state change and no request for an empty text; otherwise the page-0 dispatch |
| SearchApp.App.OnPaginatedSearch | src/App.js:76-77 | dispatches `page + 1` (with `null + 1 = 1`) with the input's current text |
| SearchApp.App.OnSetError | src/App.js:92-93 | folds a failure in: the state becomes the failure step of the old state |
| SearchApp.App.OnSetResult | src/App.js:95-98 | replaces for a page-0 request, appends otherwise, as the success step of the old state |
| ListView.OnScroll | src/App.js:147-165 | calls pagination exactly when near the bottom, with some hits, not loading and no error; otherwise changes nothing and sends nothing; by the class invariant, any request it sends is for the current page + 1, never the `null + 1` page |
| ListView.ScrollBlockedWhileLoadingOrError | src/App.js:155-159 | the scroll guard never fires while loading or after an error |
| ListView.ScrollRequestsFollowingPage | src/App.js:147-165 | in every reachable state, when the guard fires there is a page, "More" is shown, and the request is for that page + 1 |
| ListView.ScrollSuspendedUntilSuccess | src/App.js:158-159 | after a failure, automatic pagination stays off through any events other than a success |
| ListView.InitialShowsNothing | src/App.js:183-200 | at start neither the loading indicator, "More", nor the error panel is rendered |
| ListView.ErrorPanelNeedsErrorAndPage | src/App.js:200-211 | "Try Again" is rendered only with an error, a page and no pending request, and then "More" is rendered too |
| ListView.ErrorPanelAfterFailure | src/App.js:186-200 | after a failure the error panel and "More" are shown if and only if a page was already there |
| ListView.RetryHidesErrorPanelWhileLoading | src/App.js:197-213 | while a retry is loading the panel is hidden although `isError` is still set |

## Left out

- `fetch`, `response.json()` and the promise chain (src/App.js:84-88) are network I/O. A
  dispatch returns the request it would send. The outcome arrives as a later call of
  `OnSetResult` or `OnSetError`, or as an event for `Run`. A failure is a rejection of
  the chain: a transport error, or a body that is not JSON, so that `response.json()`
  rejects and the `catch` runs (src/App.js:85-88). `fetch` does not reject on an HTTP
  error status, so such a reply with a JSON body reaches `onSetResult`, not the `catch`.
- A resolved response whose body lacks `hits` or `page` is not modelled: `Resolve` and
  `OnSetResult` carry only a well-formed `SearchResult`. In the code, `applySetResult`
  would store `undefined` hits and page (src/App.js:17-18), and `applyUpdateResult` would
  throw on spreading `undefined` (src/App.js:6).
- Which response belongs to which request is not tracked. `Run` accepts any sequence of
  events, so overlapping requests that complete in any order are covered by its lemmas,
  but the model does not pair responses with requests.
- The input element read through `ref` (`this.input.value`) and `e.preventDefault()` are
  DOM plumbing. The input's text is a parameter of each dispatch.
- JSX markup, the CSS import and the rendering of each hit (src/App.js:100-131, 167-217)
  are UI. Only the visibility conditions of the loading indicator, "More" and the error
  panel are modelled.
- Adding and removing the window scroll listener (src/App.js:137-145) is browser event
  wiring.
- The pixel geometry of the scroll guard is an integer inequality (`NearBottom`). Browser
  offsets can be fractional; that is not modelled.
- Pages are non-negative integers, as the API's zero-based page index is. JavaScript's
  floating-point numbers are not modelled.
- The query text is interpolated raw, with no URL encoding, as the code does.
