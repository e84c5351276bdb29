# Movie browser: page window and view-state transitions

A Dafny model of the two parts of the React movie browser that carry logic:

- **The page window** of the pagination bar (`getVisiblePages` in
  `src/components/Pagination.jsx`). It lists page 1, the pages within two of
  the current page, and the last page, with `"..."` markers where pages are
  hidden. A final `indexOf` filter keeps only the first occurrence of every
  entry. That filter compares the `"..."` strings too, so when both gaps exist
  only the leading ellipsis survives: (5, 10) gives `[1, …, 3, 4, 5, 6, 7, 10]`.
  The Previous and Next buttons and the numbered buttons decide which page a
  click asks for.
- **The view state of `App`** (`src/App.jsx`). This covers the two fetches
  (trending, and search/discover) as a step that starts them and a step that
  applies their outcome. It also covers the page change, and the page reset
  when the debounced search term settles.

Files:

- `numbers.dfy`: module `Numbers`, `Min` and `Max` on integers.
- `optional.dfy`: module `Optional`, the `Option` type. It stands for
  JavaScript's `undefined`/`null` and for a click that does nothing.
- `pagination.dfy`: module `Pagination`.
  - `GetVisiblePages` is the source's loop with its `indexOf` filter. It is
    proved equal to `Window`, a closed-form description of the result.
  - Lemmas about `Window` state what the window promises.
  - `Requested` gives the page a button click asks for.
- `movie_app.dfy`: module `MovieApp`.
  - Pure pieces: the endpoint choice, status classification, clamping,
    trending truncation and `Classify`/`ClassifyTrending`.
  - `ViewState` with one transition function per event, and lemmas about these
    functions.
  - A class `App` whose fields are the component's state. Its methods update
    the fields one by one, as the setters do. Each method is proved to produce
    `State() == F(old(State()))` for the matching transition function `F`.

JavaScript's `||` is modelled on falsy values. `total_pages || 1` treats an
absent value and 0 as missing. `data.Error || "…"` and `error.message || "…"`
treat an absent value and the empty string as missing.

Behaviour of the code worth knowing, kept as written:

- (5, 10) gives `[1, …, 3, 4, 5, 6, 7, 10]`: the `indexOf` filter also drops
  the second `"..."` when both gaps exist.
- Responses carry no request number, so nothing discards a stale one: whichever
  outcome is applied last decides the list and the totals, and a stale success
  applied after a newer failure keeps that failure's message beside its
  results (`LastOutcomeWins`).
- The trending feed clears its error when a fetch starts, not when it
  succeeds, and a trending failure keeps the previous list.
- The page goes back to 1 only when the settled term differs from the one
  already recorded, because the reset is an effect of that term.

## Model

| member | source | states |
|---|---|---|
| `Pagination.Span` | src/components/Pagination.jsx:9-15 | the middle range from lo is exactly the pages lo, lo+1, … in order, with length hi - lo |
| `Pagination.IndexOf` | src/components/Pagination.jsx:31-33 | `indexOf` gives -1 exactly when the item is absent, and otherwise an index holding the item with no earlier occurrence |
| `Pagination.FirstOccurrences` | src/components/Pagination.jsx:31-33 | the filter's result has no duplicates and holds exactly the items of its input |
| `Pagination.KeepFirstOccurrences` | src/components/Pagination.jsx:31-33 | the `indexOf` filter loop produces exactly `FirstOccurrences` of its input |
| `Pagination.GetVisiblePages` | src/components/Pagination.jsx:4-34 | the loop, the pushes and the filter produce exactly `Window(currentPage, totalPages)` |
| `Pagination.RawWindowFirstOccurrences` | src/components/Pagination.jsx:17-33 | filtering the pushed array gives the closed form. The trailing "..." survives only without a leading one, and the last page is dropped only when it is page 1 |
| `Pagination.RawWindow` | src/components/Pagination.jsx:17-29 | the array before the filter starts with page 1, ends with page total and has at most 9 entries |
| `Pagination.Window` | src/components/Pagination.jsx:17-33 | the filtered window starts with page 1, ends with page total when total ≥ 2, and has at most 8 entries |
| `Pagination.WindowEnds` | src/components/Pagination.jsx:17-29 | the window starts with page 1. It ends with page total when total ≥ 2 or the current page is in [1, total], and from a current page in [1, total] it is `[1]` for a single page |
| `Pagination.WindowDistinct` | src/components/Pagination.jsx:31-33 | no entry appears twice, so there is at most one "..." |
| `Pagination.WindowMembers` | src/components/Pagination.jsx:9-29 | a page is shown iff it is 1, total, or between max(2, current-2) and min(total-1, current+2). "..." is shown iff either gap exists |
| `Pagination.WindowIncreasing` | src/components/Pagination.jsx:9-29 | for total ≥ 1 the page numbers strictly increase and lie in [1, total] |
| `Pagination.WindowEllipses` | src/components/Pagination.jsx:17-29 | from a current page in [1, total]: "..." follows page 1 iff current-2 > 2, and "..." precedes the last page iff current+2 < total-1 and there is no leading gap |
| `Pagination.WindowExamples` | src/components/Pagination.jsx:4-34 | the windows for (1,1), (1,10), (5,10) and (10,10), the third with a single ellipsis |
| `Pagination.Requested` | src/components/Pagination.jsx:42-91 | a click does nothing exactly on Previous at page 1, Next at the last page, or "..."; otherwise Previous asks for current-1, Next for current+1 and a numbered button for its own page |
| `Pagination.ControlsStayInRange` | src/components/Pagination.jsx:42-91 | from a current page in [1, total], every page a control on screen asks for is in [1, total]. From any current page ≥ 1 with total ≥ 1, even one past the last page, no control asks for a page below 1 |
| `MovieApp.StatusError` | src/App.jsx:74-82 | a status error is thrown exactly when the status is 401, 429, or the response is not ok, and its message is never empty |
| `MovieApp.ChooseEndpoint` | src/App.jsx:66-70 | the endpoint carries the page; it searches exactly for a non-empty query and otherwise discovers by popularity.desc |
| `MovieApp.Classify` | src/App.jsx:72-104 | results load exactly when the status passes, the body parses and `response` is not "False"; every failure carries a non-empty message |
| `MovieApp.ClassifyTrending` | src/App.jsx:37-55 | trending loads exactly when the status passes and the body parses, with at most 10 movies; every failure carries a non-empty message |
| `MovieApp.ClampTotalPages` | src/App.jsx:95 | the page count is at most 500. For absent or non-negative input it is at least 1. It keeps 1..500 unchanged and cuts larger counts to 500 |
| `MovieApp.TopTrending` | src/App.jsx:52 | the trending list is the first min(10, n) results, or empty when results are absent |
| `MovieApp.EndpointChoice` | src/App.jsx:66-70 | the query is recovered from the chosen endpoint, the empty query included |
| `MovieApp.StatusPrecedence` | src/App.jsx:39-82 | 401 gives "Invalid API key", 429 gives the rate-limit message whatever the body, and any other non-ok status gives "HTTP {status}: Failed to fetch …". This holds for both feeds |
| `MovieApp.LoadedExactly` | src/App.jsx:84-96 | results load iff the status passes, the body parses and `response` is not "False". They are then the body's results (or []), the clamped page count and `total_results` or 0. A well-formed body gives totals in range |
| `MovieApp.LogicalFailure` | src/App.jsx:86-91 | `response === "False"` shows the body's `Error`, or "Failed to fetch movie" |
| `MovieApp.ThrownErrorMessages` | src/App.jsx:53-101 | a rejected fetch or an unparsable body shows the error's own message, or "Error fetching movies. Please try again later." / "Error fetching trending movies." when that message is empty |
| `MovieApp.ClampExamples` | src/App.jsx:95 | 700 becomes 500, absent or 0 becomes 1, and the clamp is idempotent |
| `MovieApp.TrendingAtMostTen` | src/App.jsx:51-52 | loaded trending movies come from a parsed body and number at most 10 |
| `MovieApp.FetchSettles` | src/App.jsx:61-107 | loading is raised and the error cleared before the request. After any outcome loading is false. A success shows its results with no error. Any failure shows its message and resets the list, the pages to 1 and the results to 0. Term, page and trending feed are untouched |
| `MovieApp.AppliedKeepsValid` | src/App.jsx:86-104 | applying a well-formed outcome keeps totalPages in [1, 500] and totalResults ≥ 0 |
| `MovieApp.EventsKeepValid` | src/App.jsx:31-124 | typing, a settled term, a page change and the start of either fetch keep totalPages in [1, 500], totalResults ≥ 0 and at most 10 trending movies |
| `MovieApp.Applied` | src/App.jsx:84-107 | after an outcome loading is false; a failure shows a non-empty message and resets list, pages and results; a success keeps the error message; only these fields change |
| `MovieApp.TrendingApplied` | src/App.jsx:51-58 | after an outcome the trending flag is down; a failure keeps the old list and shows a non-empty message; the list stays at most 10 long; only trending fields change |
| `MovieApp.Settled` | src/App.jsx:122-124 | the settled term is recorded; the page becomes 1 if the term changed and is kept otherwise; nothing else changes |
| `MovieApp.Paged` | src/App.jsx:110-111 | only the current page changes, to the requested page |
| `MovieApp.LastOutcomeWins` | src/App.jsx:126-128 | with no stale-response guard, the outcome applied last decides the list and totals, even if its request was older; a stale success after a newer failure keeps the failure's message |
| `MovieApp.TrendingSettles` | src/App.jsx:31-58 | the trending fetch raises its flag and clears its error, and ends with the flag down. On failure it shows the message and keeps the old list. On success it shows at most 10 movies. The results feed is untouched, from any state, and a valid state stays valid |
| `MovieApp.NavigationEvents` | src/App.jsx:110-124 | a settled term gives page 1 exactly when it differs from the recorded term or the page was already 1, and keeps the raw term. A page change keeps both terms. A pagination click from a page in range lands in range, and from any page ≥ 1 (with total ≥ 1) lands on a page ≥ 1 |
| `MovieApp.App.constructor` | src/App.jsx:19-29 | the initial state: empty terms, lists and errors, flags down, page 1 of 1, 0 results |
| `MovieApp.App.SetSearchTerm` | src/App.jsx:19 | typing changes only the raw search term |
| `MovieApp.App.TermSettled` | src/App.jsx:122-124 | a changed settled term is recorded and currentPage becomes 1; the same term changes nothing |
| `MovieApp.App.PageChange` | src/App.jsx:110-116 | only currentPage changes |
| `MovieApp.App.Navigate` | src/App.jsx:203-208 | a click on the pagination bar applies the requested page change, if any, keeps an in-range page in range, and keeps a page ≥ 1 at ≥ 1 whenever total ≥ 1 |
| `MovieApp.App.BeginFetch` | src/App.jsx:61-70 | loading raised, error cleared, and the endpoint chosen from the settled term and current page |
| `MovieApp.App.ApplyOutcome` | src/App.jsx:72-107 | the try/catch/finally steps produce exactly `Applied(old state, outcome)` |
| `MovieApp.App.BeginTrending` | src/App.jsx:31-33 | the trending loading flag is raised and its error cleared |
| `MovieApp.App.ApplyTrending` | src/App.jsx:35-58 | the trending try/catch/finally steps produce exactly `TrendingApplied(old state, outcome)` |

## Left out

- The network: `fetch`, `response.json()`, the API key and headers, and URL
  building beyond the search/discover choice. A response is an abstract
  `Outcome`: a rejected fetch, or a status, an `ok` flag and a payload that
  either parsed or did not. The `ok` flag is an input; it is not derived from
  the status.
- `encodeURIComponent`: the `Search` endpoint carries the raw query.
- The debounce timer (`useDebounce`, 500 ms). A settled term is an event,
  `TermSettled`.
- React effect scheduling. The model treats "term settled", "page changed" and
  "fetch started/finished" as separate events in sequence. It does not model
  the order in which React runs effects. In the commit where the debounced term
  changes, the fetch effect still reads the old `currentPage` before the reset
  to 1 re-renders.
- Interleaving of concurrent fetches. Any sequence of `BeginFetch` and
  `ApplyOutcome` calls can be written against the class. The source has no
  request-generation guard, and the model claims none.
- Scrolling into view, `console.error`, `toLocaleString`, and all JSX rendering
  and CSS classes.
- `MovieApp.StatusError`: the `ok` flag is independent of the status, so a
  status such as 401 with `ok` true is still classified as in the code.
- `MovieApp.ClampTotalPages`: the lower bound 1 is promised only for absent or
  non-negative `total_pages`. A negative count passes through `Math.min`
  unchanged, as in the code. JavaScript's `NaN` is not modelled.
- Movie records are opaque: only `id` and `title` are kept, and the core never
  inspects them.
