/**
 The view state of the movie browser (src/App.jsx) and its transitions.

 Two independent feeds share the screen: the trending list, fetched once on
 mount, and the search/discover list, fetched whenever the settled search term
 or the current page changes. The network call itself is not modelled: a fetch
 is split into the step that starts it (raising the loading flag and choosing
 the endpoint) and the step that applies its outcome, an abstract description
 of what `fetch` and `response.json()` produced.

 The pure part (endpoint choice, status classification, clamping, the
 transition functions on `ViewState`) is the specification; the class `App`
 holds the same state as fields and updates them step by step, as the
 component's setters do.
 */
module MovieApp {
  import opened Optional
  import opened Numbers
  import Pagination

  // ---------------------------------------------------------------------------
  // Data

  /** A movie record, passed through unmodified; only `id` gives it identity. */
  datatype Movie = Movie(id: int, title: string)

  /** The upstream API serves at most this many pages. */
  const MaxPages := 500
  /** The trending row shows at most this many movies. */
  const TrendingLimit := 10

  const InvalidKeyMessage := "Invalid API key"
  const RateLimitMessage := "Too many requests. Please try again later."
  const MoviesFallback := "Error fetching movies. Please try again later."
  const TrendingFallback := "Error fetching trending movies."
  const LogicalFailureFallback := "Failed to fetch movie"
  const PopularityDesc := "popularity.desc"

  /** The fields of a parsed JSON body that the component reads; an absent
      (`undefined` or `null`) field is None. */
  datatype Body = Body(
    response: Option<string>,
    error: Option<string>,
    results: Option<seq<Movie>>,
    totalPages: Option<int>,
    totalResults: Option<int>)

  /** What `response.json()` produced: a body, or a rejection with its message. */
  datatype Payload = Json(body: Body) | Malformed(reason: string)

  /** What a fetch produced: a rejected `fetch` with its error message, or a
      response with its status, its `ok` flag and its payload. */
  datatype Outcome =
    | NetworkFailure(reason: string)
    | Received(status: int, ok: bool, payload: Payload)

  /** A response whose totals are not negative, as the upstream API sends them. */
  predicate WellFormed(o: Outcome)
  {
    o.Received? && o.payload.Json? ==>
      (o.payload.body.totalPages.None? || o.payload.body.totalPages.value >= 0) &&
      (o.payload.body.totalResults.None? || o.payload.body.totalResults.value >= 0)
  }

  // ---------------------------------------------------------------------------
  // JavaScript's `||` on the values the component reads

  /** `s || fallback` for a string that may be absent: absent and "" are falsy. */
  function StringOr(s: Option<string>, fallback: string): string
  {
    if s.Some? && s.value != "" then s.value else fallback
  }

  /** `n || fallback` for a number that may be absent: absent and 0 are falsy. */
  function NumberOr(n: Option<int>, fallback: int): int
  {
    if n.Some? && n.value != 0 then n.value else fallback
  }

  /** The decimal text of an integer, as a template literal prints it. */
  function DecimalString(i: int): string
    decreases if i < 0 then 1 - i else i
  {
    if i < 0 then "-" + DecimalString(-i)
    else if i < 10 then ["0123456789"[i]]
    else DecimalString(i / 10) + ["0123456789"[i % 10]]
  }

  // ---------------------------------------------------------------------------
  // Pure pieces of a fetch

  /** The two endpoints of the results feed. */
  datatype Endpoint = Search(query: string, page: int) | Discover(sortBy: string, page: int)

  /** A non-empty query searches; an empty one discovers by descending popularity. */
  function ChooseEndpoint(query: string, page: int): (e: Endpoint)
    ensures e.page == page
    ensures e.Search? <==> query != ""
    ensures e.Discover? ==> e.sortBy == PopularityDesc
  {
    if query != "" then Search(query, page) else Discover(PopularityDesc, page)
  }

  /** The query an endpoint carries ("" for discover). */
  function QueryOf(e: Endpoint): string
  {
    if e.Search? then e.query else ""
  }

  /** The error thrown for a response status, checked in this order: 401, 429,
      then any response that is not ok. `feed` names the feed in the message. */
  function StatusError(status: int, ok: bool, feed: string): (r: Option<string>)
    ensures r.None? <==> status != 401 && status != 429 && ok
    ensures r.Some? ==> r.value != ""
  {
    if status == 401 then Some(InvalidKeyMessage)
    else if status == 429 then Some(RateLimitMessage)
    else if !ok then Some("HTTP " + DecimalString(status) + ": Failed to fetch " + feed)
    else None
  }

  /** `Math.min(total_pages || 1, 500)`. */
  function ClampTotalPages(totalPages: Option<int>): (r: int)
    ensures r <= MaxPages
    ensures totalPages.None? || totalPages.value >= 0 ==> 1 <= r
    ensures totalPages.Some? && 1 <= totalPages.value <= MaxPages ==> r == totalPages.value
    ensures totalPages.Some? && totalPages.value >= MaxPages ==> r == MaxPages
  {
    Min(NumberOr(totalPages, 1), MaxPages)
  }

  /** `results?.slice(0, 10) || []`. */
  function TopTrending(results: Option<seq<Movie>>): (r: seq<Movie>)
    ensures |r| <= TrendingLimit
    ensures results.None? ==> r == []
    ensures results.Some? ==> |r| == Min(|results.value|, TrendingLimit)
    ensures results.Some? ==> r == results.value[..|r|]
  {
    if results.None? then [] else results.value[..Min(|results.value|, TrendingLimit)]
  }

  /** What a fetch of the results feed does to the view: either new results or
      an error message (with the results reset). */
  datatype MoviesUpdate =
    | Loaded(movies: seq<Movie>, totalPages: int, totalResults: int)
    | Failed(message: string)

  /** The outcome of `fetchMovies`, branch by branch. A thrown error shows its
      message, or the fallback when the message is empty. */
  function Classify(o: Outcome): (r: MoviesUpdate)
    ensures r.Loaded? <==>
      o.Received? && o.status != 401 && o.status != 429 && o.ok &&
      o.payload.Json? && o.payload.body.response != Some("False")
    ensures r.Failed? ==> r.message != ""
  {
    match o
    case NetworkFailure(reason) => Failed(StringOr(Some(reason), MoviesFallback))
    case Received(status, ok, payload) =>
      match StatusError(status, ok, "movies")
      case Some(message) => Failed(StringOr(Some(message), MoviesFallback))
      case None =>
        match payload
        case Malformed(reason) => Failed(StringOr(Some(reason), MoviesFallback))
        case Json(body) =>
          if body.response == Some("False") then Failed(StringOr(body.error, LogicalFailureFallback))
          else Loaded(if body.results.Some? then body.results.value else [],
                      ClampTotalPages(body.totalPages),
                      NumberOr(body.totalResults, 0))
  }

  /** What a fetch of the trending feed does to the view. */
  datatype TrendingUpdate = TrendingLoaded(movies: seq<Movie>) | TrendingFailed(message: string)

  /** The outcome of `fetchTrendingMovies`: no logical-failure check, the first
      ten results only. */
  function ClassifyTrending(o: Outcome): (r: TrendingUpdate)
    ensures r.TrendingLoaded? <==>
      o.Received? && o.status != 401 && o.status != 429 && o.ok && o.payload.Json?
    ensures r.TrendingLoaded? ==> |r.movies| <= TrendingLimit
    ensures r.TrendingFailed? ==> r.message != ""
  {
    match o
    case NetworkFailure(reason) => TrendingFailed(StringOr(Some(reason), TrendingFallback))
    case Received(status, ok, payload) =>
      match StatusError(status, ok, "trending movies")
      case Some(message) => TrendingFailed(StringOr(Some(message), TrendingFallback))
      case None =>
        match payload
        case Malformed(reason) => TrendingFailed(StringOr(Some(reason), TrendingFallback))
        case Json(body) => TrendingLoaded(TopTrending(body.results))
  }

  // ---------------------------------------------------------------------------
  // Properties of the pure pieces

  /** The endpoint gives back the query it was built from, the empty one
      included, so choosing an endpoint loses nothing of the query. */
  lemma EndpointChoice(query: string, page: int)
    ensures QueryOf(ChooseEndpoint(query, page)) == query
  {
  }

  /** Statuses are checked before the body is read: 401 wins over everything,
      429 gives the rate-limit message whatever the body, and any other response
      that is not ok gives the "HTTP <status>" message. */
  lemma StatusPrecedence(status: int, ok: bool, payload: Payload)
    ensures status == 401 ==> Classify(Received(status, ok, payload)) == Failed(InvalidKeyMessage)
    ensures status == 429 ==> Classify(Received(status, ok, payload)) == Failed(RateLimitMessage)
    ensures status != 401 && status != 429 && !ok ==>
      Classify(Received(status, ok, payload)) == Failed("HTTP " + DecimalString(status) + ": Failed to fetch " + "movies")
    ensures status == 401 ==> ClassifyTrending(Received(status, ok, payload)) == TrendingFailed(InvalidKeyMessage)
    ensures status == 429 ==> ClassifyTrending(Received(status, ok, payload)) == TrendingFailed(RateLimitMessage)
    ensures status != 401 && status != 429 && !ok ==>
      ClassifyTrending(Received(status, ok, payload))
      == TrendingFailed("HTTP " + DecimalString(status) + ": Failed to fetch " + "trending movies")
  {
  }

  /** A fetch loads results exactly when the status passes, the body parses and
      it is not a logical failure; the list is the body's results (or empty),
      the page count is clamped and, for a well-formed body, in [1, 500]. */
  lemma LoadedExactly(o: Outcome)
    ensures Classify(o).Loaded? <==>
      o.Received? && StatusError(o.status, o.ok, "movies").None? &&
      o.payload.Json? && o.payload.body.response != Some("False")
    ensures Classify(o).Loaded? ==>
      var body := o.payload.body;
      && Classify(o).movies == (if body.results.Some? then body.results.value else [])
      && Classify(o).totalPages == ClampTotalPages(body.totalPages)
      && Classify(o).totalResults == NumberOr(body.totalResults, 0)
    ensures Classify(o).Loaded? && WellFormed(o) ==>
      1 <= Classify(o).totalPages <= MaxPages && Classify(o).totalResults >= 0
  {
  }

  /** A logical failure (`response === "False"`) after a passing status shows
      the body's `Error`, or "Failed to fetch movie" when that is absent or empty. */
  lemma LogicalFailure(status: int, ok: bool, body: Body)
    requires StatusError(status, ok, "movies").None? && body.response == Some("False")
    ensures Classify(Received(status, ok, Json(body))) == Failed(StringOr(body.error, LogicalFailureFallback))
    ensures body.error.Some? && body.error.value != "" ==>
      Classify(Received(status, ok, Json(body))).message == body.error.value
  {
  }

  /** A thrown error shows its own message, or the feed's fallback text when
      that message is empty: a rejected fetch, a body that does not parse, or a
      status error (whose message is never empty). */
  lemma ThrownErrorMessages(status: int, ok: bool, reason: string)
    ensures Classify(NetworkFailure(reason)) == Failed(if reason != "" then reason else MoviesFallback)
    ensures StatusError(status, ok, "movies").None? ==>
      Classify(Received(status, ok, Malformed(reason))) == Failed(if reason != "" then reason else MoviesFallback)
    ensures ClassifyTrending(NetworkFailure(reason))
      == TrendingFailed(if reason != "" then reason else TrendingFallback)
    ensures StatusError(status, ok, "trending movies").None? ==>
      ClassifyTrending(Received(status, ok, Malformed(reason)))
      == TrendingFailed(if reason != "" then reason else TrendingFallback)
    ensures Classify(NetworkFailure("")) == Failed("Error fetching movies. Please try again later.")
    ensures ClassifyTrending(NetworkFailure("")) == TrendingFailed("Error fetching trending movies.")
  {
  }

  /** The clamp keeps 1..500 as they are, cuts larger counts to 500 (700 gives
      500) and is idempotent. */
  lemma ClampExamples(totalPages: Option<int>)
    ensures ClampTotalPages(Some(700)) == MaxPages
    ensures ClampTotalPages(None) == 1 && ClampTotalPages(Some(0)) == 1
    ensures ClampTotalPages(Some(ClampTotalPages(totalPages))) == ClampTotalPages(totalPages)
  {
  }

  /** The trending feed loads at most ten movies, the first ones the API sent. */
  lemma TrendingAtMostTen(o: Outcome)
    ensures ClassifyTrending(o).TrendingLoaded? ==>
      && |ClassifyTrending(o).movies| <= TrendingLimit
      && o.Received? && o.payload.Json?
      && ClassifyTrending(o).movies == TopTrending(o.payload.body.results)
  {
  }

  // ---------------------------------------------------------------------------
  // The view state and its transitions

  /** The component's state, one field per `useState`, plus the settled term
      `useDebounce` produces. */
  datatype ViewState = ViewState(
    searchTerm: string,
    debouncedTerm: string,
    errorMessage: string,
    movieList: seq<Movie>,
    trendingMovies: seq<Movie>,
    isLoading: bool,
    isTrendingLoading: bool,
    trendingError: string,
    currentPage: int,
    totalPages: int,
    totalResults: int)

  /** The state on first render. */
  function Initial(): ViewState
  {
    ViewState("", "", "", [], [], false, false, "", 1, 1, 0)
  }

  /** The totals stay in range and the trending row is short. */
  predicate Valid(s: ViewState)
  {
    1 <= s.totalPages <= MaxPages && s.totalResults >= 0 && |s.trendingMovies| <= TrendingLimit
  }

  /** The user typed: only the raw term changes. */
  function Typed(s: ViewState, term: string): ViewState
  {
    s.(searchTerm := term)
  }

  /** The debounced term settled. The effect depends on the settled term, so it
      runs only when that term changed: then the page goes back to 1. */
  function Settled(s: ViewState, term: string): (r: ViewState)
    ensures r.debouncedTerm == term && r.searchTerm == s.searchTerm
    ensures r.currentPage == if term != s.debouncedTerm then 1 else s.currentPage
    ensures r.(debouncedTerm := s.debouncedTerm, currentPage := s.currentPage) == s
  {
    if term == s.debouncedTerm then s else s.(debouncedTerm := term, currentPage := 1)
  }

  /** `handlePageChange`: only the current page changes. */
  function Paged(s: ViewState, page: int): (r: ViewState)
    ensures r.currentPage == page
    ensures r.searchTerm == s.searchTerm && r.debouncedTerm == s.debouncedTerm
    ensures r.(currentPage := s.currentPage) == s
  {
    s.(currentPage := page)
  }

  /** `fetchMovies` before its request: loading, no error. */
  function Begun(s: ViewState): ViewState
  {
    s.(isLoading := true, errorMessage := "")
  }

  /** `fetchMovies` after its request, the `finally` included. A failure of any
      kind clears the list and resets the totals; a success leaves the error
      message as it was (`Begun` cleared it). */
  function Applied(s: ViewState, o: Outcome): (r: ViewState)
    ensures !r.isLoading
    ensures Classify(o).Failed? ==>
      r.errorMessage != "" && r.movieList == [] && r.totalPages == 1 && r.totalResults == 0
    ensures Classify(o).Loaded? ==> r.errorMessage == s.errorMessage
    ensures r.(errorMessage := s.errorMessage, movieList := s.movieList, totalPages := s.totalPages,
               totalResults := s.totalResults, isLoading := s.isLoading) == s
  {
    match Classify(o)
    case Loaded(movies, totalPages, totalResults) =>
      s.(movieList := movies, totalPages := totalPages, totalResults := totalResults, isLoading := false)
    case Failed(message) =>
      s.(errorMessage := message, movieList := [], totalPages := 1, totalResults := 0, isLoading := false)
  }

  /** `fetchTrendingMovies` before its request. */
  function TrendingBegun(s: ViewState): ViewState
  {
    s.(isTrendingLoading := true, trendingError := "")
  }

  /** `fetchTrendingMovies` after its request: a failure keeps the last list. */
  function TrendingApplied(s: ViewState, o: Outcome): (r: ViewState)
    ensures !r.isTrendingLoading
    ensures |s.trendingMovies| <= TrendingLimit ==> |r.trendingMovies| <= TrendingLimit
    ensures ClassifyTrending(o).TrendingFailed? ==> r.trendingMovies == s.trendingMovies && r.trendingError != ""
    ensures r.(trendingMovies := s.trendingMovies, trendingError := s.trendingError,
               isTrendingLoading := s.isTrendingLoading) == s
  {
    match ClassifyTrending(o)
    case TrendingLoaded(movies) => s.(trendingMovies := movies, isTrendingLoading := false)
    case TrendingFailed(message) => s.(trendingError := message, isTrendingLoading := false)
  }

  // ---------------------------------------------------------------------------
  // Properties of the transitions

  /** A fetch of the results feed raises the loading flag and clears the error
      before the request, and settles with the flag down: on success the new
      results with no error; on any failure the message, an empty list, one page
      and no results. The term, the page and the trending feed are untouched. */
  lemma FetchSettles(s: ViewState, o: Outcome)
    ensures Begun(s).isLoading && Begun(s).errorMessage == ""
    ensures var t := Applied(Begun(s), o);
      && !t.isLoading
      && t.searchTerm == s.searchTerm && t.debouncedTerm == s.debouncedTerm && t.currentPage == s.currentPage
      && t.trendingMovies == s.trendingMovies && t.isTrendingLoading == s.isTrendingLoading
      && t.trendingError == s.trendingError
    ensures Classify(o).Loaded? ==> var t := Applied(Begun(s), o);
      t.errorMessage == "" && t.movieList == Classify(o).movies
      && t.totalPages == Classify(o).totalPages && t.totalResults == Classify(o).totalResults
    ensures Classify(o).Failed? ==> var t := Applied(Begun(s), o);
      t.errorMessage == Classify(o).message && t.errorMessage != ""
      && t.movieList == [] && t.totalPages == 1 && t.totalResults == 0
  {
  }

  /** A well-formed response keeps the totals in range. */
  lemma AppliedKeepsValid(s: ViewState, o: Outcome)
    requires Valid(s) && WellFormed(o)
    ensures Valid(Applied(s, o))
  {
    LoadedExactly(o);
  }

  /** Every other event leaves the totals and the trending row alone, so each
      of them keeps the state valid. */
  lemma EventsKeepValid(s: ViewState, term: string, page: int)
    requires Valid(s)
    ensures Valid(Typed(s, term)) && Valid(Settled(s, term)) && Valid(Paged(s, page))
    ensures Valid(Begun(s)) && Valid(TrendingBegun(s))
  {
  }

  /** There is no guard against stale responses: whichever response is applied
      last decides the list and the totals, even when its request was issued
      first. */
  lemma LastOutcomeWins(s: ViewState, older: Outcome, newer: Outcome)
    ensures var t := Applied(Applied(s, newer), older);
      && t.movieList == Applied(s, older).movieList
      && t.totalPages == Applied(s, older).totalPages
      && t.totalResults == Applied(s, older).totalResults
      && !t.isLoading
    ensures Classify(older).Loaded? ==>
      Applied(Applied(s, newer), older).errorMessage == Applied(s, newer).errorMessage
    ensures Classify(older).Loaded? && Classify(newer).Failed? ==>
      Applied(Applied(s, newer), older).errorMessage != ""
      && Applied(Applied(s, newer), older).movieList == Classify(older).movies
  {
  }

  /** The trending fetch settles with its flag down: on success at most ten
      movies; on failure the message, with the previous list kept. The results
      feed is untouched. */
  lemma TrendingSettles(s: ViewState, o: Outcome)
    ensures TrendingBegun(s).isTrendingLoading && TrendingBegun(s).trendingError == ""
    ensures var t := TrendingApplied(TrendingBegun(s), o);
      && !t.isTrendingLoading && (Valid(s) ==> Valid(t))
      && t.movieList == s.movieList && t.errorMessage == s.errorMessage && t.isLoading == s.isLoading
      && t.currentPage == s.currentPage && t.totalPages == s.totalPages && t.totalResults == s.totalResults
    ensures ClassifyTrending(o).TrendingFailed? ==> var t := TrendingApplied(TrendingBegun(s), o);
      t.trendingError == ClassifyTrending(o).message && t.trendingError != "" && t.trendingMovies == s.trendingMovies
    ensures ClassifyTrending(o).TrendingLoaded? ==> var t := TrendingApplied(TrendingBegun(s), o);
      t.trendingError == "" && t.trendingMovies == ClassifyTrending(o).movies
  {
    TrendingAtMostTen(o);
  }

  /** A settled term that differs from the recorded one resets the page to 1;
      the same term leaves the page alone. Either keeps the raw term. A page change
      keeps both terms. A click on the pagination bar from a page within range
      leads to a page within range, and from any page of at least 1 (a failed
      fetch can leave it past the last page) to a page of at least 1. */
  lemma NavigationEvents(s: ViewState, term: string, control: Pagination.Control)
    requires control.Entry? ==> control.item in Pagination.Window(s.currentPage, s.totalPages)
    ensures Settled(s, term).currentPage == 1 <==> term != s.debouncedTerm || s.currentPage == 1
    ensures Settled(s, term).debouncedTerm == term && Settled(s, term).searchTerm == s.searchTerm
    ensures var r := Pagination.Requested(s.currentPage, s.totalPages, control);
      r.Some? ==> Paged(s, r.value).searchTerm == s.searchTerm && Paged(s, r.value).debouncedTerm == s.debouncedTerm
    ensures var r := Pagination.Requested(s.currentPage, s.totalPages, control);
      r.Some? && Pagination.InRange(s.currentPage, s.totalPages) ==>
      Pagination.InRange(Paged(s, r.value).currentPage, Paged(s, r.value).totalPages)
    ensures var r := Pagination.Requested(s.currentPage, s.totalPages, control);
      r.Some? && s.currentPage >= 1 && s.totalPages >= 1 ==> Paged(s, r.value).currentPage >= 1
  {
    Pagination.ControlsStayInRange(s.currentPage, s.totalPages, control);
  }

  // ---------------------------------------------------------------------------
  // The component

  /** The `App` component's state, updated in place by its handlers. */
  class App {
    var searchTerm: string
    var debouncedTerm: string
    var errorMessage: string
    var movieList: seq<Movie>
    var trendingMovies: seq<Movie>
    var isLoading: bool
    var isTrendingLoading: bool
    var trendingError: string
    var currentPage: int
    var totalPages: int
    var totalResults: int

    /** The fields as one value. */
    function State(): ViewState
      reads this
    {
      ViewState(searchTerm, debouncedTerm, errorMessage, movieList, trendingMovies,
                isLoading, isTrendingLoading, trendingError, currentPage, totalPages, totalResults)
    }

    constructor ()
      ensures State() == Initial() && Valid(State())
    {
      searchTerm, debouncedTerm, errorMessage := "", "", "";
      movieList, trendingMovies := [], [];
      isLoading, isTrendingLoading, trendingError := false, false, "";
      currentPage, totalPages, totalResults := 1, 1, 0;
    }

    /** The search box's `setSearchTerm`. */
    method SetSearchTerm(term: string)
      modifies this
      ensures State() == Typed(old(State()), term)
    {
      searchTerm := term;
    }

    /** The debounced term settled: the effect on `debouncedSearchTerm`, which
        runs only when that term changed. */
    method TermSettled(term: string)
      modifies this
      ensures State() == Settled(old(State()), term)
    {
      if term != debouncedTerm {
        debouncedTerm := term;
        currentPage := 1;
      }
    }

    /** `handlePageChange`; scrolling the list into view is not state. */
    method PageChange(page: int)
      modifies this
      ensures State() == Paged(old(State()), page)
    {
      currentPage := page;
    }

    /** A click on the pagination bar, passed to `handlePageChange` when the
        control asks for a page. */
    method Navigate(control: Pagination.Control)
      requires control.Entry? ==> control.item in Pagination.Window(currentPage, totalPages)
      modifies this
      ensures var r := Pagination.Requested(old(currentPage), old(totalPages), control);
        State() == if r.Some? then Paged(old(State()), r.value) else old(State())
      ensures old(Pagination.InRange(currentPage, totalPages)) ==> Pagination.InRange(currentPage, totalPages)
      ensures old(currentPage >= 1 && totalPages >= 1) ==> currentPage >= 1
    {
      var requested := Pagination.Requested(currentPage, totalPages, control);
      Pagination.ControlsStayInRange(currentPage, totalPages, control);
      if requested.Some? {
        PageChange(requested.value);
      }
    }

    /** The start of `fetchMovies(debouncedSearchTerm, currentPage)`: the loading
        flag goes up, the error is cleared, and the endpoint is chosen. */
    method BeginFetch() returns (endpoint: Endpoint)
      modifies this
      ensures State() == Begun(old(State()))
      ensures endpoint == ChooseEndpoint(debouncedTerm, currentPage)
    {
      isLoading := true;
      errorMessage := "";
      if debouncedTerm != "" {
        endpoint := Search(debouncedTerm, currentPage);
      } else {
        endpoint := Discover(PopularityDesc, currentPage);
      }
    }

    /** The rest of `fetchMovies`: the `try` block, its `catch` and its `finally`. */
    method ApplyOutcome(o: Outcome)
      modifies this
      ensures State() == Applied(old(State()), o)
    {
      var thrown: Option<string> := None;
      match o {
        case NetworkFailure(reason) =>
          thrown := Some(reason);
        case Received(status, ok, payload) =>
          thrown := StatusError(status, ok, "movies");
          if thrown.None? {
            match payload {
              case Malformed(reason) =>
                thrown := Some(reason);
              case Json(body) =>
                if body.response == Some("False") {
                  errorMessage := StringOr(body.error, LogicalFailureFallback);
                  movieList := [];
                  totalPages := 1;
                  totalResults := 0;
                } else {
                  movieList := if body.results.Some? then body.results.value else [];
                  totalPages := ClampTotalPages(body.totalPages);
                  totalResults := NumberOr(body.totalResults, 0);
                }
            }
          }
      }
      if thrown.Some? {
        errorMessage := StringOr(Some(thrown.value), MoviesFallback);
        movieList := [];
        totalPages := 1;
        totalResults := 0;
      }
      isLoading := false;
    }

    /** The start of `fetchTrendingMovies`. */
    method BeginTrending()
      modifies this
      ensures State() == TrendingBegun(old(State()))
    {
      isTrendingLoading := true;
      trendingError := "";
    }

    /** The rest of `fetchTrendingMovies`. */
    method ApplyTrending(o: Outcome)
      modifies this
      ensures State() == TrendingApplied(old(State()), o)
    {
      var thrown: Option<string> := None;
      match o {
        case NetworkFailure(reason) =>
          thrown := Some(reason);
        case Received(status, ok, payload) =>
          thrown := StatusError(status, ok, "trending movies");
          if thrown.None? {
            match payload {
              case Malformed(reason) =>
                thrown := Some(reason);
              case Json(body) =>
                trendingMovies := TopTrending(body.results);
            }
          }
      }
      if thrown.Some? {
        trendingError := StringOr(Some(thrown.value), TrendingFallback);
      }
      isTrendingLoading := false;
    }
  }
}
