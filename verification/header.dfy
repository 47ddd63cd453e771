/** components/header.tsx: the expanding search box. The debounce timer and
    the request are left to the environment; what remains is a state record
    and the events that change it: opening the box, a change of query, a
    search that succeeds or fails, and closing the box. */
module Header {
  import opened Wrappers
  import opened Seqs
  import opened Js
  import opened Records
  import opened Tmdb

  const MaxResults: nat := 10

  /** `isSearchActive`, `searchQuery`, `searchResults`, `isSearching`. */
  datatype SearchState = SearchState(active: bool, query: string, results: seq<SearchItem>, searching: bool)

  /** A search request settles: `Succeeded` carries the parsed body (the
      status is not consulted), `Failed` stands for a thrown request. */
  datatype Event =
    | Open
    | QueryChanged(query: string)
    | Succeeded(body: ListBody<SearchItem>)
    | Failed
    | Close

  function Init(): SearchState {
    SearchState(false, "", [], false)
  }

  /** The effect that runs whenever the query changes: a blank query clears
      the results at once, any other query starts a search. */
  function QueryEffect(st: SearchState): (r: SearchState)
    ensures r.active == st.active && r.query == st.query
    ensures IsBlank(st.query) ==> r.results == [] && !r.searching
    ensures !IsBlank(st.query) ==> r.searching && r.results == st.results
  {
    if IsBlank(st.query) then st.(results := [], searching := false)
    else st.(searching := true)
  }

  /** `setSearchQuery(q)`: React re-runs the effect only if the query changed. */
  function SetQuery(st: SearchState, q: string): (r: SearchState)
    ensures r.query == q && r.active == st.active
    ensures q == st.query ==> r == st
    ensures q != st.query ==> r == QueryEffect(st.(query := q))
  {
    if q == st.query then st else QueryEffect(st.(query := q))
  }

  /** The results kept from a response: movies and series only, at most ten,
      in the order the response lists them. */
  function StoredResults(body: ListBody<SearchItem>): (r: seq<SearchItem>)
    ensures |r| <= MaxResults
    ensures forall i :: 0 <= i < |r| ==> IsMovieOrTv(r[i])
    ensures |r| == Min(MaxResults, |Filter(IsMovieOrTv, ResultsOf(body))|)
    ensures r <= Filter(IsMovieOrTv, ResultsOf(body))
    ensures |Filter(IsMovieOrTv, ResultsOf(body))| <= MaxResults ==> r == Filter(IsMovieOrTv, ResultsOf(body))
    ensures Subsequence(r, ResultsOf(body))
  {
    var all := Filter(IsMovieOrTv, ResultsOf(body));
    FilterIsSubsequence(IsMovieOrTv, ResultsOf(body));
    PrefixIsSubsequence(Take(all, MaxResults), all);
    SubsequenceTransitive(Take(all, MaxResults), all, ResultsOf(body));
    Take(all, MaxResults)
  }

  /** `handleCloseSearch`: the box closes and the query and results clear;
      clearing the query also runs the query effect. */
  function CloseSearch(st: SearchState): (r: SearchState)
    ensures !r.active && r.query == "" && r.results == []
    ensures st.query != "" ==> !r.searching
    ensures st.query == "" ==> r.searching == st.searching
  {
    SetQuery(st.(active := false, results := []), "")
  }

  /** One event: opening the box, typing, a search settling, closing. */
  function Step(st: SearchState, e: Event): (r: SearchState)
    ensures e.Open? ==> r == st.(active := true)
    ensures e.QueryChanged? ==> r.query == e.query && r.active == st.active
    ensures e.QueryChanged? && e.query == st.query ==> r == st
    ensures e.QueryChanged? && e.query != st.query ==> r == QueryEffect(st.(query := e.query))
    ensures e.Succeeded? ==>
              r == st.(results := StoredResults(e.body), searching := false)
    ensures e.Failed? ==> r == st.(results := [], searching := false)
    ensures e.Close? ==> r == CloseSearch(st)
  {
    match e
    case Open => st.(active := true)
    case QueryChanged(q) => SetQuery(st, q)
    case Succeeded(body) => st.(results := StoredResults(body), searching := false)
    case Failed => st.(results := [], searching := false)
    case Close => CloseSearch(st)
  }

  function Run(st: SearchState, es: seq<Event>): SearchState
    decreases |es|
  {
    if es == [] then st else Run(Step(st, es[0]), es[1..])
  }

  /** What every reachable state keeps: at most ten results, all of them
      movies or series, and no search running for a blank query. */
  ghost predicate Inv(st: SearchState) {
    && |st.results| <= MaxResults
    && (forall i :: 0 <= i < |st.results| ==> IsMovieOrTv(st.results[i]))
    && (IsBlank(st.query) ==> !st.searching)
  }

  /** Searching ends with every settled request, and a failure leaves no results. */
  lemma SettledSearch(st: SearchState, body: ListBody<SearchItem>)
    ensures !Step(st, Succeeded(body)).searching
    ensures Step(st, Succeeded(body)).results == StoredResults(body)
    ensures !Step(st, Failed).searching && Step(st, Failed).results == []
  {
  }

  lemma StepKeepsInv(st: SearchState, e: Event)
    requires Inv(st)
    ensures Inv(Step(st, e))
  {
  }

  lemma {:induction false} RunKeepsInv(st: SearchState, es: seq<Event>)
    requires Inv(st)
    ensures Inv(Run(st, es))
    decreases |es|
  {
    if es != [] {
      StepKeepsInv(st, es[0]);
      RunKeepsInv(Step(st, es[0]), es[1..]);
    }
  }

  /** Every state reached from the initial one keeps the invariant. */
  lemma ReachableInv(es: seq<Event>)
    ensures Inv(Run(Init(), es))
  {
    RunKeepsInv(Init(), es);
  }

  /** Closing from any reachable state leaves no search running: either the
      cleared query runs the effect, or the query was already blank. */
  lemma ReachableCloseStopsSearching(es: seq<Event>)
    ensures !Step(Run(Init(), es), Close).searching
  {
    ReachableInv(es);
  }

  // ---------------------------------------------------------------------
  // The results panel.

  /** How one result is listed. */
  datatype ItemView = ItemView(isTv: bool, title: Option<string>, year: Option<string>, href: string)

  /** The title, year and link of one result: series use `name`,
      `first_air_date` and `/tv/{id}`, everything else `title`,
      `release_date` and `/movie/{id}`. */
  function ViewItem(item: SearchItem): (r: ItemView)
    ensures r.isTv <==> item.mediaType == Some("tv")
    ensures r.title == (if r.isTv then item.name else item.title)
    ensures r.isTv ==> r.year == SliceOption(item.firstAirDate, 4)
    ensures !r.isTv ==> r.year == SliceOption(item.releaseDate, 4)
    ensures r.isTv ==> |r.href| > 4 && r.href[..4] == "/tv/" && ParseInt(r.href[4..]) == Some(item.id)
    ensures !r.isTv ==> |r.href| > 7 && r.href[..7] == "/movie/" && ParseInt(r.href[7..]) == Some(item.id)
    ensures r.isTv ==> r.href[4..] == IntToString(item.id)
    ensures !r.isTv ==> r.href[7..] == IntToString(item.id)
  {
    IntToStringRoundTrip(item.id);
    var isTv := item.mediaType == Some("tv");
    var href := (if isTv then "/tv/" else "/movie/") + IntToString(item.id);
    assert isTv ==> href[4..] == IntToString(item.id);
    assert !isTv ==> href[7..] == IntToString(item.id);
    ItemView(
      isTv,
      if isTv then item.name else item.title,
      if isTv then SliceOption(item.firstAirDate, 4) else SliceOption(item.releaseDate, 4),
      href)
  }

  /** What the results panel shows. */
  datatype Panel = Hidden | Spinner | Results(items: seq<ItemView>) | NoResults(query: string)

  /** The panel (and the blurred overlay behind it) appears only while the
      box is open with a query that is not blank. */
  function PanelOf(st: SearchState): (r: Panel)
    ensures r.Hidden? <==> !st.active || IsBlank(st.query)
    ensures r.Spinner? <==> st.active && !IsBlank(st.query) && st.searching
    ensures r.Results? <==> st.active && !IsBlank(st.query) && !st.searching && st.results != []
    ensures r.NoResults? <==> st.active && !IsBlank(st.query) && !st.searching && st.results == []
    ensures r.Results? ==> |r.items| == |st.results| && st.results != []
    ensures r.Results? ==> forall i :: 0 <= i < |r.items| ==> r.items[i] == ViewItem(st.results[i])
    ensures r.NoResults? ==> st.results == [] && r.query == st.query
  {
    if !st.active || IsBlank(st.query) then Hidden
    else if st.searching then Spinner
    else if |st.results| > 0 then Results(Map(ViewItem, st.results))
    else NoResults(st.query)
  }

  /** Closing always hides the panel. */
  lemma CloseHidesPanel(st: SearchState)
    ensures PanelOf(Step(st, Close)) == Hidden
  {
  }

  /** Typing a query that is not blank into the open box shows the spinner
      until the search settles. */
  lemma TypingShowsSpinner(st: SearchState, q: string)
    requires st.active && q != st.query && !IsBlank(q)
    ensures Step(st, QueryChanged(q)).searching
    ensures PanelOf(Step(st, QueryChanged(q))) == Spinner
  {
  }
}
