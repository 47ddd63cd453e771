/** components/movie-detail-sheet.tsx: the fields the sheet derives from the
    details it fetched, the link to the detail page, and the loading state. */
module DetailSheet {
  import opened Wrappers
  import opened Seqs
  import opened Js
  import opened Records
  import opened Tmdb

  const DefaultTitle: string := "영화 정보"
  const NoOverview: string := "줄거리 정보가 없습니다."
  const MaxGenres: nat := 3
  const MaxCompanies: nat := 2

  /** `movieDetails?.title || movieDetails?.name || "영화 정보"`. */
  function SheetTitle(d: Option<Movie>): (r: string)
    ensures r != ""
    ensures d.Some? && TruthyString(d.value.title) ==> r == d.value.title.value
    ensures d.Some? && !TruthyString(d.value.title) && TruthyString(d.value.name) ==> r == d.value.name.value
    ensures d.None? || (!TruthyString(d.value.title) && !TruthyString(d.value.name)) ==> r == DefaultTitle
  {
    match d
    case None => DefaultTitle
    case Some(m) => OrString(OrOption(m.title, m.name), DefaultTitle)
  }

  /** `movieDetails?.overview || "줄거리 정보가 없습니다."`. */
  function SheetOverview(d: Option<Movie>): (r: string)
    ensures r != ""
    ensures d.Some? && TruthyString(d.value.overview) ==> r == d.value.overview.value
    ensures d.None? || !TruthyString(d.value.overview) ==> r == NoOverview
  {
    match d
    case None => NoOverview
    case Some(m) => OrString(m.overview, NoOverview)
  }

  /** `vote_average?.toFixed(1) || "N/A"`: the text of a number is never
      empty, so a score (zero included) is shown whenever it is present. */
  function SheetVote(d: Option<Movie>): (r: Option<real>)
    ensures r.Some? <==> d.Some? && d.value.voteAverage.Some?
    ensures r.Some? ==> r.value == d.value.voteAverage.value
  {
    match d
    case None => None
    case Some(m) => m.voteAverage
  }

  /** `release_date?.slice(0, 4) || first_air_date?.slice(0, 4) || ""`. */
  function SheetYear(d: Option<Movie>): (r: string)
    ensures |r| <= 4
    ensures d.None? ==> r == ""
    ensures d.Some? && TruthyString(d.value.releaseDate) ==> r == YearOf(d.value.releaseDate)
    ensures d.Some? && !TruthyString(d.value.releaseDate) ==> r == YearOf(d.value.firstAirDate)
  {
    match d
    case None => ""
    case Some(m) => OrString(OrOption(SliceOption(m.releaseDate, 4), SliceOption(m.firstAirDate, 4)), "")
  }

  /** `runtime ? "{runtime}분" : episode_run_time?.[0] ? "{…}분" : ""`:
      both are tested for truthiness, so zero minutes shows nothing. */
  function SheetRuntime(d: Option<Movie>): (r: string)
    ensures d.Some? && TruthyNumber(d.value.runtime) ==> r == Minutes(d.value.runtime.value)
    ensures d.Some? && !TruthyNumber(d.value.runtime) && TruthyNumber(FirstRunTime(d.value)) ==>
              r == Minutes(FirstRunTime(d.value).value)
    ensures d.None? || (!TruthyNumber(d.value.runtime) && !TruthyNumber(FirstRunTime(d.value))) ==> r == ""
  {
    match d
    case None => ""
    case Some(m) =>
      if TruthyNumber(m.runtime) then Minutes(m.runtime.value)
      else if TruthyNumber(FirstRunTime(m)) then Minutes(FirstRunTime(m).value)
      else ""
  }

  /** `episode_run_time?.[0]`. */
  function FirstRunTime(m: Movie): Option<int> {
    match m.episodeRunTime
    case Some(ert) => if ert != [] then Some(ert[0]) else None
    case None => None
  }

  /** `genres?.slice(0, 3).map(g => g.name).join(", ") || ""`. */
  function SheetGenres(d: Option<Movie>): (r: string)
    ensures d.None? || d.value.genres.None? ==> r == ""
    ensures d.Some? && d.value.genres.Some? && d.value.genres.value == [] ==> r == ""
    ensures d.Some? && d.value.genres.Some? ==>
              exists names: seq<string> ::
                && |names| == Min(MaxGenres, |d.value.genres.value|)
                && (forall i :: 0 <= i < |names| ==> names[i] == d.value.genres.value[i].name)
                && r == Join(names, ", ")
  {
    match d
    case None => ""
    case Some(m) =>
      match m.genres
      case None => ""
      case Some(gs) =>
        var names := Map((g: Genre) => g.name, Take(gs, MaxGenres));
        assert forall i :: 0 <= i < |names| ==> names[i] == gs[i].name;
        Join(names, ", ")
  }

  /** The names shown after "제작사": the first two companies, or no line
      at all when there are none. */
  function CompanyNames(m: Movie): (r: Option<seq<string>>)
    ensures r.Some? <==> m.productionCompanies.Some? && m.productionCompanies.value != []
    ensures r.Some? ==> |r.value| == Min(MaxCompanies, |m.productionCompanies.value|)
    ensures r.Some? ==> 0 < |r.value| <= MaxCompanies
    ensures r.Some? ==> forall i :: 0 <= i < |r.value| ==> r.value[i] == m.productionCompanies.value[i].name
  {
    match m.productionCompanies
    case Some(cs) => if |cs| > 0 then Some(Map((c: Company) => c.name, Take(cs, MaxCompanies))) else None
    case None => None
  }

  /** The names shown after "언어": every spoken language, or no line. */
  function LanguageNames(m: Movie): (r: Option<seq<string>>)
    ensures r.Some? <==> m.spokenLanguages.Some? && m.spokenLanguages.value != []
    ensures r.Some? ==> |r.value| == |m.spokenLanguages.value|
    ensures r.Some? ==> forall i :: 0 <= i < |r.value| ==> r.value[i] == m.spokenLanguages.value[i].englishName
  {
    match m.spokenLanguages
    case Some(ls) => if |ls| > 0 then Some(Map((l: Language) => l.englishName, ls)) else None
    case None => None
  }

  /** The extra-information block appears when either line does. */
  predicate ShowExtras(m: Movie) {
    CompanyNames(m).Some? || LanguageNames(m).Some?
  }

  /** `/{hrefBase}-detail?id={movieId}`, with `hrefBase` defaulting to
      "movie" when not passed and a null id printed as "null". */
  function DetailLink(hrefBase: Option<string>, movieId: Option<int>): (r: string)
    ensures var base := hrefBase.GetOr("movie");
            && |r| > |base| + 1
            && r[..|base| + 1] == "/" + base
    ensures var base := hrefBase.GetOr("movie");
            var rest := r[|base| + 1..];
            && |rest| >= 11 && rest[..11] == "-detail?id="
            && (movieId.Some? ==> ParseInt(rest[11..]) == Some(movieId.value))
            && (movieId.Some? ==> rest[11..] == IntToString(movieId.value))
            && (movieId.None? ==> rest[11..] == "null")
  {
    var base := hrefBase.GetOr("movie");
    var id := match movieId case Some(n) => IntToString(n) case None => "null";
    IntToStringRoundTrip(movieId.GetOr(0));
    var head := "/" + base;
    var tail := "-detail?id=" + id;
    assert (head + tail)[..|head|] == head;
    assert (head + tail)[|head|..] == tail;
    assert tail[..11] == "-detail?id=" && tail[11..] == id;
    head + tail
  }

  // ---------------------------------------------------------------------
  // Loading.

  /** `movieDetails` and `loading`. */
  datatype SheetState = SheetState(details: Option<Movie>, loading: bool)

  function InitialSheet(): SheetState {
    SheetState(None, false)
  }

  /** The effect on `[isOpen, movieId]`: opening with a truthy id clears the
      old details and starts loading; anything else changes nothing. */
  function OpenWith(st: SheetState, isOpen: bool, movieId: Option<int>): (r: SheetState)
    ensures isOpen && TruthyNumber(movieId) ==> r == SheetState(None, true)
    ensures !(isOpen && TruthyNumber(movieId)) ==> r == st
  {
    if isOpen && TruthyNumber(movieId) then SheetState(None, true) else st
  }

  /** `getMovieDetails(...).then(...).catch(...).finally(...)`: the details
      are stored only when the request succeeds; loading ends either way. */
  function DetailsSettled(st: SheetState, f: Fetch<Movie>): (r: SheetState)
    ensures !r.loading
    ensures f.Answered? && f.ok ==> r.details == Some(f.body)
    ensures !(f.Answered? && f.ok) ==> r.details == st.details
  {
    match Checked(f)
    case Ok(m) => SheetState(Some(m), false)
    case Err(_) => st.(loading := false)
  }

  /** The skeleton stands in for the content while loading or without details. */
  predicate ShowSkeleton(st: SheetState) {
    st.loading || st.details.None?
  }

  /** Opening the sheet shows the skeleton until the details arrive, and a
      failed request leaves it showing. */
  lemma OpenShowsSkeleton(st: SheetState, movieId: int, f: Fetch<Movie>)
    requires movieId != 0
    ensures ShowSkeleton(OpenWith(st, true, Some(movieId)))
    ensures ShowSkeleton(DetailsSettled(OpenWith(st, true, Some(movieId)), f)) <==> !(f.Answered? && f.ok)
  {
  }

  /** Unlike the series detail page, which prints "0분" for a first episode
      run time of zero, the sheet shows no run time for it. */
  lemma ZeroRunTimeHidden(m: Movie)
    requires !TruthyNumber(m.runtime) && m.episodeRunTime.Some? && m.episodeRunTime.value != []
    requires m.episodeRunTime.value[0] == 0
    ensures SheetRuntime(Some(m)) == ""
  {
  }
}
