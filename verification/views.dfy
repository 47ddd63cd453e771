/** The view records the detail pages hand to their components, and the
    derivations app/movie-detail/page.tsx and app/tv-detail/page.tsx share. */
module Views {
  import opened Wrappers
  import opened Seqs
  import opened Js
  import opened Records

  const NoInfo: string := "정보 없음"
  const NoTitle: string := "제목 없음"
  const NoDescription: string := "상세 정보가 없습니다."
  const HeroDefaultMatch: int := 85
  const SimilarDefaultMatch: int := 75
  const MaxCast: nat := 5
  const MaxSimilar: nat := 8

  datatype ContentType = MovieContent | TvContent

  /** The rating badge: `평점 {average.toFixed(1)}`, or "N/A". */
  datatype Rating = Score(average: real) | NotRated

  /** The props of MovieDetailHero. */
  datatype HeroProps = HeroProps(
    title: string,
    backgroundImage: string,
    year: string,
    rating: Rating,
    duration: string,
    matchPercentage: int,
    description: string,
    genres: seq<string>,
    cast: seq<string>,
    director: string,
    contentId: string,
    contentType: ContentType)

  /** One card of SimilarContent. */
  datatype SimilarCard = SimilarCard(
    id: int,
    title: Option<string>,
    imageUrl: string,
    year: string,
    duration: string,
    matchPercentage: int,
    rating: string,
    description: string)

  /** `vote ? Math.floor(vote * 10) : fallback`, over exact reals. */
  function MatchPercentage(vote: Option<real>, fallback: int): (r: int)
    ensures !TruthyReal(vote) ==> r == fallback
    ensures TruthyReal(vote) ==> r as real <= vote.value * 10.0 < r as real + 1.0
  {
    if TruthyReal(vote) then (vote.value * 10.0).Floor else fallback
  }

  /** `vote ? 평점 … : "N/A"`. */
  function RatingOf(vote: Option<real>): (r: Rating)
    ensures r.NotRated? <==> !TruthyReal(vote)
    ensures r.Score? ==> r.average == vote.value
  {
    if TruthyReal(vote) then Score(vote.value) else NotRated
  }

  /** `adult ? "19+" : "15+"`. */
  function AgeRating(adult: Option<bool>): (r: string)
    ensures r == "19+" <==> TruthyBool(adult)
    ensures r == "15+" <==> !TruthyBool(adult)
  {
    if TruthyBool(adult) then "19+" else "15+"
  }

  /** `genres?.map(g => g.name) || []`. */
  function GenreNames(genres: Option<seq<Genre>>): (r: seq<string>)
    ensures genres.None? ==> r == []
    ensures genres.Some? ==> |r| == |genres.value|
    ensures genres.Some? ==> forall i :: 0 <= i < |r| ==> r[i] == genres.value[i].name
  {
    match genres
    case None => []
    case Some(gs) => Map((g: Genre) => g.name, gs)
  }

  /** `credits.cast?.slice(0, 5).map(a => a.name) || []`. */
  function CastNames(credits: Credits): (r: seq<string>)
    ensures |r| <= MaxCast
    ensures credits.cast.None? ==> r == []
    ensures credits.cast.Some? ==> |r| == Min(MaxCast, |credits.cast.value|)
    ensures credits.cast.Some? ==> forall i :: 0 <= i < |r| ==> r[i] == credits.cast.value[i].name
  {
    match credits.cast
    case None => []
    case Some(cast) => Map((c: Credit) => c.name, Take(cast, MaxCast))
  }

  predicate IsDirector(c: Credit) {
    c.job == Some("Director")
  }

  /** `credits.crew?.find(p => p.job === "Director")?.name`. */
  function CrewDirector(credits: Credits): Option<string> {
    match credits.crew
    case None => None
    case Some(crew) =>
      match Find(IsDirector, crew)
      case None => None
      case Some(c) => Some(c.name)
  }

  /** The crew's director is the name of the first crew member whose job is
      "Director"; there is none when the crew is missing or has no director. */
  lemma CrewDirectorIsFirstDirector(credits: Credits)
    ensures credits.crew.None? ==> CrewDirector(credits).None?
    ensures credits.crew.Some? ==>
              (CrewDirector(credits).None? <==> NoneSatisfy(IsDirector, credits.crew.value))
    ensures credits.crew.Some? ==>
              forall i :: IsFirst(IsDirector, credits.crew.value, i) ==>
                CrewDirector(credits) == Some(credits.crew.value[i].name)
  {
  }

  /** `x.slice(0, 8)` followed by a per-item mapping. */
  function FirstSimilar<T>(card: T -> SimilarCard, items: seq<T>): (r: seq<SimilarCard>)
    ensures |r| == Min(MaxSimilar, |items|)
    ensures forall i :: 0 <= i < |r| ==> r[i] == card(items[i])
  {
    Map(card, Take(items, MaxSimilar))
  }

  // ---------------------------------------------------------------------
  // The loading state both detail pages keep.

  /** `loading` and `data` of a detail page. */
  datatype PageState<+D> = PageState(loading: bool, data: Option<D>)

  /** What the page renders. */
  datatype PageView<+D> = InvalidId | Loading | Ready(data: D)

  function InitialPage<D>(): PageState<D> {
    PageState(true, None)
  }

  /** The start of `fetchData`: nothing happens without an id. */
  function BeginFetch<D>(id: Option<string>, st: PageState<D>): (r: PageState<D>)
    ensures !TruthyString(id) ==> r == st
    ensures TruthyString(id) ==> r.loading && r.data == st.data
  {
    if TruthyString(id) then st.(loading := true) else st
  }

  /** The end of `fetchData`: the data is replaced only when every request
      succeeded, and loading ends either way. */
  function EndFetch<D>(st: PageState<D>, loaded: Option<D>): (r: PageState<D>)
    ensures !r.loading
    ensures loaded.Some? ==> r.data == loaded
    ensures loaded.None? ==> r.data == st.data
  {
    match loaded
    case Some(_) => PageState(false, loaded)
    case None => st.(loading := false)
  }

  /** "Invalid ID" without an id; "Loading..." while loading or without data. */
  function ViewOf<D>(id: Option<string>, st: PageState<D>): (r: PageView<D>)
    ensures r.InvalidId? <==> !TruthyString(id)
    ensures r.Ready? <==> TruthyString(id) && !st.loading && st.data.Some?
    ensures r.Ready? ==> r.data == st.data.value
  {
    if !TruthyString(id) then InvalidId
    else if st.loading || st.data.None? then Loading
    else Ready(st.data.value)
  }
}
