/** app/movie-detail/page.tsx: the mapping inside `fetchData` from the three
    responses (details, similar movies, credits) to the hero props and the
    similar-content cards. */
module MovieDetail {
  import opened Wrappers
  import opened Seqs
  import opened Js
  import opened Records
  import opened Tmdb
  import opened Views

  /** What `fetchData` stores with `setData`. */
  datatype MovieData = MovieData(movie: Movie, hero: HeroProps, similar: seq<SimilarCard>)

  /** `credits.crew?.find(Director)?.name || "정보 없음"`. */
  function MovieDirector(credits: Credits): (r: string)
    ensures r != ""
    ensures credits.crew.None? ==> r == NoInfo
    ensures credits.crew.Some? && NoneSatisfy(IsDirector, credits.crew.value) ==> r == NoInfo
    ensures credits.crew.Some? ==>
              forall i :: IsFirst(IsDirector, credits.crew.value, i) ==>
                r == (if credits.crew.value[i].name != "" then credits.crew.value[i].name else NoInfo)
  {
    CrewDirectorIsFirstDirector(credits);
    OrString(CrewDirector(credits), NoInfo)
  }

  /** `runtime ? "{runtime}분" : "정보 없음"`. */
  function MovieDuration(runtime: Option<int>): (r: string)
    ensures !TruthyNumber(runtime) ==> r == NoInfo
    ensures TruthyNumber(runtime) ==> |r| > 1 && r[|r| - 1] == '분'
    ensures TruthyNumber(runtime) ==> ParseInt(r[..|r| - 1]) == Some(runtime.value)
    ensures TruthyNumber(runtime) ==> r[..|r| - 1] == IntToString(runtime.value)
  {
    if TruthyNumber(runtime) then
      MinutesRoundTrip(runtime.value);
      Minutes(runtime.value)
    else NoInfo
  }

  /** `movieDisplayData`. */
  function MovieHero(id: string, imageBase: string, movie: Movie, credits: Credits): (r: HeroProps)
    ensures r.contentType == MovieContent && r.contentId == id
    ensures r.title != ""
    ensures TruthyString(movie.title) ==> r.title == movie.title.value
    ensures !TruthyString(movie.title) ==> r.title == NoTitle
    ensures r.backgroundImage == ImagePath(imageBase, movie.backdropPath)
    ensures r.year == YearOf(movie.releaseDate)
    ensures r.rating.NotRated? <==> !TruthyReal(movie.voteAverage)
    ensures !TruthyReal(movie.voteAverage) ==> r.matchPercentage == HeroDefaultMatch
    ensures r.matchPercentage == MatchPercentage(movie.voteAverage, HeroDefaultMatch)
    ensures r.rating == RatingOf(movie.voteAverage)
    ensures r.duration == MovieDuration(movie.runtime)
    ensures r.description == OrString(movie.overview, NoDescription)
    ensures r.genres == GenreNames(movie.genres)
    ensures r.cast == CastNames(credits) && |r.cast| <= MaxCast
    ensures r.director == MovieDirector(credits)
  {
    HeroProps(
      title := OrString(movie.title, NoTitle),
      backgroundImage := ImagePath(imageBase, movie.backdropPath),
      year := YearOf(movie.releaseDate),
      rating := RatingOf(movie.voteAverage),
      duration := MovieDuration(movie.runtime),
      matchPercentage := MatchPercentage(movie.voteAverage, HeroDefaultMatch),
      description := OrString(movie.overview, NoDescription),
      genres := GenreNames(movie.genres),
      cast := CastNames(credits),
      director := MovieDirector(credits),
      contentId := id,
      contentType := MovieContent)
  }

  /** One element of `mappedSimilarMovies`. */
  function SimilarMovieCard(imageBase: string, m: SimilarMovie): (r: SimilarCard)
    ensures r.id == m.id && r.title == m.title
    ensures r.imageUrl == ImagePath(imageBase, m.posterPath)
    ensures r.year == YearOf(m.releaseDate)
    ensures r.duration == MovieDuration(m.runtime)
    ensures !TruthyReal(m.voteAverage) ==> r.matchPercentage == SimilarDefaultMatch
    ensures r.matchPercentage == MatchPercentage(m.voteAverage, SimilarDefaultMatch)
    ensures r.rating == "19+" <==> TruthyBool(m.adult)
    ensures r.rating == "15+" <==> !TruthyBool(m.adult)
    ensures r.description == OrString(m.overview, "")
  {
    SimilarCard(
      id := m.id,
      title := m.title,
      imageUrl := ImagePath(imageBase, m.posterPath),
      year := YearOf(m.releaseDate),
      duration := MovieDuration(m.runtime),
      matchPercentage := MatchPercentage(m.voteAverage, SimilarDefaultMatch),
      rating := AgeRating(m.adult),
      description := OrString(m.overview, ""))
  }

  /** `mappedSimilarMovies`: the first at most eight, in order. */
  function SimilarMovieCards(imageBase: string, ms: seq<SimilarMovie>): (r: seq<SimilarCard>)
    ensures |r| == Min(MaxSimilar, |ms|)
    ensures forall i :: 0 <= i < |r| ==> r[i] == SimilarMovieCard(imageBase, ms[i])
    ensures forall i :: 0 <= i < |r| ==> r[i].id == ms[i].id
  {
    FirstSimilar((m: SimilarMovie) => SimilarMovieCard(imageBase, m), ms)
  }

  /** `Promise.all` of the three requests followed by the mapping: any
      rejection leaves nothing to store. */
  function LoadMovie(id: string, imageBase: string, movieF: Fetch<Movie>,
                     similarF: Fetch<ListBody<SimilarMovie>>, creditsF: Fetch<Credits>): (r: Option<MovieData>)
    ensures r.Some? <==> movieF.Answered? && movieF.ok && similarF.Answered? &&
                         creditsF.Answered? && creditsF.ok
    ensures r.Some? ==> r.value.movie == movieF.body
    ensures r.Some? ==> r.value.hero == MovieHero(id, imageBase, movieF.body, creditsF.body)
    ensures r.Some? ==> r.value.similar == SimilarMovieCards(imageBase, ResultsOf(similarF.body))
  {
    match (Checked(movieF), ResultsOrEmpty(similarF), Checked(creditsF))
    case (Ok(movie), Ok(similar), Ok(credits)) =>
      Some(MovieData(movie, MovieHero(id, imageBase, movie, credits), SimilarMovieCards(imageBase, similar)))
    case _ => None
  }

  /** A page load from the start of `fetchData` to its end. */
  function FetchMovie(id: Option<string>, imageBase: string, st: PageState<MovieData>,
                      movieF: Fetch<Movie>, similarF: Fetch<ListBody<SimilarMovie>>,
                      creditsF: Fetch<Credits>): (r: PageState<MovieData>)
    ensures !TruthyString(id) ==> r == st
    ensures TruthyString(id) ==> !r.loading
    ensures TruthyString(id) ==>
              r.data == (match LoadMovie(id.value, imageBase, movieF, similarF, creditsF)
                         case Some(d) => Some(d)
                         case None => st.data)
  {
    if TruthyString(id) then
      EndFetch(BeginFetch(id, st), LoadMovie(id.value, imageBase, movieF, similarF, creditsF))
    else st
  }

  /** After a successful load the page shows the hero for that id; after a
      failed one it shows whatever data it already held. */
  lemma FetchMovieView(id: string, imageBase: string, st: PageState<MovieData>,
                       movieF: Fetch<Movie>, similarF: Fetch<ListBody<SimilarMovie>>,
                       creditsF: Fetch<Credits>)
    requires id != ""
    ensures var r := FetchMovie(Some(id), imageBase, st, movieF, similarF, creditsF);
            var v := ViewOf(Some(id), r);
            && (LoadMovie(id, imageBase, movieF, similarF, creditsF).Some? ==>
                  v.Ready? && v.data.hero.contentId == id && v.data.hero.contentType == MovieContent)
            && (LoadMovie(id, imageBase, movieF, similarF, creditsF).None? ==>
                  (v.Ready? <==> st.data.Some?))
  {
  }
}
