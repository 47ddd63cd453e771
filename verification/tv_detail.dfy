/** app/tv-detail/page.tsx: the mapping inside `fetchData` from the four
    responses (details, credits, season 1, similar series) to the hero props,
    the episode section and the similar-content cards, and the visibility of
    the detail lines and sections. */
module TvDetail {
  import opened Wrappers
  import opened Seqs
  import opened Js
  import opened Records
  import opened Tmdb
  import opened Views

  /** What `fetchData` stores with `setData`. */
  datatype TvData = TvData(tv: Tv, hero: HeroProps, episodes: seq<Episode>, similar: seq<SimilarCard>)

  /** `tv.created_by?.[0]?.name`. */
  function FirstCreator(tv: Tv): Option<string> {
    match tv.createdBy
    case Some(cs) => if cs != [] then Some(cs[0].name) else None
    case None => None
  }

  /** `created_by[0].name || crew.find(Director)?.name || "정보 없음"`. */
  function TvDirector(tv: Tv, credits: Credits): (r: string)
    ensures r != ""
    ensures TruthyString(FirstCreator(tv)) ==> r == FirstCreator(tv).value
    ensures !TruthyString(FirstCreator(tv)) && TruthyString(CrewDirector(credits)) ==>
              r == CrewDirector(credits).value
    ensures !TruthyString(FirstCreator(tv)) && !TruthyString(CrewDirector(credits)) ==> r == NoInfo
  {
    OrString(OrOption(FirstCreator(tv), CrewDirector(credits)), NoInfo)
  }

  /** A creator takes precedence over every crew member: with a named first
      creator, the crew is not consulted. */
  lemma TvDirectorPrefersCreator(tv: Tv, credits: Credits, credits': Credits)
    requires tv.createdBy.Some? && tv.createdBy.value != [] && tv.createdBy.value[0].name != ""
    ensures TvDirector(tv, credits) == TvDirector(tv, credits') == tv.createdBy.value[0].name
  {
  }

  /** `시즌 N개`. */
  function SeasonsLabel(n: int): string {
    "시즌 " + IntToString(n) + "개"
  }

  /** `에피소드 N개`. */
  function EpisodesLabel(n: int): string {
    "에피소드 " + IntToString(n) + "개"
  }

  /** The duration shown in the hero: the season count when it is truthy,
      else the first episode run time when it is a number (zero included),
      else "정보 없음". */
  function TvDuration(tv: Tv): (r: string)
    ensures TruthyNumber(tv.numberOfSeasons) ==> r == SeasonsLabel(tv.numberOfSeasons.value)
    ensures !TruthyNumber(tv.numberOfSeasons) && tv.episodeRunTime.Some? && tv.episodeRunTime.value != [] ==>
              r == Minutes(tv.episodeRunTime.value[0])
    ensures !TruthyNumber(tv.numberOfSeasons) && (tv.episodeRunTime.None? || tv.episodeRunTime.value == []) ==>
              r == NoInfo
  {
    if TruthyNumber(tv.numberOfSeasons) then SeasonsLabel(tv.numberOfSeasons.value)
    else match tv.episodeRunTime
      case Some(ert) => if ert != [] then Minutes(ert[0]) else NoInfo
      case None => NoInfo
  }

  /** `heroData`. */
  function TvHero(id: string, imageBase: string, tv: Tv, credits: Credits): (r: HeroProps)
    ensures r.contentType == TvContent && r.contentId == id
    ensures r.title != ""
    ensures TruthyString(tv.name) ==> r.title == tv.name.value
    ensures !TruthyString(tv.name) && TruthyString(tv.originalName) ==> r.title == tv.originalName.value
    ensures !TruthyString(tv.name) && !TruthyString(tv.originalName) ==> r.title == NoTitle
    ensures r.backgroundImage == ImagePath(imageBase, tv.backdropPath)
    ensures r.year == YearOf(tv.firstAirDate)
    ensures r.rating.NotRated? <==> !TruthyReal(tv.voteAverage)
    ensures !TruthyReal(tv.voteAverage) ==> r.matchPercentage == HeroDefaultMatch
    ensures r.matchPercentage == MatchPercentage(tv.voteAverage, HeroDefaultMatch)
    ensures r.rating == RatingOf(tv.voteAverage)
    ensures r.duration == TvDuration(tv)
    ensures r.description == OrString(tv.overview, NoDescription)
    ensures r.genres == GenreNames(tv.genres)
    ensures r.cast == CastNames(credits) && |r.cast| <= MaxCast
    ensures r.director == TvDirector(tv, credits)
  {
    HeroProps(
      title := OrString(OrOption(tv.name, tv.originalName), NoTitle),
      backgroundImage := ImagePath(imageBase, tv.backdropPath),
      year := YearOf(tv.firstAirDate),
      rating := RatingOf(tv.voteAverage),
      duration := TvDuration(tv),
      matchPercentage := MatchPercentage(tv.voteAverage, HeroDefaultMatch),
      description := OrString(tv.overview, NoDescription),
      genres := GenreNames(tv.genres),
      cast := CastNames(credits),
      director := TvDirector(tv, credits),
      contentId := id,
      contentType := TvContent)
  }

  /** One element of `mappedSimilarTV`. The title has no final fallback and
      may be missing. */
  function SimilarTvCard(imageBase: string, t: SimilarTv): (r: SimilarCard)
    ensures r.id == t.id
    ensures r.title == OrOption(t.name, t.originalName)
    ensures r.imageUrl == ImagePath(imageBase, t.posterPath)
    ensures r.year == YearOf(t.firstAirDate)
    ensures TruthyNumber(t.numberOfEpisodes) ==> r.duration == EpisodesLabel(t.numberOfEpisodes.value)
    ensures !TruthyNumber(t.numberOfEpisodes) ==> r.duration == NoInfo
    ensures !TruthyReal(t.voteAverage) ==> r.matchPercentage == SimilarDefaultMatch
    ensures r.matchPercentage == MatchPercentage(t.voteAverage, SimilarDefaultMatch)
    ensures r.rating == "19+" <==> TruthyBool(t.adult)
    ensures r.rating == "15+" <==> !TruthyBool(t.adult)
    ensures r.description == OrString(t.overview, "")
  {
    SimilarCard(
      id := t.id,
      title := OrOption(t.name, t.originalName),
      imageUrl := ImagePath(imageBase, t.posterPath),
      year := YearOf(t.firstAirDate),
      duration := if TruthyNumber(t.numberOfEpisodes) then EpisodesLabel(t.numberOfEpisodes.value) else NoInfo,
      matchPercentage := MatchPercentage(t.voteAverage, SimilarDefaultMatch),
      rating := AgeRating(t.adult),
      description := OrString(t.overview, ""))
  }

  /** `mappedSimilarTV`: the first at most eight, in order. */
  function SimilarTvCards(imageBase: string, ts: seq<SimilarTv>): (r: seq<SimilarCard>)
    ensures |r| == Min(MaxSimilar, |ts|)
    ensures forall i :: 0 <= i < |r| ==> r[i] == SimilarTvCard(imageBase, ts[i])
    ensures forall i :: 0 <= i < |r| ==> r[i].id == ts[i].id
  {
    FirstSimilar((t: SimilarTv) => SimilarTvCard(imageBase, t), ts)
  }

  /** `Promise.all` of the four requests followed by the mapping. Only the
      credits request rejects on a status that is not OK. */
  function LoadTv(id: string, imageBase: string, tvF: Fetch<Tv>, creditsF: Fetch<Credits>,
                  seasonF: Fetch<SeasonBody>, similarF: Fetch<ListBody<SimilarTv>>): (r: Option<TvData>)
    ensures r.Some? <==> tvF.Answered? && creditsF.Answered? && creditsF.ok &&
                         seasonF.Answered? && similarF.Answered?
    ensures r.Some? ==> r.value.tv == tvF.body
    ensures r.Some? ==> r.value.hero == TvHero(id, imageBase, tvF.body, creditsF.body)
    ensures r.Some? ==> r.value.episodes == seasonF.body.episodes.GetOr([])
    ensures r.Some? ==> r.value.similar == SimilarTvCards(imageBase, ResultsOf(similarF.body))
  {
    match (Unchecked(tvF), Checked(creditsF), Unchecked(seasonF), ResultsOrEmpty(similarF))
    case (Ok(tv), Ok(credits), Ok(season), Ok(similar)) =>
      Some(TvData(tv, TvHero(id, imageBase, tv, credits), season.episodes.GetOr([]),
                  SimilarTvCards(imageBase, similar)))
    case _ => None
  }

  // ---------------------------------------------------------------------
  // The detail section, the episode section and the similar section.

  /** The status line: known statuses in Korean, any other unchanged. */
  function StatusLabel(status: string): (r: string)
    ensures status == "Ended" ==> r == "완결"
    ensures status == "Returning Series" ==> r == "방영 중"
    ensures status != "Ended" && status != "Returning Series" ==> r == status
  {
    if status == "Ended" then "완결"
    else if status == "Returning Series" then "방영 중"
    else status
  }

  /** One labelled line of the detail section. */
  datatype Fact = Fact(heading: string, value: string)

  /** The detail section below the hero. */
  datatype Facts = Facts(
    overview: string,
    seasons: Rendered<Fact>,
    episodes: Rendered<Fact>,
    firstAired: Rendered<Fact>,
    status: Rendered<Fact>)

  function SeasonsFact(n: int): Fact {
    Fact("총 시즌", IntToString(n) + "개")
  }

  function EpisodesFact(n: int): Fact {
    Fact("총 에피소드", IntToString(n) + "개")
  }

  /** `{s && <p/>}` for a string: an empty or missing string renders nothing. */
  function RenderIfString(s: Option<string>, e: Fact): (r: Rendered<Fact>)
    ensures r.Element? <==> TruthyString(s)
    ensures !r.Text?
  {
    if TruthyString(s) then Element(e) else Nothing
  }

  function FirstAiredFact(tv: Tv): Fact {
    Fact("첫 방영", tv.firstAirDate.GetOr(""))
  }

  function StatusFact(tv: Tv): Fact {
    Fact("상태", StatusLabel(tv.status.GetOr("")))
  }

  /** The detail section as written: the season and episode lines are
      guarded by `{count && …}`, which renders a zero count as the text "0". */
  function FactsAsWritten(tv: Tv): (r: Facts)
    ensures tv.numberOfSeasons == Some(0) ==> r.seasons == Text("0")
    ensures tv.numberOfEpisodes == Some(0) ==> r.episodes == Text("0")
  {
    Facts(
      OrString(tv.overview, NoDescription),
      RenderIfNumber(tv.numberOfSeasons, SeasonsFact(tv.numberOfSeasons.GetOr(0))),
      RenderIfNumber(tv.numberOfEpisodes, EpisodesFact(tv.numberOfEpisodes.GetOr(0))),
      RenderIfString(tv.firstAirDate, FirstAiredFact(tv)),
      RenderIfString(tv.status, StatusFact(tv)))
  }

  /** A series that reports zero seasons shows a stray "0" in its detail
      section where the season line would be. */
  lemma ZeroSeasonsRenderStrayZero(tv: Tv)
    requires tv.numberOfSeasons == Some(0)
    ensures FactsAsWritten(tv).seasons == Text("0")
    ensures FactsAsWritten(tv).seasons != DetailFacts(tv).seasons
  {
  }

  /** The detail section with each line shown exactly when its field is
      truthy, and never any bare text. */
  function DetailFacts(tv: Tv): (r: Facts)
    ensures r.overview == OrString(tv.overview, NoDescription)
    ensures !r.seasons.Text? && !r.episodes.Text? && !r.firstAired.Text? && !r.status.Text?
    ensures r.seasons.Element? <==> TruthyNumber(tv.numberOfSeasons)
    ensures r.episodes.Element? <==> TruthyNumber(tv.numberOfEpisodes)
    ensures r.firstAired.Element? <==> TruthyString(tv.firstAirDate)
    ensures r.status.Element? <==> TruthyString(tv.status)
    ensures r.seasons.Element? ==>
              r.seasons.element.heading == "총 시즌" && r.seasons.element.value == IntToString(tv.numberOfSeasons.value) + "개"
    ensures r.episodes.Element? ==>
              r.episodes.element.heading == "총 에피소드" && r.episodes.element.value == IntToString(tv.numberOfEpisodes.value) + "개"
    ensures r.firstAired.Element? ==> r.firstAired.element == Fact("첫 방영", tv.firstAirDate.value)
    ensures r.status.Element? ==> r.status.element == Fact("상태", StatusLabel(tv.status.value))
  {
    Facts(
      OrString(tv.overview, NoDescription),
      ShowIfTruthy(tv.numberOfSeasons, SeasonsFact(tv.numberOfSeasons.GetOr(0))),
      ShowIfTruthy(tv.numberOfEpisodes, EpisodesFact(tv.numberOfEpisodes.GetOr(0))),
      RenderIfString(tv.firstAirDate, FirstAiredFact(tv)),
      RenderIfString(tv.status, StatusFact(tv)))
  }

  /** The two agree on every series whose counts are not zero. */
  lemma FactsAgreeAwayFromZero(tv: Tv)
    requires tv.numberOfSeasons != Some(0) && tv.numberOfEpisodes != Some(0)
    ensures DetailFacts(tv) == FactsAsWritten(tv)
  {
  }

  /** The props of EpisodeList. */
  datatype EpisodeSection = EpisodeSection(initialEpisodes: seq<Episode>, seasonNumber: int, totalSeasons: int)

  /** The episode list is shown only with episodes, starting at season 1,
      with `number_of_seasons || 1` seasons. */
  function EpisodeSectionOf(data: TvData): (r: Option<EpisodeSection>)
    ensures r.Some? <==> data.episodes != []
    ensures r.Some? ==> r.value.initialEpisodes == data.episodes && r.value.seasonNumber == 1
    ensures r.Some? && TruthyNumber(data.tv.numberOfSeasons) ==> r.value.totalSeasons == data.tv.numberOfSeasons.value
    ensures r.Some? && !TruthyNumber(data.tv.numberOfSeasons) ==> r.value.totalSeasons == 1
  {
    if |data.episodes| > 0 then
      Some(EpisodeSection(data.episodes, 1, if TruthyNumber(data.tv.numberOfSeasons) then data.tv.numberOfSeasons.value else 1))
    else None
  }

  /** The similar section is shown only when there is a card to show. */
  predicate ShowSimilar(data: TvData) {
    |data.similar| > 0
  }

  /** A series without similar entries shows no similar section, and one with
      any shows at most eight cards. */
  lemma SimilarSectionShown(id: string, imageBase: string, tvF: Fetch<Tv>, creditsF: Fetch<Credits>,
                            seasonF: Fetch<SeasonBody>, similarF: Fetch<ListBody<SimilarTv>>)
    requires LoadTv(id, imageBase, tvF, creditsF, seasonF, similarF).Some?
    ensures var data := LoadTv(id, imageBase, tvF, creditsF, seasonF, similarF).value;
            && (ShowSimilar(data) <==> ResultsOf(similarF.body) != [])
            && |data.similar| <= MaxSimilar
  {
  }
}
