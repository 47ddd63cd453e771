/** The JSON records of the media-database API, as the front-end reads them.
    The source treats every response as `any`; here each field the code reads
    is a field of a datatype, and each field that may be absent is an `Option`.
    Names of people, genres, companies and languages are taken to be present. */
module Records {
  import opened Wrappers

  /** The outcome of one `fetch(...)` followed by `response.json()`:
      either it threw (network failure, unreadable body) or it produced a
      status flag and a parsed body. */
  datatype Fetch<+T> = Threw | Answered(ok: bool, body: T)

  /** Why a helper of lib/tmdb.ts rejected. */
  datatype FetchError = NetworkError | HttpError

  /** A response body of the form `{ results: [...] }`. */
  datatype ListBody<+T> = ListBody(results: Option<seq<T>>)

  /** An entry of `/videos`. `kind` is the JSON field `type`. */
  datatype Video = Video(site: Option<string>, kind: Option<string>, key: Option<string>)

  /** An entry of `/search/multi`. */
  datatype SearchItem = SearchItem(
    id: int,
    mediaType: Option<string>,
    title: Option<string>,
    name: Option<string>,
    releaseDate: Option<string>,
    firstAirDate: Option<string>)

  /** A cast or crew entry of `/credits`. */
  datatype Credit = Credit(name: string, job: Option<string>)

  datatype Credits = Credits(cast: Option<seq<Credit>>, crew: Option<seq<Credit>>)

  datatype Genre = Genre(name: string)

  datatype Creator = Creator(name: string)

  datatype Company = Company(name: string)

  datatype Language = Language(englishName: string)

  /** The body of `/movie/{id}`; the detail sheet also reads the TV-style
      fields `name`, `first_air_date` and `episode_run_time` from it. */
  datatype Movie = Movie(
    title: Option<string>,
    name: Option<string>,
    overview: Option<string>,
    voteAverage: Option<real>,
    releaseDate: Option<string>,
    firstAirDate: Option<string>,
    runtime: Option<int>,
    episodeRunTime: Option<seq<int>>,
    genres: Option<seq<Genre>>,
    backdropPath: Option<string>,
    productionCompanies: Option<seq<Company>>,
    spokenLanguages: Option<seq<Language>>)

  /** An entry of `/movie/{id}/similar`. */
  datatype SimilarMovie = SimilarMovie(
    id: int,
    title: Option<string>,
    posterPath: Option<string>,
    releaseDate: Option<string>,
    runtime: Option<int>,
    voteAverage: Option<real>,
    adult: Option<bool>,
    overview: Option<string>)

  /** The body of `/tv/{id}`. */
  datatype Tv = Tv(
    name: Option<string>,
    originalName: Option<string>,
    backdropPath: Option<string>,
    firstAirDate: Option<string>,
    voteAverage: Option<real>,
    numberOfSeasons: Option<int>,
    numberOfEpisodes: Option<int>,
    episodeRunTime: Option<seq<int>>,
    overview: Option<string>,
    genres: Option<seq<Genre>>,
    createdBy: Option<seq<Creator>>,
    status: Option<string>)

  /** An entry of `/tv/{id}/similar`. */
  datatype SimilarTv = SimilarTv(
    id: int,
    name: Option<string>,
    originalName: Option<string>,
    posterPath: Option<string>,
    firstAirDate: Option<string>,
    numberOfEpisodes: Option<int>,
    voteAverage: Option<real>,
    adult: Option<bool>,
    overview: Option<string>)

  /** An entry of `/tv/{id}/season/{n}`. */
  datatype Episode = Episode(
    id: int,
    episodeNumber: int,
    name: string,
    overview: Option<string>,
    stillPath: Option<string>,
    runtime: Option<int>)

  datatype SeasonBody = SeasonBody(episodes: Option<seq<Episode>>)

  /** `data.results || []`. */
  function ResultsOf<T>(body: ListBody<T>): seq<T> {
    body.results.GetOr([])
  }
}
