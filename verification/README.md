# Streamix data-shaping rules in Dafny

Streamix is a movie and TV browsing front-end. Its screens fetch JSON from a
third-party media database and reshape it into view values. This project
models that reshaping as pure functions over immutable datatypes, together
with the small state machines around it, and proves properties about them.
It covers:

- **lib/tmdb.ts**: image-path resolution with a placeholder fallback, and how
  each helper treats a failed or non-OK response. Also trailer selection
  (YouTube videos only: the first Trailer, else the first Teaser, else the
  first video) and the multi-search filter (blank query, movies and series only).
- **components/header.tsx**: the search box as a state record with five
  events: open, query change, search success, search failure and close.
  It also covers the stored results (movies and series only, at most ten),
  each result's title, year and link, and when the results panel shows.
- **components/movie-detail-hero.tsx**: the play-trailer button (loading
  flag, dialog or toast), the three-name cast line with its "더 보기" flag,
  and the background fallback.
- **app/movie-detail/page.tsx** and **app/tv-detail/page.tsx**: the mapping
  from responses to hero props and similar-content cards. This includes the
  fallback chains, truncation to 5 cast and 8 similar items, age labels and
  the all-or-nothing `Promise.all`. The TV page also covers the status label
  and when each section is shown.
- **components/movie-detail-sheet.tsx**: the derived title, overview, year,
  run time, genres (3), production companies (2) and languages, the link to
  the detail page, and the loading/skeleton state.
- **components/episode-list.tsx**: season options `1..totalSeasons`, the
  fetch-skip rule, replacing the episodes on success or failure, and the
  three-way display. Both the component as written and a corrected one are
  modelled (see Findings).

JavaScript truthiness is explicit. A field that may be `null` or `undefined`
is an `Option`. `Js.TruthyString`, `Js.TruthyNumber`, `Js.TruthyReal` and
`Js.TruthyBool` decide what `||` and `? :` treat as missing, so `""` and `0`
fall through exactly where the code lets them. `??` does not occur in these
files. Requests are inputs: a `Records.Fetch<T>` is either `Threw` or
`Answered(ok, body)`, and the image base URL is a parameter.

Files: `wrappers.dfy` (Option, Result), `seqs.dfy` (slice, map, filter,
find, join), `js.dfy` (truthiness, `${n}`, `trim`, JSX `&&` rendering),
`records.dfy` (API records), `tmdb.dfy`, `header.dfy`, `hero.dfy`,
`views.dfy` (view records shared by the two detail pages),
`movie_detail.dfy`, `tv_detail.dfy`, `detail_sheet.dfy`, `episode_list.dfy`.

## Model

| member | source | states |
|---|---|---|
| Tmdb.ImagePath | lib/tmdb.ts:28-31 | a missing or empty path gives "/placeholder.svg"; otherwise the result is the base URL followed by the path; never empty |
| Tmdb.Checked | lib/tmdb.ts:14-25 | a thrown request or a non-OK response rejects; an OK response yields its body unchanged |
| Tmdb.Unchecked | lib/tmdb.ts:66-71 | any answered request yields its body, whatever the status; only a thrown request rejects |
| Tmdb.ResultsOrEmpty | lib/tmdb.ts:34-40 | an answered request yields its `results`, or `[]` when they are missing |
| Tmdb.YouTubeVideos | lib/tmdb.ts:127-128 | the result keeps every YouTube video, each as many times as the input lists it, drops every other video, and keeps the input order |
| Tmdb.PickTrailer | lib/tmdb.ts:131-136 | the first Trailer if there is one; else the first Teaser; else the first video; none only for an empty list; always an element of the list |
| Tmdb.GetVideos | lib/tmdb.ts:114-138 | resolves exactly for an OK response; results are the YouTube videos in order, duplicates kept; the trailer is PickTrailer's choice among them (Trailer, then Teaser, then the first); there is no trailer iff no video is on YouTube |
| Tmdb.SearchMulti | lib/tmdb.ts:141-157 | a blank query gives `[]` without a request; otherwise a non-OK response rejects, and the result keeps every movie/tv item as many times as the response lists it, in response order, and drops everything else (`[]` when results are missing) |
| Js.BlankIffAllWhitespace | lib/tmdb.ts:142 | `!query.trim()` holds exactly when every character is ECMAScript whitespace |
| Js.YearOf | app/movie-detail/page.tsx:41 | the year is the first `min(4, length)` characters of the date, and empty exactly when the date is missing or empty |
| Js.IntToStringRoundTrip | components/header.tsx:276 | the decimal text written for an id in a link reads back as that id |
| Js.MinutesRoundTrip | app/movie-detail/page.tsx:43 | a `{n}분` label ends in 분 and its number reads back as n |
| Js.RenderIfNumber | app/tv-detail/page.tsx:119 | `{n && <e/>}` renders nothing for a missing n, the element for a non-zero n, and the text "0" for zero |
| Header.QueryEffect | components/header.tsx:50-56 | a blank query clears the results and stops searching; any other query starts searching and keeps the results until the search settles |
| Header.SetQuery | components/header.tsx:45-81 | the effect runs only when the query actually changes; re-entering the same query changes nothing |
| Header.StoredResults | components/header.tsx:64-67 | stored results are the first `min(10, n)` of the n movies or series in the response, in response order |
| Header.Step | components/header.tsx:45-88 | open only activates the box; a changed query runs the query effect (blank: results cleared and searching stopped; otherwise searching with the old results kept), an unchanged one changes nothing; a success stores StoredResults and ends searching; a failure clears the results and ends searching; close is CloseSearch |
| Header.SettledSearch | components/header.tsx:58-73 | searching is false after success and after failure; a failure leaves no results |
| Header.CloseSearch | components/header.tsx:84-88 | close deactivates the box and clears the query and results; clearing a non-empty query also ends searching |
| Header.ReachableInv | components/header.tsx:50-67 | in every state reached from the initial one by any events, there are at most ten results, all movies or series, and no search runs for a blank query |
| Header.ReachableCloseStopsSearching | components/header.tsx:84-88 | closing from any reachable state leaves no search running |
| Header.ViewItem | components/header.tsx:270-276 | a series uses `name`, the first four characters of `first_air_date` and `/tv/` followed by the id's decimal text; anything else uses `title`, `release_date` and `/movie/` followed by the id; the id reads back from the link |
| Header.PanelOf | components/header.tsx:252-264 | the panel is hidden iff the box is closed or the query is blank; otherwise it shows the spinner iff searching, the stored results (each listed by ViewItem) iff not searching and there are some, and the no-results message for the query iff not searching and there are none |
| Header.CloseHidesPanel | components/header.tsx:252-257 | after close the panel and overlay are hidden |
| Header.TypingShowsSpinner | components/header.tsx:56 | a new non-blank query in the open box shows the spinner before the request settles |
| DetailHero.BeginPlay | components/movie-detail-hero.tsx:49-50 | loading is on, and the button is disabled, while the trailer is looked up |
| DetailHero.FinishPlay | components/movie-detail-hero.tsx:55-82 | loading is off on every path; a thrown request raises the load-failed toast; no YouTube video raises the unavailable toast with the dialog unchanged; when a video is chosen the dialog opens on exactly that video's key and no toast is raised |
| DetailHero.PlayTrailerMatchesGetVideos | components/movie-detail-hero.tsx:57-65 | with an OK response the button plays the trailer `getVideos` would choose, or raises the unavailable toast when that is null |
| DetailHero.PlayTrailerIgnoresStatus | components/movie-detail-hero.tsx:52-57 | the button treats a non-OK response like an OK one, where `getVideos` rejects |
| DetailHero.VideoToPlayPriority | components/movie-detail-hero.tsx:57-61 | among YouTube videos: first Trailer, else first Teaser, else first video; the chosen video is on YouTube |
| DetailHero.CastPreview | components/movie-detail-hero.tsx:177-182 | "더 보기" appears iff there are more than three names, i.e. iff the line does not list them all; the line joins at most the first three |
| DetailHero.BackgroundSource | components/movie-detail-hero.tsx:90 | an empty background falls back to "/placeholder.svg"; a non-empty one is kept |
| DetailHero.PageBackgroundKept | components/movie-detail-hero.tsx:90 | a background built by `getImagePath` is never replaced by the fallback |
| Views.MatchPercentage | app/movie-detail/page.tsx:35 | with a truthy vote the match is the floor of ten times the vote; otherwise the given default |
| Views.RatingOf | app/movie-detail/page.tsx:42 | a score badge exactly when the vote is truthy, carrying that vote |
| Views.AgeRating | app/movie-detail/page.tsx:61 | "19+" iff adult is true, else "15+" |
| Views.GenreNames | app/movie-detail/page.tsx:46 | the genre names in order, or `[]` when genres are missing |
| Views.CastNames | app/movie-detail/page.tsx:29 | the names of the first at most five cast entries in order, or `[]` when cast is missing |
| Views.CrewDirectorIsFirstDirector | app/movie-detail/page.tsx:32 | the crew director is the first crew member whose job is "Director"; there is none iff no crew member has that job |
| Views.FirstSimilar | app/movie-detail/page.tsx:54 | the first at most eight items, each mapped in order |
| Views.BeginFetch | app/movie-detail/page.tsx:18-20 | without an id nothing happens; with one loading starts and the old data is kept |
| Views.EndFetch | app/movie-detail/page.tsx:65-70 | loading ends either way; the data is replaced only by a successful load |
| Views.ViewOf | app/movie-detail/page.tsx:76-90 | "Invalid ID" iff the id is missing or empty; the page is ready iff it is not loading and holds data |
| MovieDetail.MovieDirector | app/movie-detail/page.tsx:32 | the first Director's name when non-empty, else "정보 없음"; never empty |
| MovieDetail.MovieDuration | app/movie-detail/page.tsx:43 | when runtime is truthy, its decimal text followed by "분", which reads back as the runtime; else "정보 없음" |
| MovieDetail.MovieHero | app/movie-detail/page.tsx:38-51 | the content type is movie and the content id is the page id; the title is never empty ("제목 없음" by default); the year is YearOf the release date; the rating is RatingOf the vote and the match is MatchPercentage of it with default 85; at most five cast names |
| MovieDetail.SimilarMovieCard | app/movie-detail/page.tsx:54-63 | keeps id and title; the match is MatchPercentage of the vote with default 75; "19+" iff adult, else "15+"; year, duration, image and description fallbacks |
| MovieDetail.SimilarMovieCards | app/movie-detail/page.tsx:54 | exactly `min(8, n)` cards, the i-th made from the i-th similar movie |
| MovieDetail.LoadMovie | app/movie-detail/page.tsx:22-65 | data exists iff the details and credits answered OK and the similar request answered; it then holds the mapped hero and cards |
| MovieDetail.FetchMovie | app/movie-detail/page.tsx:17-71 | without an id the state is unchanged; otherwise loading ends and the data is replaced only on success |
| MovieDetail.FetchMovieView | app/movie-detail/page.tsx:65-95 | after a successful load the page shows that id's movie hero; after a failed one it is ready only if it already held data |
| TvDetail.TvDirector | app/tv-detail/page.tsx:35-38 | the first creator's name; else the first crew Director's name; else "정보 없음"; never empty |
| TvDetail.TvDirectorPrefersCreator | app/tv-detail/page.tsx:35-36 | with a named first creator, the crew does not affect the director |
| TvDetail.TvDuration | app/tv-detail/page.tsx:44-48 | "시즌 N개" for a truthy season count; else "{m}분" for a first run time m (zero included); else "정보 없음" |
| TvDetail.TvHero | app/tv-detail/page.tsx:50-63 | the content type is tv and the content id is the page id; the title is `name`, else `original_name`, else "제목 없음"; the year is YearOf the first air date; the rating and match (default 85) come from the vote; other fields follow the shared fallbacks |
| TvDetail.SimilarTvCard | app/tv-detail/page.tsx:69-78 | title `name` or else `original_name` (possibly missing); "에피소드 N개" for a truthy count, else "정보 없음"; match 75 by default; "19+" iff adult, else "15+" |
| TvDetail.SimilarTvCards | app/tv-detail/page.tsx:69 | exactly `min(8, n)` cards in order |
| TvDetail.LoadTv | app/tv-detail/page.tsx:24-80 | data exists iff all four requests answered and the credits were OK; episodes are the season's or `[]` |
| TvDetail.StatusLabel | app/tv-detail/page.tsx:140 | "Ended" is "완결", "Returning Series" is "방영 중", any other status is shown unchanged |
| TvDetail.FactsAsWritten | app/tv-detail/page.tsx:115-142 | as written, a zero season or episode count renders the bare text "0" |
| TvDetail.ZeroSeasonsRenderStrayZero | app/tv-detail/page.tsx:119-124 | a series with zero seasons shows "0" where the corrected section shows nothing |
| TvDetail.DetailFacts | app/tv-detail/page.tsx:115-142 | the overview or "상세 정보가 없습니다."; each line is shown exactly when its field is truthy, with no bare text; "총 시즌: {n}개", "총 에피소드: {n}개", "첫 방영: {date}" and "상태: {StatusLabel}" carry the series' own values |
| TvDetail.FactsAgreeAwayFromZero | app/tv-detail/page.tsx:119-130 | the corrected section equals the original for every series whose counts are not zero |
| TvDetail.EpisodeSectionOf | app/tv-detail/page.tsx:147-154 | the episode list appears iff there are episodes, starting at season 1, with `number_of_seasons` seasons or 1 |
| TvDetail.SimilarSectionShown | app/tv-detail/page.tsx:157 | the similar section appears iff the similar response listed anything, with at most eight cards |
| DetailSheet.SheetTitle | components/movie-detail-sheet.tsx:55 | `title`, else `name`, else "영화 정보"; never empty |
| DetailSheet.SheetOverview | components/movie-detail-sheet.tsx:56 | the overview, else "줄거리 정보가 없습니다." |
| DetailSheet.SheetVote | components/movie-detail-sheet.tsx:57 | the score shows whenever a vote is present, zero included |
| DetailSheet.SheetYear | components/movie-detail-sheet.tsx:58-59 | the year of `release_date`, else of `first_air_date`, else ""; at most four characters |
| DetailSheet.SheetRuntime | components/movie-detail-sheet.tsx:60-64 | "{runtime}분", else "{episode_run_time[0]}분", each only when truthy; else "" |
| DetailSheet.SheetGenres | components/movie-detail-sheet.tsx:65 | "" when genres are missing or empty; otherwise the names of the first `min(3, n)` genres, in order, joined by ", " |
| DetailSheet.CompanyNames | components/movie-detail-sheet.tsx:165-174 | the line appears iff there is a company; it names exactly the first `min(2, n)` companies, in order |
| DetailSheet.LanguageNames | components/movie-detail-sheet.tsx:176-184 | the line appears iff there is a language; it gives every language's English name, in order |
| DetailSheet.DetailLink | components/movie-detail-sheet.tsx:155 | `/{hrefBase}-detail?id=` followed by the id's decimal text, with base "movie" when not given; the id reads back from the link, and a null id prints "null" |
| DetailSheet.OpenWith | components/movie-detail-sheet.tsx:37-41 | opening with a truthy id clears the details and starts loading; otherwise nothing changes |
| DetailSheet.DetailsSettled | components/movie-detail-sheet.tsx:42-51 | loading ends either way; details are stored only from an OK response |
| DetailSheet.OpenShowsSkeleton | components/movie-detail-sheet.tsx:73 | after opening, the skeleton shows; once settled it stays iff the request failed |
| DetailSheet.ZeroRunTimeHidden | components/movie-detail-sheet.tsx:62-64 | a first episode run time of zero shows no run time in the sheet |
| EpisodeList.SeasonOptions | components/episode-list.tsx:70 | the options are exactly 1 to totalSeasons, ascending |
| EpisodeList.Settle | components/episode-list.tsx:43-50 | loading ends; the episodes become the response's, or `[]` when missing or on failure |
| EpisodeList.DisplayOf | components/episode-list.tsx:82-93 | spinner while loading; else the empty message without episodes; else the list |
| EpisodeList.OverviewText | components/episode-list.tsx:137 | an empty or missing overview shows "에피소드 설명이 없습니다." |
| EpisodeList.EffectAsWritten | components/episode-list.tsx:33-38 | no fetch when the initial season is selected with episodes on hand; otherwise loading starts and the selected season is requested; the selection and episodes are left alone |
| EpisodeList.StepAsWritten | components/episode-list.tsx:31-54 | as written: selecting another season requests it unless the skip rule holds, in which case only the selection changes; a response stores its episodes (or `[]`, as a failure does); a response that keeps the count settles without a new request; one that changes the count away from the initial season, or empties the list, requests the same season again |
| EpisodeList.SecondSeasonFetchedTwice | components/episode-list.tsx:31-54 | as written, loading a season with a different episode count requests it a second time |
| EpisodeList.FirstSeasonShowsSecondSeasonEpisodes | components/episode-list.tsx:33-36 | as written, returning to season 1 shows the previous season's episodes |
| EpisodeList.Effect | components/episode-list.tsx:33-38 | corrected: the fetch is skipped only when the episodes on hand were fetched for the selected season; the selection, episodes and loaded season are left alone |
| EpisodeList.Init | components/episode-list.tsx:25-36 | mounting with initial episodes requests nothing and shows them |
| EpisodeList.Step | components/episode-list.tsx:31-54 | corrected: a settled request ends loading and never issues another |
| EpisodeList.ShownListIsSelectedSeason | components/episode-list.tsx:33-36 | corrected: in every reachable state in which selections wait for the outstanding request, a shown list belongs to the selected season |
| EpisodeList.RequestsBoundedBySelections | components/episode-list.tsx:54 | corrected: in every reachable state in which selections wait for the outstanding request, there are never more requests than selections |
| EpisodeList.CorrectedExample | components/episode-list.tsx:31-54 | corrected: season 2 is requested once, and returning to season 1 requests it again |
| EpisodeList.RuntimeAsWritten | components/episode-list.tsx:132-134 | as written, a zero run time renders the bare text "0" |
| EpisodeList.Runtime | components/episode-list.tsx:132-134 | corrected: the badge appears exactly for a truthy run time, and there is never bare text |

## Left out

- Requests: every `fetch`, URL and query-string building, environment variables, `encodeURIComponent` and `revalidate` caching. Responses are `Fetch` inputs, and the image base URL is a parameter.
- `getMovies`, `getRecommendations` and `getTrendingTV` in lib/tmdb.ts: no modelled screen calls them. `getRecommendations` and `getTrendingTV` fall back to `[]` as `Tmdb.ResultsOrEmpty` states; `getMovies` returns `data.results` with no fallback, so it can resolve to `undefined`.
- The header's 300 ms debounce, `clearTimeout` and effect cleanup. Search responses are events applied in arrival order, so a late response for an earlier query is applied as the code applies it.
- The header's scroll state, focus handling, mobile menu and navigation items: these are presentation.
- `Math.floor(vote * 10)` uses exact reals, not IEEE doubles, and `NaN` is not modelled. The `toFixed(1)` text is not modelled; `Views.Rating` carries the number.
- `${n}` is modelled for integers only. Integers of 10^21 or more, which JavaScript prints in exponent form, are out of scope.
- Names of cast, crew, creators, genres, companies and languages are taken to be present strings. Ids are integers; a missing id, which the code would print as "undefined", is not modelled.
- `null` elements inside arrays, which the code's `?.` on elements tolerates, are not modelled.
- EpisodeList.Step: a selection made while a request is outstanding, and responses that arrive out of order, are not modelled. A season request settles only while one is outstanding.
- DetailSheet.OpenWith, DetailSheet.DetailsSettled, MovieDetail.FetchMovie, TvDetail.LoadTv: the requests started in components/movie-detail-sheet.tsx:37-51, app/movie-detail/page.tsx:16-74 and app/tv-detail/page.tsx:17-89 are never cancelled, so a response for an earlier id can settle after a later one and overwrite it. The model settles each request before the next one starts, so it does not show that overwrite.
- Toast titles and descriptions, dialogs, images, CSS classes, hover state and the sheet's mobile layout: only the open/closed flags and the toast kind are modelled.
- The trailer button in the detail sheet only shows an alert, so it has no logic to model.
- The scroll geometry of components/movie-row.tsx and components/content-row.tsx, the purely presentational components and pages, and the build configuration.

## Findings

| source | as written | input that shows it | evidently intended | confidence | as-written member | corrected member |
|---|---|---|---|---|---|---|
| app/tv-detail/page.tsx:119-130 | `{data.tv.number_of_seasons && <p/>}` (and the same for episodes) evaluates to the number 0 for a zero count, and React renders it as text | a series with `number_of_seasons: 0` shows a stray "0" in the detail section (`TvDetail.ZeroSeasonsRenderStrayZero`) | show no season line for a zero count | medium, not executed | TvDetail.FactsAsWritten | TvDetail.DetailFacts |
| components/episode-list.tsx:54 | the fetch effect depends on `episodes.length`, so a response that changes the number of episodes re-runs the effect; away from the initial season the skip rule does not apply, so the same season is fetched again | select season 2 of a series whose season 1 has one episode and season 2 has two: season 2 is requested twice and the spinner shows again (`EpisodeList.SecondSeasonFetchedTwice`) | fetch once per change of selected season | medium, not executed | EpisodeList.StepAsWritten | EpisodeList.Step |
| components/episode-list.tsx:33-36 | the fetch is skipped whenever the initial season is selected and any episodes are on hand | select season 2, let it load, then select season 1: the list keeps season 2's episodes under "시즌 1" (`EpisodeList.FirstSeasonShowsSecondSeasonEpisodes`) | skip only when the episodes on hand are the selected season's | high, not executed | EpisodeList.EffectAsWritten | EpisodeList.Effect |
| components/episode-list.tsx:132-134 | `{episode.runtime && <span/>}` renders a run time of 0 as the text "0" | an episode with `runtime: 0` (`EpisodeList.ZeroRuntimeRendersStrayZero`) | show no run-time badge | medium, not executed | EpisodeList.RuntimeAsWritten | EpisodeList.Runtime |
