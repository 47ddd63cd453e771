/** The pure part of lib/tmdb.ts: image paths, the checks applied to each
    response, trailer selection from `/videos`, and the multi-search filter.
    The requests themselves are inputs (`Fetch` values). */
module Tmdb {
  import opened Wrappers
  import opened Seqs
  import opened Js
  import opened Records

  const Placeholder: string := "/placeholder.svg"

  /** `getImagePath(path)`. `imageBase` is the configured image base URL. */
  function ImagePath(imageBase: string, path: Option<string>): (r: string)
    ensures r != ""
    ensures !TruthyString(path) ==> r == Placeholder
    ensures TruthyString(path) ==> |r| == |imageBase| + |path.value|
    ensures TruthyString(path) ==> r[..|imageBase|] == imageBase && r[|imageBase|..] == path.value
  {
    if TruthyString(path) then imageBase + path.value else Placeholder
  }

  // ---------------------------------------------------------------------
  // How each helper treats its response.

  /** `getMovieDetails`, `getMovieCredits`, `getTVCredits`: a response that is
      not OK is thrown as an error. */
  function Checked<T>(f: Fetch<T>): (r: Result<T, FetchError>)
    ensures r.Ok? <==> f.Answered? && f.ok
    ensures r.Ok? ==> r.value == f.body
    ensures f.Answered? && !f.ok ==> r == Err(HttpError)
  {
    match f
    case Threw => Err(NetworkError)
    case Answered(ok, body) => if ok then Ok(body) else Err(HttpError)
  }

  /** `getTVDetails`, `getTVSeasonDetails`: the body is returned whatever the status. */
  function Unchecked<T>(f: Fetch<T>): (r: Result<T, FetchError>)
    ensures r.Ok? <==> f.Answered?
    ensures r.Ok? ==> r.value == f.body
  {
    match f
    case Threw => Err(NetworkError)
    case Answered(_, body) => Ok(body)
  }

  /** `getSimilarMovies`, `getSimilarTV`: `data.results || []` whatever the status. */
  function ResultsOrEmpty<T>(f: Fetch<ListBody<T>>): (r: Result<seq<T>, FetchError>)
    ensures r.Ok? <==> f.Answered?
    ensures f.Answered? && f.body.results.None? ==> r == Ok([])
    ensures f.Answered? && f.body.results.Some? ==> r == Ok(f.body.results.value)
  {
    match f
    case Threw => Err(NetworkError)
    case Answered(_, body) => Ok(ResultsOf(body))
  }

  // ---------------------------------------------------------------------
  // Trailer selection.

  predicate IsYouTube(v: Video) {
    v.site == Some("YouTube")
  }

  predicate IsTrailer(v: Video) {
    v.kind == Some("Trailer")
  }

  predicate IsTeaser(v: Video) {
    v.kind == Some("Teaser")
  }

  /** `videos.filter(v => v.site === "YouTube")`. */
  function YouTubeVideos(videos: seq<Video>): (r: seq<Video>)
    ensures forall i :: 0 <= i < |r| ==> IsYouTube(r[i]) && r[i] in videos
    ensures forall v :: v in videos && IsYouTube(v) ==> v in r
    ensures forall v :: v in videos ==>
              multiset(r)[v] == if IsYouTube(v) then multiset(videos)[v] else 0
    ensures Subsequence(r, videos)
  {
    FilterIsSubsequence(IsYouTube, videos);
    Filter(IsYouTube, videos)
  }

  /** `trailer || teaser || videos[0] || null` over candidate videos `ys`:
      the first Trailer, else the first Teaser, else the first video. */
  function PickTrailer(ys: seq<Video>): (r: Option<Video>)
    ensures r.Some? ==> r.value in ys
    ensures r.None? <==> ys == []
    ensures forall i :: IsFirst(IsTrailer, ys, i) ==> r == Some(ys[i])
    ensures NoneSatisfy(IsTrailer, ys) ==>
              forall i :: IsFirst(IsTeaser, ys, i) ==> r == Some(ys[i])
    ensures NoneSatisfy(IsTrailer, ys) && NoneSatisfy(IsTeaser, ys) && ys != [] ==>
              r == Some(ys[0])
  {
    var trailer := Find(IsTrailer, ys);
    var teaser := Find(IsTeaser, ys);
    if trailer.Some? then trailer
    else if teaser.Some? then teaser
    else if ys == [] then None
    else Some(ys[0])
  }

  /** The value `getVideos` resolves to. */
  datatype Videos = Videos(results: seq<Video>, trailer: Option<Video>)

  /** `getVideos` after its request: reject a failed response, keep the
      YouTube videos in order, and choose the trailer among them. */
  function GetVideos(f: Fetch<ListBody<Video>>): (r: Result<Videos, FetchError>)
    ensures r.Ok? <==> f.Answered? && f.ok
    ensures f.Answered? && !f.ok ==> r == Err(HttpError)
    ensures r.Ok? ==> Subsequence(r.value.results, ResultsOf(f.body))
    ensures r.Ok? ==> forall i :: 0 <= i < |r.value.results| ==> IsYouTube(r.value.results[i])
    ensures r.Ok? ==> forall v :: v in ResultsOf(f.body) && IsYouTube(v) ==> v in r.value.results
    ensures r.Ok? ==> forall v :: v in ResultsOf(f.body) ==>
              multiset(r.value.results)[v] == if IsYouTube(v) then multiset(ResultsOf(f.body))[v] else 0
    ensures r.Ok? ==> r.value.trailer == PickTrailer(r.value.results)
    ensures r.Ok? && r.value.trailer.Some? ==> r.value.trailer.value in r.value.results
    ensures r.Ok? ==> (r.value.trailer.None? <==> forall v :: v in ResultsOf(f.body) ==> !IsYouTube(v))
  {
    match Checked(f)
    case Err(e) => Err(e)
    case Ok(body) =>
      var ys := YouTubeVideos(ResultsOf(body));
      Ok(Videos(ys, PickTrailer(ys)))
  }

  // ---------------------------------------------------------------------
  // Multi-search.

  predicate IsMovieOrTv(item: SearchItem) {
    item.mediaType == Some("movie") || item.mediaType == Some("tv")
  }

  /** `searchMulti(query)`: nothing is requested for a blank query; otherwise
      a failed response rejects and people are dropped from the results. */
  function SearchMulti(query: string, f: Fetch<ListBody<SearchItem>>): (r: Result<seq<SearchItem>, FetchError>)
    ensures IsBlank(query) ==> r == Ok([])
    ensures !IsBlank(query) ==> (r.Ok? <==> f.Answered? && f.ok)
    ensures r.Ok? ==> forall i :: 0 <= i < |r.value| ==> IsMovieOrTv(r.value[i])
    ensures r.Ok? && !IsBlank(query) ==> Subsequence(r.value, ResultsOf(f.body))
    ensures r.Ok? && !IsBlank(query) ==>
              forall x :: x in ResultsOf(f.body) && IsMovieOrTv(x) ==> x in r.value
    ensures r.Ok? && !IsBlank(query) ==>
              forall x :: x in ResultsOf(f.body) ==>
                multiset(r.value)[x] == if IsMovieOrTv(x) then multiset(ResultsOf(f.body))[x] else 0
    ensures !IsBlank(query) && f == Answered(true, ListBody(None)) ==> r == Ok([])
  {
    if IsBlank(query) then Ok([])
    else
      match Checked(f)
      case Err(e) => Err(e)
      case Ok(body) =>
        FilterIsSubsequence(IsMovieOrTv, ResultsOf(body));
        Ok(Filter(IsMovieOrTv, ResultsOf(body)))
  }
}
