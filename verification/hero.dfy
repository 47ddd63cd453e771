/** components/movie-detail-hero.tsx: the play-trailer button, the cast line
    and the background image. The request made by the button is an input. */
module DetailHero {
  import opened Wrappers
  import opened Seqs
  import opened Js
  import opened Records
  import opened Tmdb

  /** `isTrailerOpen`, `trailerKey` and `isLoadingTrailer`. */
  datatype TrailerState = TrailerState(open: bool, key: Option<string>, loading: bool)

  /** The two destructive toasts the button can raise. */
  datatype Toast = TrailerUnavailable | TrailerLoadFailed

  datatype PlayResult = PlayResult(state: TrailerState, toast: Option<Toast>)

  function InitialTrailerState(): TrailerState {
    TrailerState(false, None, false)
  }

  /** The play button is disabled while a trailer is being looked up. */
  predicate CanPlay(st: TrailerState) {
    !st.loading
  }

  /** The first step of `handlePlayTrailer`. */
  function BeginPlay(st: TrailerState): (r: TrailerState)
    ensures r.loading && !CanPlay(r)
    ensures r.open == st.open && r.key == st.key
  {
    st.(loading := true)
  }

  /** The video `handlePlayTrailer` would play from the `/videos` body. */
  function VideoToPlay(body: ListBody<Video>): Option<Video> {
    PickTrailer(YouTubeVideos(ResultsOf(body)))
  }

  /** The rest of `handlePlayTrailer` once the request settles. The status
      of the response is not consulted; only a thrown request is an error. */
  function FinishPlay(st: TrailerState, f: Fetch<ListBody<Video>>): (r: PlayResult)
    ensures !r.state.loading
    ensures f.Threw? ==>
              r.toast == Some(TrailerLoadFailed) && r.state.open == st.open && r.state.key == st.key
    ensures f.Answered? && (forall v :: v in ResultsOf(f.body) ==> !IsYouTube(v)) ==>
              r.toast == Some(TrailerUnavailable) && r.state.open == st.open && r.state.key == st.key
    ensures r.state.open != st.open ==> r.state.open && r.toast.None?
    ensures r.toast.None? ==> f.Answered? && r.state.open
    ensures f.Answered? && VideoToPlay(f.body).Some? ==>
              r == PlayResult(TrailerState(true, VideoToPlay(f.body).value.key, false), None)
    ensures r.toast.None? ==> exists v :: v in ResultsOf(f.body) && IsYouTube(v) && r.state.key == v.key
  {
    match f
    case Threw => PlayResult(st.(loading := false), Some(TrailerLoadFailed))
    case Answered(_, body) =>
      match VideoToPlay(body)
      case Some(v) => PlayResult(TrailerState(true, v.key, false), None)
      case None => PlayResult(st.(loading := false), Some(TrailerUnavailable))
  }

  /** A click on the play button, from start to finish. */
  function PlayTrailer(st: TrailerState, f: Fetch<ListBody<Video>>): PlayResult {
    FinishPlay(BeginPlay(st), f)
  }

  /** When a YouTube video is available the dialog opens on the same video
      `getVideos` would choose, and no toast is raised. */
  lemma PlayTrailerMatchesGetVideos(st: TrailerState, body: ListBody<Video>)
    ensures GetVideos(Answered(true, body)).Ok?
    ensures GetVideos(Answered(true, body)).value.trailer.Some? ==>
              var v := GetVideos(Answered(true, body)).value.trailer.value;
              PlayTrailer(st, Answered(true, body)) ==
                PlayResult(TrailerState(true, v.key, false), None)
    ensures GetVideos(Answered(true, body)).value.trailer.None? ==>
              PlayTrailer(st, Answered(true, body)).toast == Some(TrailerUnavailable)
  {
  }

  /** Unlike `getVideos`, the button plays a trailer from a response that is
      not OK exactly as from an OK one. */
  lemma PlayTrailerIgnoresStatus(st: TrailerState, body: ListBody<Video>)
    ensures PlayTrailer(st, Answered(false, body)) == PlayTrailer(st, Answered(true, body))
    ensures GetVideos(Answered(false, body)) == Err(HttpError)
  {
  }

  /** Trailer priority as the button sees it: the first YouTube Trailer,
      else the first YouTube Teaser, else the first YouTube video. */
  lemma {:induction false} VideoToPlayPriority(body: ListBody<Video>)
    ensures var ys := YouTubeVideos(ResultsOf(body));
            && (forall i :: IsFirst(IsTrailer, ys, i) ==> VideoToPlay(body) == Some(ys[i]))
            && (NoneSatisfy(IsTrailer, ys) ==>
                  forall i :: IsFirst(IsTeaser, ys, i) ==> VideoToPlay(body) == Some(ys[i]))
            && (NoneSatisfy(IsTrailer, ys) && NoneSatisfy(IsTeaser, ys) && ys != [] ==>
                  VideoToPlay(body) == Some(ys[0]))
            && (VideoToPlay(body).Some? ==> IsYouTube(VideoToPlay(body).value))
  {
  }

  // ---------------------------------------------------------------------
  // Cast line and background.

  /** `출연: {cast.slice(0, 3).join(", ")}` and whether "더 보기" is shown. */
  datatype CastLine = CastLine(names: string, showMore: bool)

  const CastPreviewSize: nat := 3

  function CastPreview(cast: seq<string>): (r: CastLine)
    ensures r.showMore <==> |cast| > CastPreviewSize
    ensures r.showMore <==> Take(cast, CastPreviewSize) != cast
    ensures !r.showMore ==> r.names == Join(cast, ", ")
    ensures r.showMore ==> r.names == Join(cast[..CastPreviewSize], ", ")
  {
    CastLine(Join(Take(cast, CastPreviewSize), ", "), |cast| > CastPreviewSize)
  }

  /** `backgroundImage || "/placeholder.svg"`. */
  function BackgroundSource(backgroundImage: string): (r: string)
    ensures r != ""
    ensures backgroundImage != "" ==> r == backgroundImage
    ensures backgroundImage == "" ==> r == Placeholder
  {
    if backgroundImage != "" then backgroundImage else Placeholder
  }

  /** The pages build the background with `getImagePath`, which is never
      empty, so the hero's own fallback never changes it. */
  lemma PageBackgroundKept(imageBase: string, path: Option<string>)
    ensures BackgroundSource(ImagePath(imageBase, path)) == ImagePath(imageBase, path)
  {
  }
}
