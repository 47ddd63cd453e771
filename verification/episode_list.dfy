/** components/episode-list.tsx: the season picker and the episode list.
    The state is the selected season, the episodes on hand and the loading
    flag; `requests` records the seasons asked of the API, in order, and
    `loadedSeason` the season the episodes on hand were fetched for.

    The component as written and a corrected component are both modelled:
    as written, the fetch effect also re-runs when the number of episodes
    changes, and it skips the fetch whenever the initial season is selected
    with any episodes on hand. */
module EpisodeList {
  import opened Wrappers
  import opened Seqs
  import opened Js
  import opened Records

  const NoOverview: string := "에피소드 설명이 없습니다."

  /** `initialEpisodes`, `seasonNumber`, `totalSeasons`. */
  datatype Props = Props(initialEpisodes: seq<Episode>, seasonNumber: int, totalSeasons: int)

  datatype EpisodeState = EpisodeState(
    selected: int,
    episodes: seq<Episode>,
    loading: bool,
    requests: seq<int>,
    loadedSeason: int)

  /** The user picks a season; a season request succeeds with a body or fails. */
  datatype Event = Select(season: int) | Loaded(body: SeasonBody) | LoadFailed

  /** `Array.from({ length: totalSeasons }, (_, i) => i + 1)`: the options
      1 to `totalSeasons` in ascending order (none for a count below one). */
  method SeasonOptions(total: int) returns (r: seq<int>)
    ensures |r| == (if total > 0 then total else 0)
    ensures forall i :: 0 <= i < |r| ==> r[i] == i + 1
    ensures forall s :: s in r <==> 1 <= s <= total
    ensures forall i, j :: 0 <= i < j < |r| ==> r[i] < r[j]
  {
    r := [];
    var k := 0;
    while k < total
      invariant 0 <= k <= (if total > 0 then total else 0)
      invariant |r| == k
      invariant forall i :: 0 <= i < k ==> r[i] == i + 1
    {
      r := r + [k + 1];
      k := k + 1;
    }
    forall s | 1 <= s <= total
      ensures s in r
    {
      assert r[s - 1] == s;
    }
  }

  /** The season a settling request was for: the last one asked. */
  function LastRequest(st: EpisodeState): int {
    if st.requests != [] then st.requests[|st.requests| - 1] else st.selected
  }

  /** The body of the fetch once it settles: the episodes are replaced by the
      response's (or by none), and loading ends. */
  function Settle(st: EpisodeState, body: Option<SeasonBody>): (r: EpisodeState)
    ensures !r.loading && r.selected == st.selected && r.requests == st.requests
    ensures body.Some? && body.value.episodes.Some? ==> r.episodes == body.value.episodes.value
    ensures body.Some? && body.value.episodes.None? ==> r.episodes == []
    ensures body.None? ==> r.episodes == []
    ensures r.loadedSeason == LastRequest(st)
  {
    var eps := match body case Some(b) => b.episodes.GetOr([]) case None => [];
    st.(episodes := eps, loading := false, loadedSeason := LastRequest(st))
  }

  /** Selecting is possible while no request is outstanding; a request
      settles only while one is. (Overlapping requests are not modelled.) */
  predicate Enabled(st: EpisodeState, e: Event) {
    match e
    case Select(_) => !st.loading
    case _ => st.loading
  }

  /** What the list area shows. */
  datatype Display = Spinner | NoEpisodes | List(episodes: seq<Episode>)

  function DisplayOf(st: EpisodeState): (r: Display)
    ensures r.Spinner? <==> st.loading
    ensures r.NoEpisodes? <==> !st.loading && st.episodes == []
    ensures r.List? ==> r.episodes == st.episodes && r.episodes != []
  {
    if st.loading then Spinner
    else if |st.episodes| == 0 then NoEpisodes
    else List(st.episodes)
  }

  /** `episode.overview || "에피소드 설명이 없습니다."`. */
  function OverviewText(ep: Episode): (r: string)
    ensures r != ""
    ensures TruthyString(ep.overview) ==> r == ep.overview.value
    ensures !TruthyString(ep.overview) ==> r == NoOverview
  {
    OrString(ep.overview, NoOverview)
  }

  // ---------------------------------------------------------------------
  // The component as written.

  /** The skip rule of `fetchSeasonEpisodes`. */
  predicate SkipsFetchAsWritten(props: Props, st: EpisodeState) {
    st.selected == props.seasonNumber && |st.episodes| > 0
  }

  /** One run of the effect: skip, or start loading the selected season. */
  function EffectAsWritten(props: Props, st: EpisodeState): (r: EpisodeState)
    ensures r.selected == st.selected && r.episodes == st.episodes && r.loadedSeason == st.loadedSeason
    ensures SkipsFetchAsWritten(props, st) ==> r == st
    ensures !SkipsFetchAsWritten(props, st) ==>
              r.loading && r.requests == st.requests + [st.selected] && r.episodes == st.episodes
  {
    if SkipsFetchAsWritten(props, st) then st
    else st.(loading := true, requests := st.requests + [st.selected])
  }

  /** Mounting runs the effect once. */
  function InitAsWritten(props: Props): EpisodeState {
    EffectAsWritten(props, EpisodeState(props.seasonNumber, props.initialEpisodes, false, [], props.seasonNumber))
  }

  /** The effect depends on `[selectedSeason, …, episodes.length]`, so it
      re-runs after a selection that changes the season and after a
      settled request that changes the number of episodes. */
  function StepAsWritten(props: Props, st: EpisodeState, e: Event): (r: EpisodeState)
    ensures e.Select? ==> r.selected == e.season
    ensures e.Select? && e.season == st.selected ==> r == st
    ensures e.Select? && e.season != st.selected && !(e.season == props.seasonNumber && st.episodes != []) ==>
              r.loading && r.requests == st.requests + [e.season]
    ensures e.Select? && e.season != st.selected && e.season == props.seasonNumber && st.episodes != [] ==>
              r == st.(selected := e.season)
    ensures e.Loaded? ==> r.episodes == e.body.episodes.GetOr([])
    ensures e.LoadFailed? ==> r.episodes == []
    ensures !e.Select? && st.selected == props.seasonNumber && r.episodes != [] ==>
              !r.loading && r.requests == st.requests
    ensures !e.Select? && |r.episodes| != |st.episodes| && r.episodes == [] ==>
              r.loading && r.requests == st.requests + [st.selected]
    ensures !e.Select? ==> r.selected == st.selected
    ensures !e.Select? && |r.episodes| == |st.episodes| ==> !r.loading && r.requests == st.requests
    ensures !e.Select? && st.selected != props.seasonNumber && |r.episodes| != |st.episodes| ==>
              r.loading && r.requests == st.requests + [st.selected]
  {
    match e
    case Select(s) =>
      if s != st.selected then EffectAsWritten(props, st.(selected := s)) else st
    case Loaded(body) =>
      var st' := Settle(st, Some(body));
      if |st'.episodes| != |st.episodes| then EffectAsWritten(props, st') else st'
    case LoadFailed =>
      var st' := Settle(st, None);
      if |st'.episodes| != |st.episodes| then EffectAsWritten(props, st') else st'
  }

  function RunAsWritten(props: Props, st: EpisodeState, es: seq<Event>): EpisodeState
    decreases |es|
  {
    if es == [] then st
    else RunAsWritten(props, if Enabled(st, es[0]) then StepAsWritten(props, st, es[0]) else st, es[1..])
  }

  lemma RunAsWrittenCons(props: Props, st: EpisodeState, e: Event, es: seq<Event>)
    ensures RunAsWritten(props, st, [e] + es) ==
            RunAsWritten(props, if Enabled(st, e) then StepAsWritten(props, st, e) else st, es)
  {
    assert ([e] + es)[1..] == es;
  }

  // A series whose first season has one episode and whose second has two.
  const FirstEpisode: Episode := Episode(101, 1, "1화", None, None, None)
  const SecondSeason: seq<Episode> := [Episode(201, 1, "1화", None, None, None), Episode(202, 2, "2화", None, None, None)]
  const ExampleProps: Props := Props([FirstEpisode], 1, 2)

  /** As written, loading season 2 asks for it twice: the first response
      changes the number of episodes, which re-runs the effect. */
  lemma SecondSeasonFetchedTwice()
    ensures var st := RunAsWritten(ExampleProps, InitAsWritten(ExampleProps),
                                   [Select(2), Loaded(SeasonBody(Some(SecondSeason)))]);
            st.loading && st.requests == [2, 2]
  {
    var body := SeasonBody(Some(SecondSeason));
    var st0 := InitAsWritten(ExampleProps);
    assert st0 == EpisodeState(1, [FirstEpisode], false, [], 1);
    var st1 := StepAsWritten(ExampleProps, st0, Select(2));
    assert st1 == EpisodeState(2, [FirstEpisode], true, [2], 1);
    var st2 := StepAsWritten(ExampleProps, st1, Loaded(body));
    assert st2 == EpisodeState(2, SecondSeason, true, [2, 2], 2);
    RunAsWrittenCons(ExampleProps, st0, Select(2), [Loaded(body)]);
    RunAsWrittenCons(ExampleProps, st1, Loaded(body), []);
    assert [Select(2)] + [Loaded(body)] == [Select(2), Loaded(body)];
  }

  /** As written, going back to season 1 after viewing season 2 keeps
      showing season 2's episodes under "시즌 1". */
  lemma FirstSeasonShowsSecondSeasonEpisodes()
    ensures var st := RunAsWritten(ExampleProps, InitAsWritten(ExampleProps),
                                   [Select(2), Loaded(SeasonBody(Some(SecondSeason))),
                                    Loaded(SeasonBody(Some(SecondSeason))), Select(1)]);
            && st.selected == 1 && !st.loading
            && DisplayOf(st) == List(SecondSeason)
            && st.loadedSeason == 2
  {
    var body := SeasonBody(Some(SecondSeason));
    var st0 := InitAsWritten(ExampleProps);
    assert st0 == EpisodeState(1, [FirstEpisode], false, [], 1);
    var st1 := StepAsWritten(ExampleProps, st0, Select(2));
    assert st1 == EpisodeState(2, [FirstEpisode], true, [2], 1);
    var st2 := StepAsWritten(ExampleProps, st1, Loaded(body));
    assert st2 == EpisodeState(2, SecondSeason, true, [2, 2], 2);
    var st3 := StepAsWritten(ExampleProps, st2, Loaded(body));
    assert st3 == EpisodeState(2, SecondSeason, false, [2, 2], 2);
    var st4 := StepAsWritten(ExampleProps, st3, Select(1));
    assert st4 == EpisodeState(1, SecondSeason, false, [2, 2], 2);
    RunAsWrittenCons(ExampleProps, st0, Select(2), [Loaded(body), Loaded(body), Select(1)]);
    RunAsWrittenCons(ExampleProps, st1, Loaded(body), [Loaded(body), Select(1)]);
    RunAsWrittenCons(ExampleProps, st2, Loaded(body), [Select(1)]);
    RunAsWrittenCons(ExampleProps, st3, Select(1), []);
    assert [Select(2)] + [Loaded(body), Loaded(body), Select(1)] == [Select(2), Loaded(body), Loaded(body), Select(1)];
    assert [Loaded(body)] + [Loaded(body), Select(1)] == [Loaded(body), Loaded(body), Select(1)];
    assert [Loaded(body)] + [Select(1)] == [Loaded(body), Select(1)];
  }

  // ---------------------------------------------------------------------
  // The corrected component: the effect runs on a change of selection only,
  // and the fetch is skipped only when the episodes on hand were fetched
  // for the selected season.

  predicate SkipsFetch(st: EpisodeState) {
    st.selected == st.loadedSeason && |st.episodes| > 0
  }

  function Effect(st: EpisodeState): (r: EpisodeState)
    ensures r.selected == st.selected && r.episodes == st.episodes && r.loadedSeason == st.loadedSeason
    ensures SkipsFetch(st) ==> r == st
    ensures !SkipsFetch(st) ==>
              r.loading && r.requests == st.requests + [st.selected] && r.episodes == st.episodes
  {
    if SkipsFetch(st) then st
    else st.(loading := true, requests := st.requests + [st.selected])
  }

  /** Mounting with the initial episodes asks for nothing. */
  function Init(props: Props): (r: EpisodeState)
    ensures props.initialEpisodes != [] ==> !r.loading && r.requests == [] && r.episodes == props.initialEpisodes
    ensures r.selected == props.seasonNumber
  {
    Effect(EpisodeState(props.seasonNumber, props.initialEpisodes, false, [], props.seasonNumber))
  }

  function Step(st: EpisodeState, e: Event): (r: EpisodeState)
    ensures e.Select? ==> r.selected == e.season
    ensures !e.Select? ==> !r.loading && r.requests == st.requests
  {
    match e
    case Select(s) => if s != st.selected then Effect(st.(selected := s)) else st
    case Loaded(body) => Settle(st, Some(body))
    case LoadFailed => Settle(st, None)
  }

  function Run(st: EpisodeState, es: seq<Event>): EpisodeState
    decreases |es|
  {
    if es == [] then st
    else Run(if Enabled(st, es[0]) then Step(st, es[0]) else st, es[1..])
  }

  /** The episodes on hand belong to the selected season whenever the list
      is shown, and an outstanding request is for the selected season. */
  ghost predicate Consistent(st: EpisodeState) {
    && (!st.loading ==> st.loadedSeason == st.selected)
    && (st.loading ==> st.requests != [] && st.requests[|st.requests| - 1] == st.selected)
  }

  lemma StepKeepsConsistent(st: EpisodeState, e: Event)
    requires Consistent(st) && Enabled(st, e)
    ensures Consistent(Step(st, e))
  {
  }

  lemma {:induction false} RunKeepsConsistent(st: EpisodeState, es: seq<Event>)
    requires Consistent(st)
    ensures Consistent(Run(st, es))
    decreases |es|
  {
    if es != [] {
      if Enabled(st, es[0]) {
        StepKeepsConsistent(st, es[0]);
      }
      RunKeepsConsistent(if Enabled(st, es[0]) then Step(st, es[0]) else st, es[1..]);
    }
  }

  /** Whatever the user does, a list that is shown holds the selected
      season's episodes. */
  lemma ShownListIsSelectedSeason(props: Props, es: seq<Event>)
    ensures var st := Run(Init(props), es);
            DisplayOf(st).List? ==> st.loadedSeason == st.selected
  {
    RunKeepsConsistent(Init(props), es);
  }

  lemma RunCons(st: EpisodeState, e: Event, es: seq<Event>)
    ensures Run(st, [e] + es) == Run(if Enabled(st, e) then Step(st, e) else st, es)
  {
    assert ([e] + es)[1..] == es;
  }

  /** A settled request never asks again: each request is made by a
      selection, so there are never more requests than selections. */
  lemma {:induction false} RequestsBoundedBySelections(st: EpisodeState, es: seq<Event>)
    ensures |Run(st, es).requests| <= |st.requests| + |SelectsIn(es)|
    decreases |es|
  {
    if es != [] {
      var next := if Enabled(st, es[0]) then Step(st, es[0]) else st;
      RequestsBoundedBySelections(next, es[1..]);
      assert SelectsIn(es) == (if es[0].Select? then [es[0]] else []) + SelectsIn(es[1..]);
    }
  }

  function SelectsIn(es: seq<Event>): seq<Event> {
    Filter((e: Event) => e.Select?, es)
  }

  /** The example that goes wrong as written behaves: season 2 is asked for
      once, and going back to season 1 asks for season 1 again. */
  lemma CorrectedExample()
    ensures var st := Run(Init(ExampleProps), [Select(2), Loaded(SeasonBody(Some(SecondSeason)))]);
            !st.loading && st.requests == [2] && DisplayOf(st) == List(SecondSeason)
    ensures var st := Run(Init(ExampleProps), [Select(2), Loaded(SeasonBody(Some(SecondSeason))), Select(1)]);
            st.loading && st.requests == [2, 1]
  {
    var body := SeasonBody(Some(SecondSeason));
    var st0 := Init(ExampleProps);
    assert st0 == EpisodeState(1, [FirstEpisode], false, [], 1);
    var st1 := Step(st0, Select(2));
    assert st1 == EpisodeState(2, [FirstEpisode], true, [2], 1);
    var st2 := Step(st1, Loaded(body));
    assert st2 == EpisodeState(2, SecondSeason, false, [2], 2);
    var st3 := Step(st2, Select(1));
    assert st3 == EpisodeState(1, SecondSeason, true, [2, 1], 2);
    RunCons(st0, Select(2), [Loaded(body)]);
    RunCons(st1, Loaded(body), []);
    assert [Select(2)] + [Loaded(body)] == [Select(2), Loaded(body)];
    RunCons(st0, Select(2), [Loaded(body), Select(1)]);
    RunCons(st1, Loaded(body), [Select(1)]);
    RunCons(st2, Select(1), []);
    assert [Select(2)] + [Loaded(body), Select(1)] == [Select(2), Loaded(body), Select(1)];
    assert [Loaded(body)] + [Select(1)] == [Loaded(body), Select(1)];
  }

  // ---------------------------------------------------------------------
  // One row of the list.

  /** The run-time badge of a row. */
  function RuntimeBadge(n: int): string {
    Minutes(n)
  }

  /** As written the badge is guarded by `{episode.runtime && …}`, which
      shows a stray "0" for an episode with a run time of zero. */
  function RuntimeAsWritten(ep: Episode): (r: Rendered<string>)
    ensures ep.runtime == Some(0) ==> r == Text("0")
    ensures TruthyNumber(ep.runtime) ==> r == Element(RuntimeBadge(ep.runtime.value))
  {
    RenderIfNumber(ep.runtime, RuntimeBadge(ep.runtime.GetOr(0)))
  }

  /** The badge shown only for a truthy run time, and never bare text. */
  function Runtime(ep: Episode): (r: Rendered<string>)
    ensures !r.Text?
    ensures r.Element? <==> TruthyNumber(ep.runtime)
    ensures r.Element? ==> r.element == RuntimeBadge(ep.runtime.value)
  {
    ShowIfTruthy(ep.runtime, RuntimeBadge(ep.runtime.GetOr(0)))
  }

  lemma ZeroRuntimeRendersStrayZero(ep: Episode)
    requires ep.runtime == Some(0)
    ensures RuntimeAsWritten(ep) == Text("0") && Runtime(ep) == Nothing
  {
  }
}
