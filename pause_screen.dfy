/**
 * The modular pause screen: an `Overlay` element wrapper with an `isShowing`
 * flag, and an `OverlayController` that follows the page's video, re-arms a
 * 10 s inactivity timeout on every pointer move, and fills the overlay with
 * the item fetched from the server.
 *
 * As in the single-file variant, every `await` is a step boundary: a
 * `setOverlay` waiting for its fetch is pending in the controller's state,
 * and the fetch settling is its own event.
 */
module PauseScreen {
  import opened Options
  import opened JsString
  import opened Jellyfin
  import Duration
  import FetchRetry

  const TimeoutDuration: int := 10000
  /** `OverlayController.RETRY_COUNT`: the number of fetch attempts. */
  const RetryCount: nat := 3
  const RetryBackoff: nat := 500

  // ---------------------------------------------------------------------
  // formatTime

  /** `Math.round(ticks / 600000000)` on a non-negative tick count: halves round up. */
  function RoundMinutes(ticks: nat): nat {
    (ticks + Duration.TicksPerMinute / 2) / Duration.TicksPerMinute
  }

  /** `formatTime`: "" for absent or zero ticks, else the rounded minutes as "Hh Mm" or "Mm". */
  function FormatTime(ticks: Option<nat>): string {
    if ticks.None? || ticks.value == 0 then "" else Duration.Render(RoundMinutes(ticks.value))
  }

  /** The rounded minute count is the one nearest to the tick count, a tie going up. */
  lemma RoundMinutesNearest(ticks: nat)
    ensures var m := RoundMinutes(ticks);
      ticks - Duration.TicksPerMinute / 2 < m * Duration.TicksPerMinute <= ticks + Duration.TicksPerMinute / 2
  {
    var m := RoundMinutes(ticks);
    var q := ticks + Duration.TicksPerMinute / 2;
    assert q == m * Duration.TicksPerMinute + q % Duration.TicksPerMinute;
  }

  /**
   * `formatTime` writes nothing for absent or zero ticks, and otherwise a
   * text that reads back as the rounded minutes, with minutes below 60 and
   * an hour part exactly when there is a whole hour.
   */
  lemma FormatTimeReadsBack(ticks: Option<nat>)
    ensures ticks.None? || ticks.value == 0 <==> FormatTime(ticks) == ""
    ensures ticks.Some? && ticks.value > 0 ==>
      var c := Duration.Parse(FormatTime(ticks));
      && c.Some?
      && Duration.TotalMinutes(c.value) == RoundMinutes(ticks.value)
      && c.value.minutes < 60
      && (c.value.hours.Some? <==> RoundMinutes(ticks.value) >= 60)
  {
    if ticks.Some? && ticks.value > 0 {
      var m := RoundMinutes(ticks.value);
      Duration.ParseRender(m);
      assert Duration.Render(m) != "" by {
        assert Duration.Parse(Duration.Render(m)).Some?;
      }
    }
  }

  // ---------------------------------------------------------------------
  // The Overlay element

  /** `dom` and `content` are the elements (absent when null); `content` holds what its markup shows. */
  datatype OverlayState = OverlayState(dom: bool, content: Option<View>, isShowing: bool, videoElement: Option<Video>)

  /** `show`. */
  function Shown(o: OverlayState): OverlayState {
    if !o.dom || o.isShowing then o else o.(isShowing := true)
  }

  /** `hide`. */
  function Hidden(o: OverlayState): OverlayState {
    if !o.dom || !o.isShowing then o else o.(isShowing := false)
  }

  /** `clear`: hide and empty the content, if there is a content element. */
  function Cleared(o: OverlayState): OverlayState {
    if o.content.None? then o else Hidden(o).(content := Some(Blank))
  }

  /** `destroy`: the node is removed and every reference dropped; `isShowing` is left as it was. */
  function Destroyed(o: OverlayState): OverlayState {
    o.(dom := false, content := None, videoElement := None)
  }

  /** `create`: an existing overlay only rebinds its video; without a player container nothing is built. */
  function Created(o: OverlayState, video: Video, containerFound: bool): OverlayState {
    if o.dom then o.(videoElement := Some(video))
    else if !containerFound then o
    else o.(dom := true, content := Some(Blank), videoElement := Some(video))
  }

  /** What `apply` renders for an item; None when the item is missing, has no `Type` or an unmapped one. */
  function ViewOf(item: Option<Item>): (v: Option<View>)
    ensures v.Some? <==> item.Some? && (item.value.kind == Some("Episode") || item.value.kind == Some("Movie"))
  {
    if item.None? || !Truthy(item.value.kind) then None
    else
      var it := item.value;
      if it.kind == Some("Episode") then
        Some(EpisodeView(OrElse(it.seriesName, "Unknown Series"), OrElse(it.seasonName, "Unknown Season"),
                         OrElse(it.name, "Unknown Episode"), NumberOr(it.indexNumber, "?"),
                         OrElse(it.overview, NoDescription)))
      else if it.kind == Some("Movie") then
        Some(MovieView(OrElse(it.name, "Unknown Movie"), NumberOr(it.productionYear, ""),
                       if Truthy(it.officialRating) then it.officialRating else None,
                       FormatTime(it.runTimeTicks), OrElse(it.overview, NoDescription)))
      else None
  }

  /** `apply`: the content is replaced only for a mapped item and an existing content element. */
  function Applied(o: OverlayState, item: Option<Item>): OverlayState {
    var v := ViewOf(item);
    if v.None? || o.content.None? then o else o.(content := v)
  }

  /**
   * `show` and `hide` are idempotent and flip `isShowing` only when the
   * element exists; `clear` leaves an existing content element hidden and
   * empty.
   */
  lemma ShowHideFacts(o: OverlayState)
    ensures Shown(Shown(o)) == Shown(o) && Hidden(Hidden(o)) == Hidden(o)
    ensures Shown(o).isShowing == (o.isShowing || o.dom)
    ensures Hidden(o).isShowing == (o.isShowing && !o.dom)
    ensures Shown(o).(isShowing := o.isShowing) == o && Hidden(o).(isShowing := o.isShowing) == o
    ensures o.content.Some? ==> Cleared(o).content == Some(Blank) && (o.dom ==> !Cleared(o).isShowing)
    ensures o.content.None? ==> Cleared(o) == o
  {
  }

  /**
   * A missing, untyped or unmapped item leaves the content as it was; an
   * episode or a movie replaces it with its fields or their defaults.
   */
  lemma ApplyFacts(o: OverlayState, item: Option<Item>)
    ensures Applied(o, item).(content := o.content) == o
    ensures ViewOf(item).None? ==> Applied(o, item) == o
    ensures ViewOf(item).Some? && o.content.Some? ==> Applied(o, item).content == ViewOf(item)
    ensures ViewOf(item).Some? && ViewOf(item).value.EpisodeView? ==>
      var v := ViewOf(item).value;
      v.synopsis != "" && v.series != "" && v.season != "" && v.title != "" && v.episode != ""
    ensures ViewOf(item).Some? && ViewOf(item).value.MovieView? ==>
      var v := ViewOf(item).value;
      v.title != "" && v.synopsis != "" && (v.rating.Some? <==> Truthy(item.value.officialRating))
  {
    if ViewOf(item).Some? && ViewOf(item).value.EpisodeView? {
      var it := item.value;
      assert NumberOr(it.indexNumber, "?") != "" by {
        if it.indexNumber.Some? && it.indexNumber.value != 0 {
          DecimalRoundTrip(it.indexNumber.value);
        }
      }
    }
  }

  /**
   * `create` on an existing overlay only rebinds the video; without one it
   * does nothing when the container is missing, and otherwise builds an
   * element with empty content bound to the video, without showing it.
   */
  lemma CreateRebinds(o: OverlayState, video: Video, containerFound: bool)
    ensures o.dom ==> Created(o, video, containerFound) == o.(videoElement := Some(video))
    ensures !o.dom && !containerFound ==> Created(o, video, containerFound) == o
    ensures !o.dom && containerFound ==>
      var c := Created(o, video, containerFound);
      c.dom && c.content == Some(Blank) && c.videoElement == Some(video)
    ensures Created(o, video, containerFound).isShowing == o.isShowing
  {
  }

  class Overlay {
    var dom: bool
    var content: Option<View>
    var isShowing: bool
    var videoElement: Option<Video>

    function State(): OverlayState
      reads this
    {
      OverlayState(dom, content, isShowing, videoElement)
    }

    constructor ()
      ensures State() == OverlayState(false, None, false, None)
    {
      dom, content, isShowing, videoElement := false, None, false, None;
    }

    method Show()
      modifies this
      ensures State() == Shown(old(State()))
    {
      if dom && !isShowing {
        isShowing := true;
      }
    }

    method Hide()
      modifies this
      ensures State() == Hidden(old(State()))
    {
      if dom && isShowing {
        isShowing := false;
      }
    }

    method Clear()
      modifies this
      ensures State() == Cleared(old(State()))
    {
      if content.None? {
        return;
      }
      Hide();
      content := Some(Blank);
    }

    method Destroy()
      modifies this
      ensures State() == Destroyed(old(State()))
    {
      dom, content, videoElement := false, None, None;
    }

    method Create(video: Video, containerFound: bool)
      modifies this
      ensures State() == Created(old(State()), video, containerFound)
    {
      if dom {
        videoElement := Some(video);
        return;
      }
      if !containerFound {
        return;
      }
      dom, content, videoElement := true, Some(Blank), Some(video);
    }

    method Apply(item: Option<Item>)
      modifies this
      ensures State() == Applied(old(State()), item)
    {
      var v := ViewOf(item);
      if v.None? || content.None? {
        return;
      }
      content := v;
    }

    /** A click or touch on the overlay itself: it hides and asks a paused video to play. */
    method OnClick(paused: bool) returns (play: bool)
      requires dom
      modifies this
      ensures State() == Hidden(old(State()))
      ensures play <==> videoElement.Some? && paused
    {
      Hide();
      play := videoElement.Some? && paused;
    }
  }

  // ---------------------------------------------------------------------
  // getCredentials, getItemId, fetchWithRetry

  /** The index of the first server with a truthy `AccessToken` (`Servers.find(s => s.AccessToken)`). */
  function FirstWithToken(servers: seq<Server>): (r: Option<nat>)
    ensures r.Some? ==> r.value < |servers| && Truthy(servers[r.value].accessToken)
    ensures r.Some? ==> forall j :: 0 <= j < r.value ==> !Truthy(servers[j].accessToken)
    ensures r.None? ==> forall j :: 0 <= j < |servers| ==> !Truthy(servers[j].accessToken)
  {
    if servers == [] then None
    else if Truthy(servers[0].accessToken) then Some(0)
    else
      var r := FirstWithToken(servers[1..]);
      assert forall j :: 1 <= j < |servers| ==> servers[j] == servers[1..][j - 1];
      if r.None? then None else Some(r.value + 1)
  }

  /**
   * `getCredentials`: the first server with a token, else `Servers[0]`;
   * credentials only when that server has both a token and a user id.
   */
  function GetCredentials(store: StoredCredentials): (r: Option<Credentials>)
    ensures r.Some? ==> Truthy(r.value.token) && Truthy(r.value.userId)
    ensures !store.Stored? || store.servers.None? ==> r.None?
  {
    match store
    case Absent => None
    case Malformed => None
    case Stored(servers) =>
      if servers.None? then None
      else
        var list := servers.value;
        var found := FirstWithToken(list);
        var server: Option<Server> := if found.Some? then Some(list[found.value]) else if list != [] then Some(list[0]) else None;
        if server.Some? && Truthy(server.value.accessToken) && Truthy(server.value.userId)
        then Some(Credentials(server.value.accessToken, server.value.userId))
        else None
  }

  /**
   * The `Servers[0]` fallback never yields credentials: they come from the
   * first server with a token exactly when that server also has a user id.
   */
  lemma CredentialsRule(servers: seq<Server>)
    ensures var r := GetCredentials(Stored(Some(servers)));
      var i := FirstWithToken(servers);
      && (r.Some? <==> i.Some? && Truthy(servers[i.value].userId))
      && (r.Some? ==> r.value == Credentials(servers[i.value].accessToken, servers[i.value].userId))
  {
  }

  /** `getItemId` (always forced): the rating button's `data-id`, else the OSD's `data-itemid`. */
  function GetItemId(ratingButtonId: Option<string>, osdItemId: Option<string>): (r: Option<ItemId>)
    ensures r == FirstTruthy([ratingButtonId, osdItemId])
  {
    assert [ratingButtonId, osdItemId][1..] == [osdItemId];
    assert [osdItemId][1..] == [];
    if Truthy(ratingButtonId) then ratingButtonId
    else if Truthy(osdItemId) then osdItemId
    else None
  }

  /** What `fetchItemInfo` resolves to: the item, or undefined once its error is caught. */
  function ItemOf(run: FetchRetry.Run): Option<Item> {
    if run.result.Resolved? then Some(run.result.item) else None
  }

  /**
   * With `RETRY_COUNT = 3`: at most three fetches, `500 * (i + 1)` ms after
   * failed attempt i when another follows, and an item exactly when some
   * attempt within the three succeeds.
   */
  lemma FetchWithRetryContract(outcomes: seq<FetchRetry.Attempt>)
    ensures var run := FetchRetry.Retry(outcomes, RetryCount, RetryBackoff);
      && 1 <= run.fetches <= RetryCount
      && run.delays == seq(run.fetches - 1, i => 500 * (i + 1))
      && (ItemOf(run).None? <==> forall i :: 0 <= i < RetryCount ==> FetchRetry.Classify(FetchRetry.AttemptAt(outcomes, i)).Rejected?)
      && (ItemOf(run).None? ==> run.fetches == RetryCount)
  {
    FetchRetry.RetryContract(outcomes, RetryCount, RetryBackoff);
  }

  method FetchWithRetry(outcomes: seq<FetchRetry.Attempt>) returns (run: FetchRetry.Run)
    ensures run == FetchRetry.Retry(outcomes, RetryCount, RetryBackoff)
  {
    run := FetchRetry.RetryLoop(outcomes, RetryCount, RetryBackoff);
  }

  /** `fetchItemInfo`: the retried fetch, its final error caught and logged. */
  method FetchItemInfo(outcomes: seq<FetchRetry.Attempt>) returns (item: Option<Item>)
    ensures item == ItemOf(FetchRetry.Retry(outcomes, RetryCount, RetryBackoff))
  {
    var run := FetchWithRetry(outcomes);
    item := if run.result.Resolved? then Some(run.result.item) else None;
  }

  // ---------------------------------------------------------------------
  // The controller's state and its transitions

  /** The page as an event handler finds it. */
  datatype Page = Page(
    video: Option<Video>,             // document.querySelector(".videoPlayerContainer video")
    paused: bool,                     // of the current video
    ended: bool,
    ratingButtonId: Option<string>,   // `.btnUserRating` data-id
    osdItemId: Option<string>)        // `.videoOsdBottom-hidden [data-itemid]`

  datatype ControllerState = ControllerState(
    currentItemId: Option<ItemId>,
    credentials: Option<Credentials>,
    cleanupListeners: bool,
    observing: bool,
    currentVideo: Option<Video>,
    overlay: OverlayState,
    mouseMoveTimeout: Option<int>,    // due time
    lastMouseMove: int,
    listenedVideo: Option<Video>,     // the video whose pause/play handlers are registered
    moveListening: bool,              // `handleMove` is registered for mousemove/touchmove on the document
    pending: multiset<ItemId>)        // `setOverlay` calls waiting for their fetch

  predicate Wellformed(s: ControllerState) {
    && (s.cleanupListeners <==> s.listenedVideo.Some?)
    && s.listenedVideo == s.currentVideo
    && (s.moveListening ==> s.listenedVideo.Some?)
    && (s.mouseMoveTimeout.Some? ==> s.listenedVideo.Some?)
    && (s.listenedVideo.Some? ==> s.overlay.dom)
    && (s.overlay.dom <==> s.overlay.content.Some?)
    && (!s.overlay.dom ==> !s.overlay.isShowing)
  }

  /** `clearState`: clear the overlay, run the listener cleanup (which destroys the overlay), forget the video. */
  function ClearedState(s: ControllerState): ControllerState {
    var o := Cleared(s.overlay);
    var t := if s.cleanupListeners
      then s.(listenedVideo := None, moveListening := false, overlay := Destroyed(o), cleanupListeners := false)
      else s.(overlay := o);
    t.(currentItemId := None, currentVideo := None, mouseMoveTimeout := None)
  }

  /**
   * `handleVideoChange`; the video was found inside `.videoPlayerContainer`,
   * so `create` always finds a container.
   */
  function VideoChanged(s: ControllerState, video: Video): ControllerState {
    var c := ClearedState(s);
    c.(currentVideo := Some(video), overlay := Created(c.overlay, video, true),
       cleanupListeners := true, listenedVideo := Some(video))
  }

  /** `checkForVideoChanges`. */
  function Checked(s: ControllerState, page: Page): ControllerState {
    if page.video.Some? && page.video != s.currentVideo then VideoChanged(s, page.video.value)
    else if page.video.None? && s.currentVideo.Some? then ClearedState(s)
    else s
  }

  /** The state the constructor leaves: `init` disables the script without credentials. */
  function Initialized(store: StoredCredentials, page: Page): ControllerState {
    var creds := GetCredentials(store);
    var s := ControllerState(None, creds, false, false, None, OverlayState(false, None, false, None), None, 0, None, false, multiset{});
    if creds.None? then s else Checked(s.(observing := true), page)
  }

  /** `destroy`: clear the state and disconnect the observer. */
  function Stopped(s: ControllerState): ControllerState {
    ClearedState(s).(observing := false)
  }

  /** `handleMove`: note the time, hide, and re-arm the single timeout. */
  function Moved(s: ControllerState, now: int): ControllerState {
    s.(lastMouseMove := now, overlay := Hidden(s.overlay), mouseMoveTimeout := Some(now + TimeoutDuration))
  }

  /** `setOverlay` up to its `await`: nothing without an id, a fetch for a new id, otherwise show. */
  function SetOverlayStep(s: ControllerState, page: Page): ControllerState {
    var id := GetItemId(page.ratingButtonId, page.osdItemId);
    if id.None? then s
    else if id != s.currentItemId then s.(pending := s.pending + multiset{id.value})
    else s.(overlay := Shown(s.overlay))
  }

  /** `handlePause` up to its `await`. */
  function PausedState(s: ControllerState, video: Video, now: int, page: Page): ControllerState {
    if Some(video) != s.currentVideo || page.ended then s
    else
      var a := s.(moveListening := true);
      if now - a.lastMouseMove >= TimeoutDuration then SetOverlayStep(a, page) else Moved(a, now)
  }

  /** `handlePlay`. */
  function PlayedState(s: ControllerState, video: Video): ControllerState {
    if Some(video) != s.currentVideo then s
    else s.(overlay := Hidden(s.overlay), moveListening := false, mouseMoveTimeout := None)
  }

  /** The inactivity timeout fires. */
  function TimeoutFired(s: ControllerState, now: int, page: Page): ControllerState {
    var a := s.(mouseMoveTimeout := None);
    if now - a.lastMouseMove >= TimeoutDuration && a.currentVideo.Some? && page.paused then SetOverlayStep(a, page) else a
  }

  /** The rest of `setOverlay` once its fetch settles: apply, record the id, show. */
  function FetchSettled(s: ControllerState, id: ItemId, item: Option<Item>): ControllerState {
    s.(pending := s.pending - multiset{id}, overlay := Shown(Applied(s.overlay, item)), currentItemId := Some(id))
  }

  /** The same step when an item that `apply` rejects blocks the overlay, as its log message says it does. */
  function FetchSettledFixed(s: ControllerState, id: ItemId, item: Option<Item>): ControllerState {
    if ViewOf(item).Some? then FetchSettled(s, id, item) else s.(pending := s.pending - multiset{id})
  }

  // ---------------------------------------------------------------------
  // Properties of the transitions

  lemma ClearCheckWellformed(s: ControllerState, page: Page)
    requires Wellformed(s)
    ensures Wellformed(ClearedState(s)) && Wellformed(Checked(s, page)) && Wellformed(Stopped(s))
  {
  }

  lemma EventWellformed(s: ControllerState, page: Page, video: Video, now: int)
    requires Wellformed(s)
    ensures Wellformed(PausedState(s, video, now, page)) && Wellformed(PlayedState(s, video))
    ensures s.moveListening ==> Wellformed(Moved(s, now))
    ensures Wellformed(TimeoutFired(s, now, page))
  {
    PauseWellformed(s, page, video, now);
    PlayMoveWellformed(s, video, now);
    TimeoutWellformed(s, page, now);
  }

  lemma PauseWellformed(s: ControllerState, page: Page, video: Video, now: int)
    requires Wellformed(s)
    ensures Wellformed(PausedState(s, video, now, page))
  {
  }

  lemma PlayMoveWellformed(s: ControllerState, video: Video, now: int)
    requires Wellformed(s)
    ensures Wellformed(PlayedState(s, video))
    ensures s.moveListening ==> Wellformed(Moved(s, now))
  {
  }

  lemma TimeoutWellformed(s: ControllerState, page: Page, now: int)
    requires Wellformed(s)
    ensures Wellformed(TimeoutFired(s, now, page))
  {
  }

  lemma FetchWellformed(s: ControllerState, id: ItemId, item: Option<Item>)
    requires Wellformed(s)
    ensures Wellformed(FetchSettled(s, id, item)) && Wellformed(FetchSettledFixed(s, id, item))
  {
  }

  lemma InitializedWellformed(store: StoredCredentials, page: Page)
    ensures Wellformed(Initialized(store, page))
    ensures GetCredentials(store).None? <==> !Initialized(store, page).observing
  {
  }

  /**
   * `checkForVideoChanges`: the same video changes nothing; a new one is
   * taken over with a fresh overlay bound to it; a vanished one is
   * forgotten and its overlay destroyed.
   */
  lemma CheckThreeOutcomes(s: ControllerState, page: Page)
    requires Wellformed(s)
    ensures var t := Checked(s, page);
      && (page.video == s.currentVideo ==> t == s)
      && (page.video.Some? && page.video != s.currentVideo ==>
            && t.currentVideo == page.video && t.listenedVideo == page.video
            && t.currentItemId.None? && t.mouseMoveTimeout.None?
            && t.overlay.dom && t.overlay.videoElement == page.video && t.overlay.content == Some(Blank))
      && (page.video.None? && s.currentVideo.Some? ==>
            && t.currentVideo.None? && t.currentItemId.None? && t.listenedVideo.None?
            && !t.overlay.dom && !t.overlay.isShowing && t.mouseMoveTimeout.None?)
  {
  }

  /**
   * A pause of the current, unfinished video registers the move handler and
   * calls `setOverlay` at once when the pointer has been still for 10 s,
   * otherwise re-arms the timeout through `handleMove`.
   */
  lemma PauseDecision(s: ControllerState, video: Video, now: int, page: Page)
    ensures var t := PausedState(s, video, now, page);
      && (Some(video) != s.currentVideo || page.ended ==> t == s)
      && (Some(video) == s.currentVideo && !page.ended ==>
            && t.moveListening
            && (now - s.lastMouseMove >= TimeoutDuration ==> t == SetOverlayStep(s.(moveListening := true), page))
            && (now - s.lastMouseMove < TimeoutDuration ==>
                  t.mouseMoveTimeout == Some(now + TimeoutDuration) && t.lastMouseMove == now
                  && (s.overlay.dom ==> !t.overlay.isShowing)))
  {
  }

  /**
   * A move keeps exactly one timeout, due 10 s later, and hides the overlay;
   * that timeout calls `setOverlay` only if no move came since and the
   * video is paused.
   */
  lemma MoveRearms(s: ControllerState, now: int, later: int, page: Page)
    ensures var m := Moved(s, now);
      && m.mouseMoveTimeout == Some(now + TimeoutDuration)
      && (m.overlay.dom ==> !m.overlay.isShowing)
      && (later < now + TimeoutDuration ==> TimeoutFired(m, later, page) == m.(mouseMoveTimeout := None))
      && (later >= now + TimeoutDuration && m.currentVideo.Some? && page.paused ==>
            TimeoutFired(m, later, page) == SetOverlayStep(m.(mouseMoveTimeout := None), page))
  {
  }

  /**
   * `setOverlay` without an id does nothing; with the current id it shows
   * at once; with a new id it only starts the fetch, leaving the overlay and
   * `currentItemId` for when the fetch settles.
   */
  lemma SetOverlayFacts(s: ControllerState, page: Page)
    ensures var t := SetOverlayStep(s, page);
      var id := GetItemId(page.ratingButtonId, page.osdItemId);
      && (id.None? ==> t == s)
      && (id.Some? && id == s.currentItemId ==> t == s.(overlay := Shown(s.overlay)))
      && (id.Some? && id != s.currentItemId ==>
            t.overlay == s.overlay && t.currentItemId == s.currentItemId && t.pending == s.pending + multiset{id.value})
  {
  }

  /**
   * As written, a settled fetch records its id and shows the overlay even
   * when the fetch failed or the video changed meanwhile; a failed fetch
   * leaves the old content, and the recorded id keeps later pauses from
   * fetching again.
   */
  lemma FailedFetchStillShows(s: ControllerState, id: ItemId, page: Page)
    requires s.overlay.dom && GetItemId(page.ratingButtonId, page.osdItemId) == Some(id)
    ensures var t := FetchSettled(s, id, None);
      && t.overlay.isShowing && t.overlay.content == s.overlay.content
      && t.currentItemId == Some(id) && t.currentVideo == s.currentVideo
      && SetOverlayStep(t, page) == t
  {
  }

  /**
   * A fetch that settles after the video changed shows the old item over
   * the new video, whether it is paused or playing, and makes the old id
   * current.
   */
  lemma StaleFetchShowsOverNewVideo(s: ControllerState, id: ItemId, item: Option<Item>, video: Video)
    requires Wellformed(s) && id in s.pending && Some(video) != s.currentVideo
    ensures var t := FetchSettled(VideoChanged(s, video), id, item);
      && t.currentVideo == Some(video) && t.currentItemId == Some(id) && t.overlay.isShowing
      && (ViewOf(item).Some? ==> t.overlay.content == ViewOf(item))
  {
  }

  /** Corrected, an item that `apply` rejects neither shows the overlay nor becomes current. */
  lemma FixedFetchBlocks(s: ControllerState, id: ItemId, item: Option<Item>)
    ensures var t := FetchSettledFixed(s, id, item);
      && t.pending == s.pending - multiset{id}
      && (ViewOf(item).None? ==> t.overlay == s.overlay && t.currentItemId == s.currentItemId)
      && (ViewOf(item).Some? ==> t.currentItemId == Some(id) && (s.overlay.dom ==> t.overlay.isShowing)
                                 && (s.overlay.content.Some? ==> t.overlay.content == ViewOf(item)))
  {
  }

  /** `clearState` forgets the item, the video and the timeout, and with listeners set destroys the overlay. */
  lemma ClearStateFacts(s: ControllerState)
    ensures var t := ClearedState(s);
      && t.currentItemId.None? && t.currentVideo.None? && t.mouseMoveTimeout.None?
      && !t.cleanupListeners && (s.cleanupListeners ==> t.listenedVideo.None? && !t.moveListening)
      && (s.cleanupListeners ==> !t.overlay.dom && t.overlay.content.None?)
      && (!s.cleanupListeners ==> t.overlay == Cleared(s.overlay))
  {
  }

  // ---------------------------------------------------------------------
  // The controller object

  class OverlayController {
    var currentItemId: Option<ItemId>
    var credentials: Option<Credentials>
    var cleanupListeners: bool
    var observing: bool
    var currentVideo: Option<Video>
    const overlay: Overlay
    var mouseMoveTimeout: Option<int>
    var lastMouseMove: int
    var listenedVideo: Option<Video>
    var moveListening: bool
    var pending: multiset<ItemId>

    function Snapshot(): ControllerState
      reads this, overlay
    {
      ControllerState(currentItemId, credentials, cleanupListeners, observing, currentVideo, overlay.State(),
                      mouseMoveTimeout, lastMouseMove, listenedVideo, moveListening, pending)
    }

    predicate Valid()
      reads this, overlay
    {
      Wellformed(Snapshot())
    }

    /** The constructor and `init`. */
    constructor (store: StoredCredentials, page: Page)
      ensures Snapshot() == Initialized(store, page)
      ensures Valid()
    {
      currentItemId, credentials, cleanupListeners, observing, currentVideo := None, None, false, false, None;
      overlay := new Overlay();
      mouseMoveTimeout, lastMouseMove, listenedVideo, moveListening, pending := None, 0, None, false, multiset{};
      new;
      credentials := GetCredentials(store);
      InitializedWellformed(store, page);
      if credentials.None? {
        return;
      }
      observing := true;
      CheckForVideoChanges(page);
    }

    method ClearState()
      modifies this, overlay
      ensures Snapshot() == ClearedState(old(Snapshot()))
    {
      overlay.Clear();
      if cleanupListeners {
        listenedVideo, moveListening, mouseMoveTimeout := None, false, None;
        overlay.Destroy();
        cleanupListeners := false;
      }
      currentItemId, currentVideo, mouseMoveTimeout := None, None, None;
    }

    method HandleVideoChange(video: Video)
      modifies this, overlay
      ensures Snapshot() == VideoChanged(old(Snapshot()), video)
    {
      ClearState();
      currentVideo := Some(video);
      overlay.Create(video, true);
      cleanupListeners, listenedVideo := true, Some(video);
    }

    method CheckForVideoChanges(page: Page)
      modifies this, overlay
      ensures Snapshot() == Checked(old(Snapshot()), page)
    {
      if page.video.Some? && page.video != currentVideo {
        HandleVideoChange(page.video.value);
      } else if page.video.None? && currentVideo.Some? {
        ClearState();
      }
    }

    method Destroy()
      requires Valid()
      modifies this, overlay
      ensures Snapshot() == Stopped(old(Snapshot()))
      ensures Valid()
    {
      ClearCheckWellformed(Snapshot(), Page(None, false, false, None, None));
      ClearState();
      observing := false;
    }

    method HandleMove(now: int)
      modifies this, overlay
      ensures Snapshot() == Moved(old(Snapshot()), now)
    {
      lastMouseMove := now;
      overlay.Hide();
      mouseMoveTimeout := Some(now + TimeoutDuration);
    }

    /** `setOverlay` up to its `await`; the fetch it starts settles in `OnFetchSettled`. */
    method SetOverlay(page: Page)
      modifies this, overlay
      ensures Snapshot() == SetOverlayStep(old(Snapshot()), page)
    {
      var id := GetItemId(page.ratingButtonId, page.osdItemId);
      if id.None? {
        return;
      }
      if id != currentItemId {
        pending := pending + multiset{id.value};
        return;
      }
      overlay.Show();
    }

    /** The body observer fires. */
    method OnMutation(page: Page)
      requires Valid() && observing
      modifies this, overlay
      ensures Snapshot() == Checked(old(Snapshot()), page)
      ensures Valid()
    {
      ClearCheckWellformed(Snapshot(), page);
      CheckForVideoChanges(page);
    }

    /** The listened video's `pause` event. */
    method OnPause(now: int, page: Page)
      requires Valid() && listenedVideo.Some?
      modifies this, overlay
      ensures Snapshot() == PausedState(old(Snapshot()), old(listenedVideo.value), now, page)
      ensures Valid()
    {
      EventWellformed(Snapshot(), page, listenedVideo.value, now);
      if listenedVideo != currentVideo || page.ended {
        return;
      }
      moveListening := true;
      if now - lastMouseMove >= TimeoutDuration {
        SetOverlay(page);
      } else {
        HandleMove(now);
      }
    }

    /** The listened video's `play` event. */
    method OnPlay()
      requires Valid() && listenedVideo.Some?
      modifies this, overlay
      ensures Snapshot() == PlayedState(old(Snapshot()), old(listenedVideo.value))
      ensures Valid()
    {
      EventWellformed(Snapshot(), Page(None, false, false, None, None), listenedVideo.value, 0);
      if listenedVideo != currentVideo {
        return;
      }
      overlay.Hide();
      moveListening, mouseMoveTimeout := false, None;
    }

    /** A `mousemove` or `touchmove` on the document while `handleMove` is registered. */
    method OnMove(now: int)
      requires Valid() && moveListening
      modifies this, overlay
      ensures Snapshot() == Moved(old(Snapshot()), now)
      ensures Valid()
    {
      EventWellformed(Snapshot(), Page(None, false, false, None, None), 0, now);
      HandleMove(now);
    }

    /** The inactivity timeout comes due. */
    method OnMoveTimeout(now: int, page: Page)
      requires Valid() && mouseMoveTimeout.Some? && now >= mouseMoveTimeout.value
      modifies this, overlay
      ensures Snapshot() == TimeoutFired(old(Snapshot()), now, page)
      ensures Valid()
    {
      EventWellformed(Snapshot(), page, 0, now);
      mouseMoveTimeout := None;
      if now - lastMouseMove >= TimeoutDuration && currentVideo.Some? && page.paused {
        SetOverlay(page);
      }
    }

    /** A fetch started by `setOverlay` settles after the attempts in `outcomes`. */
    method OnFetchSettled(id: ItemId, outcomes: seq<FetchRetry.Attempt>)
      requires Valid() && id in pending
      modifies this, overlay
      ensures Snapshot() == FetchSettled(old(Snapshot()), id, ItemOf(FetchRetry.Retry(outcomes, RetryCount, RetryBackoff)))
      ensures Valid()
    {
      var item := FetchItemInfo(outcomes);
      FetchWellformed(Snapshot(), id, item);
      overlay.Apply(item);
      currentItemId := Some(id);
      overlay.Show();
      pending := pending - multiset{id};
    }

    /** The same, with the overlay blocked for an item that `apply` rejects. */
    method OnFetchSettledFixed(id: ItemId, outcomes: seq<FetchRetry.Attempt>)
      requires Valid() && id in pending
      modifies this, overlay
      ensures Snapshot() == FetchSettledFixed(old(Snapshot()), id, ItemOf(FetchRetry.Retry(outcomes, RetryCount, RetryBackoff)))
      ensures Valid()
    {
      var item := FetchItemInfo(outcomes);
      FetchWellformed(Snapshot(), id, item);
      if ViewOf(item).Some? {
        overlay.Apply(item);
        currentItemId := Some(id);
        overlay.Show();
      }
      pending := pending - multiset{id};
    }

    /** A click or touch on the overlay. */
    method OnOverlayClick(paused: bool) returns (play: bool)
      requires Valid() && overlay.dom
      modifies overlay
      ensures overlay.State() == Hidden(old(overlay.State()))
      ensures play <==> overlay.videoElement.Some? && paused
      ensures Valid()
    {
      play := overlay.OnClick(paused);
    }
  }
}
