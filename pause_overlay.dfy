/**
 * The Netflix-style pause overlay: the same `Overlay` / `OverlayController`
 * split as the modular pause screen, with its own differences. The overlay
 * is filled when a video is found rather than when it pauses; a pause only
 * registers the pointer handlers; the inactivity timeout outlives `play`
 * and `clearState`; the item id is recorded before its fetch settles; and
 * `destroy` detaches the element but keeps the references to it.
 *
 * Every `await` is a step boundary: a `setOverlay` waiting for its fetch is
 * a pending entry in the controller's state, and the fetch settling is its
 * own event.
 */
module PauseOverlay {
  import opened Options
  import opened JsString
  import opened Jellyfin
  import Duration
  import FetchRetry

  const TimeoutDuration: int := 10000
  /** `fetchWithRetry`'s `maxRetries = 2`, counted `i <= maxRetries`: three attempts. */
  const FetchAttempts: nat := 3
  const FetchBackoff: nat := 1000

  // ---------------------------------------------------------------------
  // formatTime

  /** `formatTime`: "" for absent or zero ticks, else the whole minutes (rounded down) as "Hh Mm" or "Mm". */
  function FormatTime(ticks: Option<nat>): string {
    if ticks.None? || ticks.value == 0 then "" else Duration.Render(ticks.value / Duration.TicksPerMinute)
  }

  /**
   * `formatTime` writes nothing for absent or zero ticks, and otherwise a
   * text that reads back as the whole minutes contained in the ticks; under
   * a minute that is "0m".
   */
  lemma FormatTimeReadsBack(ticks: Option<nat>)
    ensures ticks.None? || ticks.value == 0 <==> FormatTime(ticks) == ""
    ensures ticks.Some? && ticks.value > 0 ==>
      var c := Duration.Parse(FormatTime(ticks));
      && c.Some?
      && Duration.TotalMinutes(c.value) * Duration.TicksPerMinute <= ticks.value
      && ticks.value < (Duration.TotalMinutes(c.value) + 1) * Duration.TicksPerMinute
      && c.value.minutes < 60
    ensures ticks.Some? && 0 < ticks.value < Duration.TicksPerMinute ==> FormatTime(ticks) == "0m"
  {
    if ticks.Some? && ticks.value > 0 {
      var t := ticks.value;
      var m := t / Duration.TicksPerMinute;
      Duration.ParseRender(m);
      FloorMinutes(t);
      if t < Duration.TicksPerMinute {
        RenderZero();
      }
    }
  }

  /** Integer division by a minute's ticks rounds down to whole minutes. */
  lemma FloorMinutes(t: nat)
    ensures var m := t / Duration.TicksPerMinute;
      m * Duration.TicksPerMinute <= t < (m + 1) * Duration.TicksPerMinute
      && (t < Duration.TicksPerMinute ==> m == 0)
  {
  }

  lemma RenderZero()
    ensures Duration.Render(0) == "0m"
  {
    assert Decimal(0) == "0";
  }

  // ---------------------------------------------------------------------
  // The overlay element

  /**
   * `dom` and `content` say whether the references are set; `attached`
   * whether the element is in the page; `clickVideo` is the video the click
   * handler was created with (None for `undefined`).
   */
  datatype OverlayState = OverlayState(dom: bool, attached: bool, content: Option<View>, isShowing: bool, clickVideo: Option<Video>)

  /** What the viewer sees: a showing element that is in the page. */
  predicate Visible(o: OverlayState) {
    o.attached && o.isShowing
  }

  function Shown(o: OverlayState): OverlayState {
    if !o.dom || o.isShowing then o else o.(isShowing := true)
  }

  function Hidden(o: OverlayState): OverlayState {
    if !o.dom || !o.isShowing then o else o.(isShowing := false)
  }

  /** `clear`: hide and empty an existing content element. */
  function Cleared(o: OverlayState): OverlayState {
    if o.content.None? then o else Hidden(o).(content := Some(Blank))
  }

  /** `destroy` as written: the element leaves the page, the references stay. */
  function Removed(o: OverlayState): OverlayState {
    o.(attached := false)
  }

  /** `destroy` as it is evidently meant: the references go too, so the next `create` builds a new element. */
  function RemovedFixed(o: OverlayState): OverlayState {
    o.(dom := false, attached := false, content := None, clickVideo := None)
  }

  /** `create`: nothing when the element reference is set or there is no player container. */
  function Created(o: OverlayState, video: Option<Video>, containerFound: bool): OverlayState {
    if o.dom || !containerFound then o
    else o.(dom := true, attached := true, content := Some(Blank), clickVideo := video)
  }

  /** The content `apply` writes for an item; an item of any other `Type` is cleared. */
  function ContentOf(it: Item): View {
    if it.kind == Some("Episode") then
      EpisodeView(Template(it.seriesName), Template(it.seasonName), Template(it.name),
                  TemplateNumber(it.indexNumber), OrElse(it.overview, NoDescription))
    else if it.kind == Some("Movie") then
      MovieView(Template(it.name), NumberOr(it.productionYear, ""), Some(Template(it.officialRating)),
                FormatTime(it.runTimeTicks), OrElse(it.overview, NoDescription))
    else Blank
  }

  /**
   * `apply`: clear first; nothing more without an item; build the element
   * (with no video) when there is no content element; then write the
   * item's content. When even that finds no container, writing to the
   * missing element throws and nothing further changes.
   */
  function Applied(o: OverlayState, item: Option<Item>, containerFound: bool): OverlayState {
    var c := Cleared(o);
    if item.None? then c
    else
      var d := if c.content.None? then Created(c, None, containerFound) else c;
      if d.content.None? then d else d.(content := Some(ContentOf(item.value)))
  }

  /**
   * `apply` always starts by hiding and emptying the content: a missing item
   * leaves it blank, an episode or a movie writes its fields, any other type
   * leaves it blank again. A movie's rating is written even when absent.
   */
  lemma ApplyFacts(o: OverlayState, item: Option<Item>, containerFound: bool)
    requires (o.dom <==> o.content.Some?) && (!o.dom ==> !o.isShowing)
    ensures var a := Applied(o, item, containerFound);
      && (a.dom ==> !a.isShowing)
      && (o.content.Some? && item.None? ==> a.content == Some(Blank))
      && (o.content.Some? && item.Some? ==> a.content == Some(ContentOf(item.value)))
      && (a.content.Some? && item.Some? && item.value.kind == Some("Movie") ==> a.content.value.rating.Some?)
      && (o.dom ==> a.attached == o.attached && a.clickVideo == o.clickVideo)
  {
  }

  /**
   * A name, rating, series, season or episode number the server omits is
   * written as the text "undefined"; only the synopsis falls back.
   */
  lemma AbsentFieldsRenderUndefined(it: Item)
    ensures it.kind == Some("Movie") && it.name.None? ==> ContentOf(it).title == "undefined"
    ensures it.kind == Some("Movie") && it.officialRating.None? ==>
      ContentOf(it).rating == Some("undefined")
    ensures it.kind == Some("Episode") ==>
      (it.seriesName.None? ==> ContentOf(it).series == "undefined") &&
      (it.seasonName.None? ==> ContentOf(it).season == "undefined") &&
      (it.name.None? ==> ContentOf(it).title == "undefined") &&
      (it.indexNumber.None? ==> ContentOf(it).episode == "undefined")
    ensures it.kind == Some("Episode") && it.seriesName.None? && it.seasonName.None?
              && it.name.None? && it.indexNumber.None? ==>
      ContentOf(it) == EpisodeView("undefined", "undefined", "undefined", "undefined",
                                   OrElse(it.overview, NoDescription))
  {
  }

  /**
   * `destroy` as written leaves the references set, so every later `create`
   * returns early: the element stays out of the page and `show` can no
   * longer make it visible.
   */
  lemma RemovedStaysDetached(o: OverlayState, video: Option<Video>, containerFound: bool)
    requires o.dom
    ensures var c := Created(Removed(o), video, containerFound);
      && !c.attached && c.clickVideo == o.clickVideo
      && !Visible(Shown(c)) && !Visible(Shown(Applied(c, None, containerFound)))
  {
  }

  /** Corrected, `create` after `destroy` puts a new element bound to the new video into the page. */
  lemma RemovedFixedReattaches(o: OverlayState, video: Video)
    ensures var c := Created(RemovedFixed(o), Some(video), true);
      && c.dom && c.attached && c.clickVideo == Some(video) && c.content == Some(Blank)
      && Visible(Shown(c))
  {
  }

  class Overlay {
    var dom: bool
    var attached: bool
    var content: Option<View>
    var isShowing: bool
    var clickVideo: Option<Video>

    function State(): OverlayState
      reads this
    {
      OverlayState(dom, attached, content, isShowing, clickVideo)
    }

    constructor ()
      ensures State() == OverlayState(false, false, None, false, None)
    {
      dom, attached, content, isShowing, clickVideo := false, false, None, false, None;
    }

    method Show()
      modifies this
      ensures State() == Shown(old(State()))
    {
      if dom && !isShowing {
        isShowing := true;
      }
    }

    method Hide()
      modifies this
      ensures State() == Hidden(old(State()))
    {
      if dom && isShowing {
        isShowing := false;
      }
    }

    method Clear()
      modifies this
      ensures State() == Cleared(old(State()))
    {
      if content.None? {
        return;
      }
      Hide();
      content := Some(Blank);
    }

    method Destroy()
      modifies this
      ensures State() == Removed(old(State()))
    {
      attached := false;
    }

    method DestroyFixed()
      modifies this
      ensures State() == RemovedFixed(old(State()))
    {
      dom, attached, content, clickVideo := false, false, None, None;
    }

    method Create(video: Option<Video>, containerFound: bool)
      modifies this
      ensures State() == Created(old(State()), video, containerFound)
    {
      if dom || !containerFound {
        return;
      }
      dom, attached, content, clickVideo := true, true, Some(Blank), video;
    }

    method Apply(item: Option<Item>, containerFound: bool)
      modifies this
      ensures State() == Applied(old(State()), item, containerFound)
    {
      Clear();
      if item.None? {
        return;
      }
      if content.None? {
        Create(None, containerFound);
      }
      if content.None? {
        return;
      }
      content := Some(ContentOf(item.value));
    }

    /** A click or touch on the overlay: it hides and asks the handler's video, if paused, to play. */
    method OnClick(paused: bool) returns (play: bool)
      requires dom
      modifies this
      ensures State() == Hidden(old(State()))
      ensures play <==> clickVideo.Some? && paused
    {
      Hide();
      play := clickVideo.Some? && paused;
    }
  }

  // ---------------------------------------------------------------------
  // getCredentials and fetchWithRetry

  /**
   * `getCredentials`: the fields of `Servers[0]`, whatever they hold; no
   * credentials only without a stored list or with an empty one.
   */
  function GetCredentials(store: StoredCredentials): (r: Option<Credentials>)
    ensures r.Some? <==> store.Stored? && store.servers.Some? && store.servers.value != []
    ensures r.Some? ==> r.value == Credentials(store.servers.value[0].accessToken, store.servers.value[0].userId)
  {
    if store.Stored? && store.servers.Some? && store.servers.value != []
    then Some(Credentials(store.servers.value[0].accessToken, store.servers.value[0].userId))
    else None
  }

  /**
   * Only `Servers[0]` matters: stores that share the first server give the
   * same credentials, its own token and user id, whatever servers follow,
   * even ones with a token (unlike the search for the first server with a
   * token in `src/PauseScreen.js`).
   */
  lemma FirstServerDecides(first: Server, rest1: seq<Server>, rest2: seq<Server>)
    ensures GetCredentials(Stored(Some([first] + rest1))) == GetCredentials(Stored(Some([first] + rest2)))
    ensures GetCredentials(Stored(Some([first] + rest1))) == Some(Credentials(first.accessToken, first.userId))
  {
  }

  /** A first server without a token still enables the script, which then sends no token. */
  lemma TokenlessServerEnables(rest: seq<Server>, userId: Option<string>)
    ensures var r := GetCredentials(Stored(Some([Server(None, userId)] + rest)));
      r.Some? && !Truthy(r.value.token)
  {
  }

  /** What `fetchItemInfo` resolves to: the item, or undefined once its error is caught. */
  function ItemOf(run: FetchRetry.Run): Option<Item> {
    if run.result.Resolved? then Some(run.result.item) else None
  }

  /**
   * At most three fetches, `1000 * (i + 1)` ms after failed attempt i when
   * another follows, and an item exactly when some attempt within the three
   * succeeds.
   */
  lemma FetchWithRetryContract(outcomes: seq<FetchRetry.Attempt>)
    ensures var run := FetchRetry.Retry(outcomes, FetchAttempts, FetchBackoff);
      && 1 <= run.fetches <= FetchAttempts
      && run.delays == seq(run.fetches - 1, i => 1000 * (i + 1))
      && (ItemOf(run).None? <==> forall i :: 0 <= i < FetchAttempts ==> FetchRetry.Classify(FetchRetry.AttemptAt(outcomes, i)).Rejected?)
      && (ItemOf(run).None? ==> run.fetches == FetchAttempts)
  {
    FetchRetry.RetryContract(outcomes, FetchAttempts, FetchBackoff);
  }

  /** `fetchItemInfo`: the retried fetch, its final error caught and logged. */
  method FetchItemInfo(outcomes: seq<FetchRetry.Attempt>) returns (item: Option<Item>)
    ensures item == ItemOf(FetchRetry.Retry(outcomes, FetchAttempts, FetchBackoff))
  {
    var run := FetchRetry.RetryLoop(outcomes, FetchAttempts, FetchBackoff);
    item := if run.result.Resolved? then Some(run.result.item) else None;
  }

  // ---------------------------------------------------------------------
  // The controller's state and its transitions

  /** The page as an event handler finds it. */
  datatype Page = Page(
    video: Option<Video>,              // document.querySelector(".videoPlayerContainer video")
    paused: bool,                      // of the current video
    ended: bool,
    idCandidates: seq<Option<string>>) // `data-id` through each of `getItemId`'s selectors, in order

  /** A `setOverlay(show)` waiting for the fetch of `id`. */
  datatype PendingFetch = PendingFetch(id: ItemId, show: bool)

  datatype ControllerState = ControllerState(
    currentItemId: Option<ItemId>,
    userId: Option<string>,
    token: Option<string>,
    cleanupListeners: bool,
    observing: bool,
    currentVideo: Option<Video>,
    overlay: OverlayState,
    mouseMoveTimeout: Option<int>,     // due time
    lastMouseMove: int,
    listenedVideo: Option<Video>,      // the video whose pause/play handlers are registered
    moveListening: bool,               // `handleMove` is registered on the document
    pending: multiset<PendingFetch>)

  predicate Wellformed(s: ControllerState) {
    && (s.cleanupListeners <==> s.listenedVideo.Some?)
    && s.listenedVideo == s.currentVideo
    && (s.moveListening ==> s.listenedVideo.Some?)
    && (s.listenedVideo.Some? ==> s.overlay.dom)
    && (s.overlay.dom <==> s.overlay.content.Some?)
    && (s.overlay.attached ==> s.overlay.dom)
    && (!s.overlay.dom ==> !s.overlay.isShowing)
  }

  /** `clearState`, with the listener cleanup running `destroy` as written; the timeout stays armed. */
  function ClearedState(s: ControllerState): ControllerState {
    var o := Cleared(s.overlay);
    var t := if s.cleanupListeners
      then s.(listenedVideo := None, moveListening := false, overlay := Removed(o), cleanupListeners := false)
      else s.(overlay := o);
    t.(currentItemId := None, currentVideo := None)
  }

  /** `clearState` with the corrected `destroy`. */
  function ClearedStateFixed(s: ControllerState): ControllerState {
    var o := Cleared(s.overlay);
    var t := if s.cleanupListeners
      then s.(listenedVideo := None, moveListening := false, overlay := RemovedFixed(o), cleanupListeners := false)
      else s.(overlay := o);
    t.(currentItemId := None, currentVideo := None)
  }

  /**
   * `setOverlay(show)` up to its `await`: a new id is recorded at once and
   * fetched; otherwise the overlay is shown when asked to.
   */
  function SetOverlayStep(s: ControllerState, page: Page, show: bool): ControllerState {
    var id := FirstTruthy(page.idCandidates);
    if id.Some? && id != s.currentItemId then
      s.(currentItemId := id, pending := s.pending + multiset{PendingFetch(id.value, show)})
    else if show then s.(overlay := Shown(s.overlay))
    else s
  }

  /**
   * The rest of `handleVideoChange` once the state is cleared: take the
   * video, create the overlay for it (the video lies inside the container),
   * register its handlers and call `setOverlay(false)`.
   */
  function TakenOver(c: ControllerState, video: Video, page: Page): ControllerState {
    var t := c.(currentVideo := Some(video), overlay := Created(c.overlay, Some(video), true),
                cleanupListeners := true, listenedVideo := Some(video));
    SetOverlayStep(t, page, false)
  }

  function VideoChanged(s: ControllerState, video: Video, page: Page): ControllerState {
    TakenOver(ClearedState(s), video, page)
  }

  function VideoChangedFixed(s: ControllerState, video: Video, page: Page): ControllerState {
    TakenOver(ClearedStateFixed(s), video, page)
  }

  /** `checkForVideoChanges`. */
  function Checked(s: ControllerState, page: Page): ControllerState {
    if page.video.Some? && page.video != s.currentVideo then VideoChanged(s, page.video.value, page)
    else if page.video.None? && s.currentVideo.Some? then ClearedState(s)
    else s
  }

  function CheckedFixed(s: ControllerState, page: Page): ControllerState {
    if page.video.Some? && page.video != s.currentVideo then VideoChangedFixed(s, page.video.value, page)
    else if page.video.None? && s.currentVideo.Some? then ClearedStateFixed(s)
    else s
  }

  /** The state the constructor leaves: `init` stops without credentials. */
  function Initialized(store: StoredCredentials, page: Page): ControllerState {
    var creds := GetCredentials(store);
    var s := ControllerState(None, None, None, false, false, None, OverlayState(false, false, None, false, None),
                             None, 0, None, false, multiset{});
    if creds.None? then s
    else Checked(s.(userId := creds.value.userId, token := creds.value.token, observing := true), page)
  }

  /** `destroy`: clear the state and disconnect the observer. */
  function Stopped(s: ControllerState): ControllerState {
    ClearedState(s).(observing := false)
  }

  /** `handlePause`: for the current, unfinished video, register the pointer handlers; nothing else. */
  function PausedState(s: ControllerState, video: Video, page: Page): ControllerState {
    if Some(video) != s.currentVideo || page.ended then s else s.(moveListening := true)
  }

  /** `handlePlay`: hide and drop the pointer handlers; the timeout stays armed. */
  function PlayedState(s: ControllerState, video: Video): ControllerState {
    if Some(video) != s.currentVideo then s else s.(overlay := Hidden(s.overlay), moveListening := false)
  }

  /** `handleMove`: note the time, hide, and re-arm the single timeout. */
  function Moved(s: ControllerState, now: int): ControllerState {
    s.(lastMouseMove := now, overlay := Hidden(s.overlay), mouseMoveTimeout := Some(now + TimeoutDuration))
  }

  /** The inactivity timeout fires: `setOverlay(true)` when no move came since and the video is paused. */
  function TimeoutFired(s: ControllerState, now: int, page: Page): ControllerState {
    var a := s.(mouseMoveTimeout := None);
    if now - a.lastMouseMove >= TimeoutDuration && a.currentVideo.Some? && page.paused then SetOverlayStep(a, page, true) else a
  }

  /** The rest of `setOverlay` once its fetch settles: apply, then show if asked to. */
  function FetchSettled(s: ControllerState, p: PendingFetch, item: Option<Item>, containerFound: bool): ControllerState {
    var a := Applied(s.overlay, item, containerFound);
    s.(pending := s.pending - multiset{p}, overlay := if p.show then Shown(a) else a)
  }

  // ---------------------------------------------------------------------
  // Properties of the transitions

  lemma ClearCheckWellformed(s: ControllerState, page: Page)
    requires Wellformed(s)
    ensures Wellformed(ClearedState(s)) && Wellformed(Checked(s, page)) && Wellformed(Stopped(s))
    ensures Wellformed(ClearedStateFixed(s)) && Wellformed(CheckedFixed(s, page))
  {
    ClearWellformed(s);
    if page.video.Some? {
      TakeOverWellformed(ClearedState(s), page.video.value, page);
      TakeOverWellformed(ClearedStateFixed(s), page.video.value, page);
    }
  }

  lemma ClearWellformed(s: ControllerState)
    requires Wellformed(s)
    ensures Wellformed(ClearedState(s)) && Wellformed(ClearedStateFixed(s)) && Wellformed(Stopped(s))
  {
  }

  lemma TakeOverWellformed(c: ControllerState, video: Video, page: Page)
    requires Wellformed(c)
    ensures Wellformed(TakenOver(c, video, page))
  {
  }

  /** What `clearState` leaves of a well-formed state. */
  lemma ClearedFacts(s: ControllerState)
    requires Wellformed(s)
    ensures var c := ClearedState(s);
      && c.currentItemId.None? && c.currentVideo.None? && !c.overlay.isShowing
      && c.pending == s.pending && c.mouseMoveTimeout == s.mouseMoveTimeout
      && (s.cleanupListeners ==> c.listenedVideo.None? && !c.moveListening && !c.overlay.attached)
  {
  }

  /** What taking over a video leaves of a cleared state. */
  lemma TakenOverFacts(c: ControllerState, video: Video, page: Page)
    requires c.currentItemId.None? && !c.overlay.isShowing
    ensures var t := TakenOver(c, video, page);
      var id := FirstTruthy(page.idCandidates);
      && t.currentVideo == Some(video) && t.listenedVideo == Some(video)
      && t.currentItemId == id && t.overlay.dom && !t.overlay.isShowing
      && (id.Some? ==> t.pending == c.pending + multiset{PendingFetch(id.value, false)})
      && (id.None? ==> t.pending == c.pending)
  {
  }

  lemma EventWellformed(s: ControllerState, page: Page, video: Video, now: int)
    requires Wellformed(s)
    ensures Wellformed(PausedState(s, video, page)) && Wellformed(PlayedState(s, video))
    ensures Wellformed(Moved(s, now)) && Wellformed(TimeoutFired(s, now, page))
  {
    PauseWellformed(s, page, video, now);
    PlayMoveWellformed(s, video, now);
    TimeoutWellformed(s, page, now);
  }

  lemma PauseWellformed(s: ControllerState, page: Page, video: Video, now: int)
    requires Wellformed(s)
    ensures Wellformed(PausedState(s, video, page))
  {
  }

  lemma PlayMoveWellformed(s: ControllerState, video: Video, now: int)
    requires Wellformed(s)
    ensures Wellformed(PlayedState(s, video))
    ensures Wellformed(Moved(s, now))
  {
  }

  lemma TimeoutWellformed(s: ControllerState, page: Page, now: int)
    requires Wellformed(s)
    ensures Wellformed(TimeoutFired(s, now, page))
  {
  }

  lemma FetchWellformed(s: ControllerState, p: PendingFetch, item: Option<Item>, containerFound: bool)
    requires Wellformed(s)
    ensures Wellformed(FetchSettled(s, p, item, containerFound))
  {
  }

  lemma InitializedWellformed(store: StoredCredentials, page: Page)
    ensures Wellformed(Initialized(store, page))
    ensures GetCredentials(store).None? <==> !Initialized(store, page).observing
  {
  }

  /**
   * `checkForVideoChanges`: the same video changes nothing; a new one is
   * taken over, its item id recorded and fetched without showing; a
   * vanished one is forgotten, the inactivity timeout left as it was.
   */
  lemma CheckThreeOutcomes(s: ControllerState, page: Page)
    requires Wellformed(s)
    ensures var t := Checked(s, page);
      var id := FirstTruthy(page.idCandidates);
      && (page.video == s.currentVideo ==> t == s)
      && (page.video.Some? && page.video != s.currentVideo ==>
            && t.currentVideo == page.video && t.listenedVideo == page.video
            && t.currentItemId == id && t.overlay.dom && !t.overlay.isShowing
            && (id.Some? ==> t.pending == s.pending + multiset{PendingFetch(id.value, false)})
            && (id.None? ==> t.pending == s.pending))
      && (page.video.None? && s.currentVideo.Some? ==>
            && t.currentVideo.None? && t.currentItemId.None? && t.listenedVideo.None?
            && !t.moveListening && !t.overlay.attached && t.mouseMoveTimeout == s.mouseMoveTimeout)
  {
    ClearedFacts(s);
    if page.video.Some? && page.video != s.currentVideo {
      TakenOverFacts(ClearedState(s), page.video.value, page);
    }
  }

  /**
   * From the second video on, the overlay taken over is the detached one:
   * neither the video change nor any later `show` puts it back on screen.
   */
  lemma SecondVideoDetached(s: ControllerState, video: Video, page: Page)
    requires Wellformed(s) && s.listenedVideo.Some? && Some(video) != s.currentVideo
    ensures var t := VideoChanged(s, video, page);
      && t.overlay.dom && !t.overlay.attached && t.overlay.clickVideo == s.overlay.clickVideo
      && !Visible(Shown(t.overlay))
  {
  }

  /** Corrected, every video change puts a fresh overlay bound to the new video into the page. */
  lemma VideoChangeFixedReattaches(s: ControllerState, video: Video, page: Page)
    requires Wellformed(s) && (s.overlay.dom ==> s.overlay.attached)
    ensures var t := VideoChangedFixed(s, video, page);
      && t.overlay.dom && t.overlay.attached && !t.overlay.isShowing
      && (s.listenedVideo.Some? || !s.overlay.dom ==> t.overlay.clickVideo == Some(video))
      && Visible(Shown(t.overlay))
  {
  }

  /**
   * A pause registers the pointer handlers and nothing else; `play` hides
   * and drops them but leaves the inactivity timeout armed.
   */
  lemma PausePlayFacts(s: ControllerState, video: Video, page: Page)
    requires Wellformed(s)
    ensures var p := PausedState(s, video, page);
      p == if Some(video) == s.currentVideo && !page.ended then s.(moveListening := true) else s
    ensures var q := PlayedState(s, video);
      && q.mouseMoveTimeout == s.mouseMoveTimeout && q.pending == s.pending
      && (Some(video) == s.currentVideo ==> !q.moveListening && !Visible(q.overlay))
  {
  }

  /**
   * A move keeps exactly one timeout, due 10 s later, and hides the overlay;
   * that timeout calls `setOverlay(true)` only if no move came since and the
   * video is paused.
   */
  lemma MoveRearms(s: ControllerState, now: int, later: int, page: Page)
    requires Wellformed(s)
    ensures var m := Moved(s, now);
      && m.mouseMoveTimeout == Some(now + TimeoutDuration)
      && !Visible(m.overlay)
      && (later < now + TimeoutDuration ==> TimeoutFired(m, later, page) == m.(mouseMoveTimeout := None))
      && (later >= now + TimeoutDuration && m.currentVideo.Some? && page.paused ==>
            TimeoutFired(m, later, page) == SetOverlayStep(m.(mouseMoveTimeout := None), page, true))
  {
  }

  /**
   * `setOverlay` records a new id before its fetch settles, so a second call
   * for the same id shows at once, whatever the fetch brings.
   */
  lemma SetOverlayRecordsEarly(s: ControllerState, page: Page, show: bool)
    ensures var t := SetOverlayStep(s, page, show);
      var id := FirstTruthy(page.idCandidates);
      && (id.Some? && id != s.currentItemId ==>
            t.currentItemId == id && t.overlay == s.overlay && t.pending == s.pending + multiset{PendingFetch(id.value, show)}
            && SetOverlayStep(t, page, true) == t.(overlay := Shown(t.overlay)))
      && (id.None? || id == s.currentItemId ==> t == if show then s.(overlay := Shown(s.overlay)) else s)
  {
  }

  /**
   * A failed fetch leaves the overlay blank and hidden with its id still
   * recorded; the next inactivity timeout shows the blank overlay.
   */
  lemma FailedFetchShowsBlank(s: ControllerState, p: PendingFetch, page: Page)
    requires Wellformed(s) && s.overlay.dom && s.currentItemId == Some(p.id) && FirstTruthy(page.idCandidates) == Some(p.id)
    ensures var t := FetchSettled(s, p, None, true);
      && t.overlay.content == Some(Blank) && t.overlay.isShowing == p.show
      && SetOverlayStep(t, page, true).overlay == t.overlay.(isShowing := true)
  {
  }

  /**
   * The id is recorded before the fetch, so an older fetch settling after
   * the current item's fetch overwrites its content, and the current id
   * keeps later calls from fetching it again.
   */
  lemma StaleFetchOverwrites(s: ControllerState, older: PendingFetch, newer: PendingFetch, oldItem: Item, newItem: Item, page: Page)
    requires Wellformed(s) && s.overlay.dom && s.currentItemId == Some(newer.id)
    requires FirstTruthy(page.idCandidates) == Some(newer.id)
    ensures var t := FetchSettled(FetchSettled(s, newer, Some(newItem), true), older, Some(oldItem), true);
      && t.overlay.content == Some(ContentOf(oldItem)) && t.currentItemId == Some(newer.id)
      && SetOverlayStep(t, page, true) == t.(overlay := Shown(t.overlay))
  {
  }

  /** `clearState` forgets the item and the video, keeps the inactivity timeout, and leaves nothing visible. */
  lemma ClearStateFacts(s: ControllerState)
    requires Wellformed(s)
    ensures var t := ClearedState(s);
      && t.currentItemId.None? && t.currentVideo.None? && !t.cleanupListeners
      && t.mouseMoveTimeout == s.mouseMoveTimeout && t.pending == s.pending
      && (s.cleanupListeners ==> t.listenedVideo.None? && !t.moveListening && !t.overlay.attached)
      && !Visible(t.overlay)
  {
  }

  // ---------------------------------------------------------------------
  // The controller object

  class OverlayController {
    var currentItemId: Option<ItemId>
    var userId: Option<string>
    var token: Option<string>
    var cleanupListeners: bool
    var observing: bool
    var currentVideo: Option<Video>
    const overlay: Overlay
    var mouseMoveTimeout: Option<int>
    var lastMouseMove: int
    var listenedVideo: Option<Video>
    var moveListening: bool
    var pending: multiset<PendingFetch>

    function Snapshot(): ControllerState
      reads this, overlay
    {
      ControllerState(currentItemId, userId, token, cleanupListeners, observing, currentVideo, overlay.State(),
                      mouseMoveTimeout, lastMouseMove, listenedVideo, moveListening, pending)
    }

    predicate Valid()
      reads this, overlay
    {
      Wellformed(Snapshot())
    }

    /** The constructor and `init`. */
    constructor (store: StoredCredentials, page: Page)
      ensures Snapshot() == Initialized(store, page)
      ensures Valid()
    {
      currentItemId, userId, token, cleanupListeners, observing, currentVideo := None, None, None, false, false, None;
      overlay := new Overlay();
      mouseMoveTimeout, lastMouseMove, listenedVideo, moveListening, pending := None, 0, None, false, multiset{};
      new;
      InitializedWellformed(store, page);
      var creds := GetCredentials(store);
      if creds.None? {
        return;
      }
      userId, token, observing := creds.value.userId, creds.value.token, true;
      CheckForVideoChanges(page);
    }

    method ClearState()
      modifies this, overlay
      ensures Snapshot() == ClearedState(old(Snapshot()))
    {
      overlay.Clear();
      if cleanupListeners {
        listenedVideo, moveListening := None, false;
        overlay.Destroy();
        cleanupListeners := false;
      }
      currentItemId, currentVideo := None, None;
    }

    method ClearStateFixed()
      modifies this, overlay
      ensures Snapshot() == ClearedStateFixed(old(Snapshot()))
    {
      overlay.Clear();
      if cleanupListeners {
        listenedVideo, moveListening := None, false;
        overlay.DestroyFixed();
        cleanupListeners := false;
      }
      currentItemId, currentVideo := None, None;
    }

    /** `setOverlay(show)` up to its `await`; the fetch it starts settles in `OnFetchSettled`. */
    method SetOverlay(page: Page, show: bool)
      modifies this, overlay
      ensures Snapshot() == SetOverlayStep(old(Snapshot()), page, show)
    {
      var id := FirstPresent(page.idCandidates);
      if id.Some? && id != currentItemId {
        currentItemId := id;
        pending := pending + multiset{PendingFetch(id.value, show)};
        return;
      }
      if show {
        overlay.Show();
      }
    }

    /** `handleVideoChange` after `clearState`: `setupOverlay` and `setOverlay(false)`. */
    method TakeOver(video: Video, page: Page)
      modifies this, overlay
      ensures Snapshot() == TakenOver(old(Snapshot()), video, page)
    {
      currentVideo := Some(video);
      overlay.Create(Some(video), true);
      cleanupListeners, listenedVideo := true, Some(video);
      SetOverlay(page, false);
    }

    method HandleVideoChange(video: Video, page: Page)
      modifies this, overlay
      ensures Snapshot() == VideoChanged(old(Snapshot()), video, page)
    {
      ClearState();
      TakeOver(video, page);
    }

    method HandleVideoChangeFixed(video: Video, page: Page)
      modifies this, overlay
      ensures Snapshot() == VideoChangedFixed(old(Snapshot()), video, page)
    {
      ClearStateFixed();
      TakeOver(video, page);
    }

    method CheckForVideoChanges(page: Page)
      modifies this, overlay
      ensures Snapshot() == Checked(old(Snapshot()), page)
    {
      if page.video.Some? && page.video != currentVideo {
        HandleVideoChange(page.video.value, page);
      } else if page.video.None? && currentVideo.Some? {
        ClearState();
      }
    }

    method CheckForVideoChangesFixed(page: Page)
      modifies this, overlay
      ensures Snapshot() == CheckedFixed(old(Snapshot()), page)
    {
      if page.video.Some? && page.video != currentVideo {
        HandleVideoChangeFixed(page.video.value, page);
      } else if page.video.None? && currentVideo.Some? {
        ClearStateFixed();
      }
    }

    method Destroy()
      requires Valid()
      modifies this, overlay
      ensures Snapshot() == Stopped(old(Snapshot()))
      ensures Valid()
    {
      ClearCheckWellformed(Snapshot(), Page(None, false, false, []));
      ClearState();
      observing := false;
    }

    method HandleMove(now: int)
      modifies this, overlay
      ensures Snapshot() == Moved(old(Snapshot()), now)
    {
      lastMouseMove := now;
      overlay.Hide();
      mouseMoveTimeout := Some(now + TimeoutDuration);
    }

    /** The body observer fires. */
    method OnMutation(page: Page)
      requires Valid() && observing
      modifies this, overlay
      ensures Snapshot() == Checked(old(Snapshot()), page)
      ensures Valid()
    {
      ClearCheckWellformed(Snapshot(), page);
      CheckForVideoChanges(page);
    }

    /** The body observer fires, with the corrected `destroy`. */
    method OnMutationFixed(page: Page)
      requires Valid() && observing
      modifies this, overlay
      ensures Snapshot() == CheckedFixed(old(Snapshot()), page)
      ensures Valid()
    {
      ClearCheckWellformed(Snapshot(), page);
      CheckForVideoChangesFixed(page);
    }

    /** The listened video's `pause` event. */
    method OnPause(page: Page)
      requires Valid() && listenedVideo.Some?
      modifies this
      ensures Snapshot() == PausedState(old(Snapshot()), old(listenedVideo.value), page)
      ensures Valid()
    {
      EventWellformed(Snapshot(), page, listenedVideo.value, 0);
      if listenedVideo != currentVideo || page.ended {
        return;
      }
      moveListening := true;
    }

    /** The listened video's `play` event. */
    method OnPlay()
      requires Valid() && listenedVideo.Some?
      modifies this, overlay
      ensures Snapshot() == PlayedState(old(Snapshot()), old(listenedVideo.value))
      ensures Valid()
    {
      EventWellformed(Snapshot(), Page(None, false, false, []), listenedVideo.value, 0);
      if listenedVideo != currentVideo {
        return;
      }
      overlay.Hide();
      moveListening := false;
    }

    /** A `mousemove` or `touchmove` on the document while `handleMove` is registered. */
    method OnMove(now: int)
      requires Valid() && moveListening
      modifies this, overlay
      ensures Snapshot() == Moved(old(Snapshot()), now)
      ensures Valid()
    {
      EventWellformed(Snapshot(), Page(None, false, false, []), 0, now);
      HandleMove(now);
    }

    /** The inactivity timeout comes due. */
    method OnMoveTimeout(now: int, page: Page)
      requires Valid() && mouseMoveTimeout.Some? && now >= mouseMoveTimeout.value
      modifies this, overlay
      ensures Snapshot() == TimeoutFired(old(Snapshot()), now, page)
      ensures Valid()
    {
      EventWellformed(Snapshot(), page, 0, now);
      mouseMoveTimeout := None;
      if now - lastMouseMove >= TimeoutDuration && currentVideo.Some? && page.paused {
        SetOverlay(page, true);
      }
    }

    /**
     * A fetch started by `setOverlay` settles after the attempts in
     * `outcomes`; `containerFound` is what `apply`'s own `create` would find.
     */
    method OnFetchSettled(p: PendingFetch, outcomes: seq<FetchRetry.Attempt>, containerFound: bool)
      requires Valid() && p in pending
      modifies this, overlay
      ensures Snapshot() == FetchSettled(old(Snapshot()), p, ItemOf(FetchRetry.Retry(outcomes, FetchAttempts, FetchBackoff)), containerFound)
      ensures Valid()
    {
      var item := FetchItemInfo(outcomes);
      FetchWellformed(Snapshot(), p, item, containerFound);
      overlay.Apply(item, containerFound);
      if p.show {
        overlay.Show();
      }
      pending := pending - multiset{p};
    }

    /** A click or touch on the overlay. */
    method OnOverlayClick(paused: bool) returns (play: bool)
      requires Valid() && overlay.dom
      modifies overlay
      ensures overlay.State() == Hidden(old(overlay.State()))
      ensures play <==> overlay.clickVideo.Some? && paused
      ensures Valid()
    {
      play := overlay.OnClick(paused);
    }
  }
}
