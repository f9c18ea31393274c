# Jellyfin pause-screen scripts, modelled in Dafny

The Jellyfin-Scripts repository shows an overlay over the Jellyfin web
player. While a video is paused and the pointer has been still for ten
seconds, the overlay shows the playing item's title, episode and plot. The
item comes from the server's `GET /Items/{id}` endpoint, and its id is
scraped from the player's on-screen controls. The controller that does this
exists in three copies:

- `JellyfinPauseScreen` in `main.js`. This copy shows and hides behind a
  `pendingTransition` fade guard and recovers from failed initialisation
  with exponential backoff.
- `Overlay` and `OverlayController` in `src/PauseScreen.js`.
- An older `Overlay` and `OverlayController` pair in `src/main.js`.

Two small page patchers sit beside them. `src/Rating.js` normalises the
text of rating badges into an attribute token. `src/MediaBar-Patcher.js`
rewrites genre separators and rating badges in the media bar.

Each controller is a Dafny class with one method per event: mutation,
pause, play, move, timer fired, fetch settled. Each method is proved equal
to a pure transition function on a state datatype. The lemmas state the
source's rules about those functions, together with an invariant every
event keeps.

- Video elements are opaque `nat` identities, and "no video" is `None`.
- Whatever a handler reads from the page enters as a `Page` parameter.
- `Date.now()` is a clock parameter `now`.
- Timers are optional due times.
- Every `await` ends a step. A pending fetch, scrape or timer is part of
  the state, and its completion is its own event.
- Each retry loop is a method over a sequence of per-attempt outcomes,
  proved equal to a reference function that returns the result, the
  number of attempts and the list of delays.

The files:

- `options.dfy`: `Option`.
- `js_string.dfy`: JavaScript's `trim`, upper-casing and decimal numbers.
- `jellyfin.dfy`: the item record, the credential store, truthiness and the
  selector scan.
- `fetch_retry.dfy`: the retried fetch.
- `duration.dfy`: the "Hh Mm" run-time text.
- `legacy_pause_screen.dfy`: `main.js`.
- `pause_screen.dfy`: `src/PauseScreen.js`.
- `pause_overlay.dfy`: `src/main.js`.
- `rating.dfy`: `src/Rating.js`.
- `media_bar_patcher.dfy`: `src/MediaBar-Patcher.js`.

Three behaviours of the code are worth stating outright, because a reader
might expect otherwise:

- `src/PauseScreen.js` and `src/main.js` render a fetch result even after
  the video or the item id has changed (`StaleFetchShowsOverNewVideo`,
  `StaleFetchOverwrites`).
- `src/main.js` keeps its inactivity timeout across `play` and
  `clearState` (`PausePlayFacts`, `ClearStateFacts` in `PauseOverlay`).
- `src/main.js` enables itself on a `Servers[0]` that has no access token
  (`TokenlessServerEnables`).

## Model

| member | source | states |
|---|---|---|
| JsString.TrimSpec | src/Rating.js:51 | `Trim` removes exactly the leading and trailing `\s` characters: the result is a slice of the input with a non-blank first and last character. |
| JsString.TrimIdempotent | src/MediaBar-Patcher.js:50-51 | Trimming twice is trimming once. |
| JsString.DecimalRoundTrip | src/PauseScreen.js:235-238 | The decimal text of a number consists of digits and reads back as that number. |
| Jellyfin.FirstTruthy | main.js:296-318 | The id found is the first truthy candidate in selector order, and none is found exactly when all candidates are falsy. |
| Jellyfin.FirstPresent | src/main.js:370-383 | The selector `for` loop returns the first truthy `data-id`, as `FirstTruthy` defines it. |
| Duration.ParseRender | src/PauseScreen.js:235-238 | The "Hh Mm" / "Mm" text reads back as the total minutes. Minutes stay below 60, and the hour part appears exactly for totals of an hour or more. |
| FetchRetry.Classify | main.js:555-558 | An attempt succeeds only with a 2xx status and a parsable body; a non-ok status is an `HTTP <status>` error. |
| FetchRetry.RetryContract | src/PauseScreen.js:455-469 | At most `limit` fetches, stopping at the first success. There is a delay of `base * (i + 1)` after every failed attempt i that another follows. After `limit` failures the last attempt's error is rethrown, and the result is never undefined. |
| FetchRetry.FirstSuccessWins | src/main.js:406-419 | When attempt k is the first success within the limit, the fetch resolves with its item after k + 1 fetches. |
| FetchRetry.RetryLoop | main.js:552-565 | The `for` loop with its `try`/`catch` equals the reference `Retry`. |
| LegacyPauseScreen.RecoveryDecisionFacts | main.js:64-84 | `retryInit` gives up exactly when 3 attempts are spent. Waiting for the backoff `1000 * 2^attempts`, it re-schedules for exactly the remaining time, and that rescheduled call attempts. It attempts exactly when the backoff has elapsed since `lastRecoveryTime`. |
| LegacyPauseScreen.CredentialsContract | main.js:94-122 | At most three reads, with `1000 * 2^k` after each failed read k except a parse failure on the last. Every read before the last one made had no non-empty server list. On success the last read was stored, had a non-empty server list, and the result is its first server's token and user id, even when undefined. The result is null exactly when none of the three reads has a non-empty server list; then all three reads were made and three waits follow, or two when the last read failed to parse. |
| LegacyPauseScreen.GetCredentials | main.js:96-121 | The read loop equals the reference `CredentialsFrom`. |
| LegacyPauseScreen.ScrapeContract | main.js:273-285 | The item-id scrape tries at most three times and stops at the first id, which is the result. It waits `1000 * 2^k` after every miss. The result is null exactly when all three scrapes miss; then three scrapes were made and three waits follow. |
| LegacyPauseScreen.ScrapeGivesUp | main.js:273-285 | Three misses cost 1 s, 2 s and 4 s and yield no id. |
| LegacyPauseScreen.ScrapeLoop | main.js:273-285 | The scrape `for` loop equals the reference `ScrapeFrom`. |
| LegacyPauseScreen.DisplayFor | main.js:567-603 | An episode gets the episode heading and any other item the title heading. The plot is the overview, or "No description available" when it is falsy, and never empty. |
| LegacyPauseScreen.DisplayForFields | main.js:578-596 | An episode's heading carries its series name or "". It has a "Season N" line only for a truthy season number, and a "name: Ep. N" line only for a truthy episode number, so the name shows only with an episode number. Any other item's heading carries its name or "". |
| LegacyPauseScreen.FetchWithRetryContract | main.js:534-565 | With the default `maxRetries = 2`: at most 3 fetches, `1000 * (i + 1)` ms waits, and a non-ok status retried. A final failure writes "Unable to fetch item info." into the plot and leaves the heading as it was; a success shows the item. |
| LegacyPauseScreen.FetchWithRetry | main.js:552-565 | `fetchWithRetry(url, options)` is `Retry` with 3 attempts and base 1000. |
| LegacyPauseScreen.ClearWellformed | main.js:606-646 | `clearState`, both as written and corrected, and `destroy` keep the listener relations and the recovery bound. |
| LegacyPauseScreen.VideoChangeWellformed | main.js:265-294 | `handleVideoChange` keeps the invariant. |
| LegacyPauseScreen.CheckWellformed | main.js:255-263 | `checkForVideoChanges` keeps the invariant. |
| LegacyPauseScreen.InitWellformed | main.js:40-84 | `init` and `retryInit` keep the invariant; the attempt count never exceeds 3. |
| LegacyPauseScreen.EventWellformed | main.js:336-426 | The pause, play, mouse-move and timer handlers keep the invariant. |
| LegacyPauseScreen.TransitionGuard | main.js:457-464 | `showOverlay` does nothing while a transition is pending. `hideOverlay` always clears the timer but fades out only a visible overlay with no transition pending. |
| LegacyPauseScreen.OverlayTimerShows | main.js:437-448 | The overlay timer shows the overlay exactly when a video is current and paused, the mouse has been still for 10 s and no fade is pending. |
| LegacyPauseScreen.MoveDefersOverlay | main.js:336-358 | A settled mouse move hides the overlay unless a fade blocks it. No timer firing within the next 10 s shows it again. |
| LegacyPauseScreen.PauseArmsTimer | main.js:389-399 | A pause of a stale or ended video changes nothing. Otherwise it arms the 10 s timer and registers the move handler. It fetches only a scraped id that is present and differs from `currentItemId`. |
| LegacyPauseScreen.CheckTracksPage | main.js:255-263 | Three outcomes: the same video changes nothing, a new video is taken over with its first scraped id, and a vanished video is cleared. The clear faults exactly when listeners are attached. |
| LegacyPauseScreen.ClearStateFaults | main.js:606-646 | As written, `clearState` faults whenever listeners are attached. Otherwise it resets `overlayVisible`, `pendingTransition`, `currentItemId` and `currentVideo`. |
| LegacyPauseScreen.ClearStateFixedResets | main.js:606-632 | The corrected `clearState` detaches everything and resets the session. |
| LegacyPauseScreen.PlayKeepsOverlay | main.js:401-407 | As written, a play event leaves the overlay, its timer and the move debounce untouched. |
| LegacyPauseScreen.PlayFixedHides | main.js:401-407 | Corrected, a play event disarms every timer and hides a settled overlay. |
| LegacyPauseScreen.UnawaitedInitSendsNoToken | main.js:40-62 | Without `await`, `init` never takes the no-credentials branch. It stores undefined token and user id and schedules no retry, and every request it starts carries no token. |
| LegacyPauseScreen.AwaitedInitUsesCredentials | main.js:40-62 | With the credentials awaited, an empty store schedules `retryInit` in 5 s and changes nothing else. Stored credentials are kept and sent with requests. |
| LegacyPauseScreen.RetryInitFacts | main.js:55-57 | `retryInit` makes no call after three attempts. An early call only re-schedules at `lastRecoveryTime + backoff`. An attempt counts itself, and a successful `init` resets `recoveryAttempts` and `lastRecoveryTime` to 0. |
| LegacyPauseScreen.EmptyStoreRecovery | main.js:43-46 | With the store empty, the 5 s retry always covers the next backoff, so attempts follow one another until the third. |
| LegacyPauseScreen.JellyfinPauseScreen.constructor | main.js:11-38 | The constructor leaves the state `init` produces from the initial fields, without `await`. |
| LegacyPauseScreen.JellyfinPauseScreen.HideOverlay | main.js:495-527 | The overlay becomes `Hide` of the old one. |
| LegacyPauseScreen.JellyfinPauseScreen.ShowOverlay | main.js:457-493 | The overlay becomes `Show` of the old one. |
| LegacyPauseScreen.JellyfinPauseScreen.StartOverlayTimer | main.js:437-448 | The one overlay timer is re-armed for `now + 10000`. |
| LegacyPauseScreen.JellyfinPauseScreen.FetchItemInfo | main.js:534-550 | The display is cleared and one request with the stored token is put in flight. |
| LegacyPauseScreen.JellyfinPauseScreen.ClearState | main.js:606-646 | The new state is `Cleared`, the code as written. |
| LegacyPauseScreen.JellyfinPauseScreen.ClearStateFixed | main.js:606-632 | The new state is `ClearedFixed`. |
| LegacyPauseScreen.JellyfinPauseScreen.HandleVideoChange | main.js:265-294 | The new state is `VideoChanged`. |
| LegacyPauseScreen.JellyfinPauseScreen.CheckForVideoChanges | main.js:255-263 | The new state is `Checked`. |
| LegacyPauseScreen.JellyfinPauseScreen.InitWithCredentials | main.js:40-62 | The new state is `InitWith` the given credentials. |
| LegacyPauseScreen.JellyfinPauseScreen.Init | main.js:40-62 | `init` as written, reading the un-awaited Promise. |
| LegacyPauseScreen.JellyfinPauseScreen.InitAwaited | main.js:40-62 | `init` with `getCredentials` awaited over the store reads. |
| LegacyPauseScreen.JellyfinPauseScreen.RetryInitWithCredentials | main.js:64-84 | The new state is `RetriedWith` the given credentials. |
| LegacyPauseScreen.JellyfinPauseScreen.RetryInit | main.js:64-84 | `retryInit` then `init` as written. |
| LegacyPauseScreen.JellyfinPauseScreen.RetryInitAwaited | main.js:64-84 | `retryInit` then the awaited `init`. |
| LegacyPauseScreen.JellyfinPauseScreen.Destroy | main.js:659-723 | The new state is `Destroyed`. |
| LegacyPauseScreen.JellyfinPauseScreen.OnMutation | main.js:212-221 | The observer callback checks for video changes. After a fault nothing changes, and the invariant is kept. |
| LegacyPauseScreen.JellyfinPauseScreen.OnContainerCheck | main.js:327-331 | The 1 s container check clears the state once the player container is gone. |
| LegacyPauseScreen.JellyfinPauseScreen.OnPause | main.js:389-399 | The pause handler is `Paused`. |
| LegacyPauseScreen.JellyfinPauseScreen.OnPlay | main.js:401-407 | The play handler as written is `Played`. |
| LegacyPauseScreen.JellyfinPauseScreen.OnPlayFixed | main.js:401-407 | The corrected play handler is `PlayedFixed`. |
| LegacyPauseScreen.JellyfinPauseScreen.OnMouseMove | main.js:336-358 | A move re-arms the single 150 ms debounce. |
| LegacyPauseScreen.JellyfinPauseScreen.OnMoveSettled | main.js:336-358 | The debounce callback is `MoveSettled`. |
| LegacyPauseScreen.JellyfinPauseScreen.OnMouseOver | main.js:409-417 | Entering or leaving the video sets `mouseOverVideo` and re-arms the overlay timer for `now + 10000`. |
| LegacyPauseScreen.JellyfinPauseScreen.OnOverlayTimer | main.js:437-448 | The timer callback is `OverlayTimerFired`. |
| LegacyPauseScreen.JellyfinPauseScreen.OnShowSettled | main.js:486-490 | The 300 ms callback of `showOverlay` ends the pending transition. |
| LegacyPauseScreen.JellyfinPauseScreen.OnHideSettled | main.js:517-522 | The 300 ms callback of `hideOverlay` ends the pending transition. |
| LegacyPauseScreen.JellyfinPauseScreen.OnScrapeSettled | main.js:273-285 | The rest of the scrape loop runs, and a found id is fetched. |
| LegacyPauseScreen.JellyfinPauseScreen.OnFetchSettled | main.js:534-550 | A settled fetch removes its request and writes `DisplayAfter` of the retried fetch over the current display: the item's heading and plot, or only the error plot. |
| LegacyPauseScreen.JellyfinPauseScreen.OnRecoveryTimer | main.js:64-84 | A scheduled `retryInit` fires, as written. |
| LegacyPauseScreen.JellyfinPauseScreen.OnRecoveryTimerAwaited | main.js:64-84 | A scheduled `retryInit` fires, with the credentials awaited. |
| LegacyPauseScreen.JellyfinPauseScreen.OnOverlayInput | main.js:168-202 | A click or Escape hides the overlay and asks a paused current video to play. |
| PauseScreen.RoundMinutesNearest | src/PauseScreen.js:233 | `(ticks + 300000000) div 600000000` is the minute count nearest the ticks, with halves rounding up. |
| PauseScreen.FormatTimeReadsBack | src/PauseScreen.js:230-239 | `formatTime` returns "" for absent or zero ticks. Otherwise the text reads back as the rounded minutes, with minutes below 60 and an hour part exactly from 60 minutes on. |
| PauseScreen.ShowHideFacts | src/PauseScreen.js:109-130 | `show` and `hide` are idempotent and flip `isShowing` only when `dom` exists. `clear` hides and empties existing content and does nothing without it. |
| PauseScreen.ViewOf | src/PauseScreen.js:179-228 | A view is produced exactly for an item of type Episode or Movie. |
| PauseScreen.ApplyFacts | src/PauseScreen.js:179-228 | `apply` leaves the content untouched for a missing, untyped or unmapped item. An episode or movie writes its fields or their defaults. |
| PauseScreen.CreateRebinds | src/PauseScreen.js:140-161 | With `dom` set, `create` only rebinds `videoElement`. Without `dom` and without a container it returns the overlay unchanged; otherwise it builds the element with empty content, bound to the video, leaving `isShowing` as it was. |
| PauseScreen.Overlay.constructor | src/PauseScreen.js:30-36 | The overlay starts without element, content or video, and hidden. |
| PauseScreen.Overlay.Show | src/PauseScreen.js:109-115 | The new state is `Shown`. |
| PauseScreen.Overlay.Hide | src/PauseScreen.js:117-123 | The new state is `Hidden`. |
| PauseScreen.Overlay.Clear | src/PauseScreen.js:125-130 | The new state is `Cleared`. |
| PauseScreen.Overlay.Destroy | src/PauseScreen.js:132-138 | `dom`, `content` and `videoElement` are reset. |
| PauseScreen.Overlay.Create | src/PauseScreen.js:140-162 | The new state is `Created`. |
| PauseScreen.Overlay.Apply | src/PauseScreen.js:179-228 | The new state is `Applied`. |
| PauseScreen.Overlay.OnClick | src/PauseScreen.js:164-176 | A click hides the overlay and asks the bound video to play exactly when it is paused. |
| PauseScreen.FirstWithToken | src/PauseScreen.js:282 | Returns the index of the first server with a truthy `AccessToken`, or none exactly when no server has one. |
| PauseScreen.GetCredentials | src/PauseScreen.js:275-291 | Credentials always have a truthy token and user id. None without a stored blob, after a parse error or without `Servers`. |
| PauseScreen.CredentialsRule | src/PauseScreen.js:282-286 | There are credentials exactly when the first server with a token also has a user id, and they are that server's. The `Servers[0]` fallback never yields any. |
| PauseScreen.GetItemId | src/PauseScreen.js:413-437 | The rating button's `data-id`, else the OSD's `data-itemid`, else null: the first truthy of the two. |
| PauseScreen.FetchWithRetryContract | src/PauseScreen.js:441-469 | With `RETRY_COUNT = 3`: at most 3 fetches and `500 * (i + 1)` ms waits. No item exactly when all three attempts fail. |
| PauseScreen.FetchWithRetry | src/PauseScreen.js:455-469 | `fetchWithRetry` is `Retry` with 3 attempts and base 500. |
| PauseScreen.FetchItemInfo | src/PauseScreen.js:441-450 | `fetchItemInfo` resolves to the item or, once the error is caught, to undefined. |
| PauseScreen.ClearCheckWellformed | src/PauseScreen.js:307-327 | `clearState`, `checkForVideoChanges` and `destroy` keep the controller invariant. |
| PauseScreen.EventWellformed | src/PauseScreen.js:333-377 | The pause, play, move and timeout handlers keep the invariant. |
| PauseScreen.FetchWellformed | src/PauseScreen.js:402-406 | A settled fetch, as written or corrected, keeps the invariant. |
| PauseScreen.InitializedWellformed | src/PauseScreen.js:262-270 | `init` leaves a valid state and disables the script exactly without credentials. |
| PauseScreen.CheckThreeOutcomes | src/PauseScreen.js:307-327 | The same video changes nothing. A new video is taken over with a fresh overlay bound to it. A vanished video is forgotten with its overlay destroyed and timeout cleared. |
| PauseScreen.PauseDecision | src/PauseScreen.js:256 | A pause of a stale or ended video changes nothing. Otherwise, with the pointer still for 10 s (`lastMouseMove` starts at 0), it calls `setOverlay` at once; else `handleMove` arms the timeout. |
| PauseScreen.MoveRearms | src/PauseScreen.js:333-347 | A move hides the overlay and keeps one timeout due in 10 s. That timeout calls `setOverlay` only if no move came since and the video is paused. |
| PauseScreen.SetOverlayFacts | src/PauseScreen.js:393-407 | Without an id, `setOverlay` does nothing. With the current id it shows. With a new id it only starts the fetch: `currentItemId` and the overlay wait for the result. |
| PauseScreen.FailedFetchStillShows | src/PauseScreen.js:402-406 | As written, a failed fetch still records its id and shows the overlay with the old content, so later pauses do not refetch. |
| PauseScreen.StaleFetchShowsOverNewVideo | src/PauseScreen.js:402-404 | A fetch settling after a video change shows the old item over the new video and makes its id current. |
| PauseScreen.FixedFetchBlocks | src/PauseScreen.js:181-183 | Corrected, a rejected item neither shows the overlay nor becomes current. Otherwise it behaves as written. |
| PauseScreen.ClearStateFacts | src/PauseScreen.js:471-483 | `clearState` forgets the item, the video and the timeout. With listeners set, it runs their cleanup, which destroys the overlay. |
| PauseScreen.OverlayController.constructor | src/PauseScreen.js:248-270 | The constructor and `init` leave `Initialized` of the store and page, and a valid state. |
| PauseScreen.OverlayController.ClearState | src/PauseScreen.js:471-483 | The new state is `ClearedState`. |
| PauseScreen.OverlayController.HandleVideoChange | src/PauseScreen.js:319-327 | The new state is `VideoChanged`. |
| PauseScreen.OverlayController.CheckForVideoChanges | src/PauseScreen.js:307-317 | The new state is `Checked`. |
| PauseScreen.OverlayController.Destroy | src/PauseScreen.js:485-493 | The state is cleared and the observer dropped. |
| PauseScreen.OverlayController.HandleMove | src/PauseScreen.js:333-347 | The new state is `Moved`. |
| PauseScreen.OverlayController.SetOverlay | src/PauseScreen.js:393-401 | The new state is `SetOverlayStep`. |
| PauseScreen.OverlayController.OnMutation | src/PauseScreen.js:295-297 | The observer callback checks for video changes and keeps the invariant. |
| PauseScreen.OverlayController.OnPause | src/PauseScreen.js:349-366 | The pause handler is `PausedState`. |
| PauseScreen.OverlayController.OnPlay | src/PauseScreen.js:368-377 | The play handler hides, drops the move handler and clears the timeout. |
| PauseScreen.OverlayController.OnMove | src/PauseScreen.js:333-347 | `handleMove` on a document move. |
| PauseScreen.OverlayController.OnMoveTimeout | src/PauseScreen.js:338-346 | The timeout callback is `TimeoutFired`. |
| PauseScreen.OverlayController.OnFetchSettled | src/PauseScreen.js:402-406 | The rest of `setOverlay`, as written, after the retried fetch. |
| PauseScreen.OverlayController.OnFetchSettledFixed | src/PauseScreen.js:402-406 | The same with the corrected blocking. |
| PauseScreen.OverlayController.OnOverlayClick | src/PauseScreen.js:164-176 | A click hides the overlay and asks a paused bound video to play. |
| PauseOverlay.FormatTimeReadsBack | src/main.js:207-215 | `formatTime` returns "" for absent or zero ticks. Otherwise the text reads back as `ticks div 600000000` minutes, with minutes below 60; under a minute it is "0m". |
| PauseOverlay.ApplyFacts | src/main.js:168-205 | `apply` always clears first. A missing item leaves the content blank, a mapped item writes its fields, and other types leave it blank. A movie's rating is always written. |
| PauseOverlay.AbsentFieldsRenderUndefined | src/main.js:184-199 | A movie's absent name or official rating, and an episode's absent series name, season name, name or episode number, are written as "undefined"; an episode with all four absent renders four "undefined" texts and its synopsis or the fallback. |
| PauseOverlay.RemovedStaysDetached | src/main.js:129-137 | As written, after `destroy` every `create` returns early, so the element stays out of the page and `show` cannot make it visible. |
| PauseOverlay.RemovedFixedReattaches | src/main.js:129-137 | With references reset, `create` after `destroy` attaches a new element bound to the new video. |
| PauseOverlay.Overlay.constructor | src/main.js:16-22 | The overlay starts without element or content, and hidden. |
| PauseOverlay.Overlay.Show | src/main.js:106-112 | The new state is `Shown`. |
| PauseOverlay.Overlay.Hide | src/main.js:114-120 | The new state is `Hidden`. |
| PauseOverlay.Overlay.Clear | src/main.js:122-127 | The new state is `Cleared`. |
| PauseOverlay.Overlay.Destroy | src/main.js:129-131 | As written, only the element leaves the page. |
| PauseOverlay.Overlay.DestroyFixed | src/main.js:129-131 | The corrected `destroy` also drops the references. |
| PauseOverlay.Overlay.Create | src/main.js:133-166 | The new state is `Created`. |
| PauseOverlay.Overlay.Apply | src/main.js:168-205 | The new state is `Applied`. |
| PauseOverlay.Overlay.OnClick | src/main.js:154-160 | A click hides the overlay and asks the handler's video to play when it is paused. |
| PauseOverlay.FirstServerDecides | src/main.js:258-269 | Only `Servers[0]` decides: stores sharing the first server give the same credentials, its token and user id even when undefined, whatever servers follow, including ones with a token. |
| PauseOverlay.TokenlessServerEnables | src/main.js:246-256 | A first server without a token still enables the script, which then sends no token. |
| PauseOverlay.FetchWithRetryContract | src/main.js:406-419 | At most 3 fetches and `1000 * (i + 1)` ms waits. No item exactly when all three attempts fail. |
| PauseOverlay.FetchItemInfo | src/main.js:392-401 | `fetchItemInfo` resolves to the item or to undefined. |
| PauseOverlay.ClearCheckWellformed | src/main.js:286-302 | `clearState`, both as written and corrected, and `checkForVideoChanges` and `destroy` keep the invariant. |
| PauseOverlay.EventWellformed | src/main.js:321-346 | The pause, play, move and timeout handlers keep the invariant. |
| PauseOverlay.FetchWellformed | src/main.js:310-315 | A settled fetch keeps the invariant. |
| PauseOverlay.InitializedWellformed | src/main.js:246-256 | `init` leaves a valid state and disables the script exactly without credentials. |
| PauseOverlay.CheckThreeOutcomes | src/main.js:286-302 | The same video changes nothing. A new one is taken over, with its id recorded and fetched without showing. A vanished one is forgotten, with the timeout left armed. |
| PauseOverlay.SecondVideoDetached | src/main.js:129-131 | From the second video on, the overlay taken over is the detached one and can never be seen again. |
| PauseOverlay.VideoChangeFixedReattaches | src/main.js:295-302 | With the corrected `destroy`, every video change attaches a fresh overlay to the new video. |
| PauseOverlay.PausePlayFacts | src/main.js:334-346 | `handlePause` only registers the move handlers. `handlePlay` hides and drops them but leaves the timeout armed. |
| PauseOverlay.MoveRearms | src/main.js:321-332 | A move hides and keeps one timeout due in 10 s. The timeout calls `setOverlay(true)` only if no move came since and the video is paused. |
| PauseOverlay.SetOverlayRecordsEarly | src/main.js:304-316 | `setOverlay` records a new id before its fetch settles and shows only when `show` is set. A second call for the same id shows at once. |
| PauseOverlay.FailedFetchShowsBlank | src/main.js:310-315 | A failed fetch leaves the overlay blank with its id recorded, and the next timeout shows it blank. |
| PauseOverlay.StaleFetchOverwrites | src/main.js:310-312 | An older fetch settling after the current one overwrites its content, and the current id prevents a refetch. |
| PauseOverlay.ClearStateFacts | src/main.js:421-431 | `clearState` nulls `currentItemId` and `currentVideo`, keeps the timeout and leaves nothing visible. |
| PauseOverlay.OverlayController.constructor | src/main.js:220-256 | The constructor and `init` leave `Initialized` of the store and page. |
| PauseOverlay.OverlayController.ClearState | src/main.js:421-431 | The new state is `ClearedState`. |
| PauseOverlay.OverlayController.ClearStateFixed | src/main.js:421-431 | `clearState` with the corrected `destroy`. |
| PauseOverlay.OverlayController.SetOverlay | src/main.js:304-316 | The new state is `SetOverlayStep`. |
| PauseOverlay.OverlayController.TakeOver | src/main.js:295-302 | The rest of `handleVideoChange` after `clearState`. |
| PauseOverlay.OverlayController.HandleVideoChange | src/main.js:295-302 | The new state is `VideoChanged`. |
| PauseOverlay.OverlayController.HandleVideoChangeFixed | src/main.js:295-302 | The same with the corrected `destroy`. |
| PauseOverlay.OverlayController.CheckForVideoChanges | src/main.js:286-293 | The new state is `Checked`. |
| PauseOverlay.OverlayController.CheckForVideoChangesFixed | src/main.js:286-293 | The same with the corrected `destroy`. |
| PauseOverlay.OverlayController.Destroy | src/main.js:433-440 | The state is cleared and the observer dropped. |
| PauseOverlay.OverlayController.HandleMove | src/main.js:321-332 | The new state is `Moved`. |
| PauseOverlay.OverlayController.OnMutation | src/main.js:273-275 | The observer callback checks for video changes. |
| PauseOverlay.OverlayController.OnMutationFixed | src/main.js:273-275 | The same with the corrected `destroy`. |
| PauseOverlay.OverlayController.OnPause | src/main.js:334-339 | The pause handler is `PausedState`. |
| PauseOverlay.OverlayController.OnPlay | src/main.js:341-346 | The play handler is `PlayedState`. |
| PauseOverlay.OverlayController.OnMove | src/main.js:321-332 | `handleMove` on a document move. |
| PauseOverlay.OverlayController.OnMoveTimeout | src/main.js:325-331 | The timeout callback is `TimeoutFired`. |
| PauseOverlay.OverlayController.OnFetchSettled | src/main.js:310-315 | The rest of `setOverlay` after the retried fetch. |
| PauseOverlay.OverlayController.OnOverlayClick | src/main.js:154-160 | A click hides the overlay and asks a paused handler video to play. |
| Rating.Alias | src/Rating.js:53-60 | Every alias consists of A–Z, 0–9 and '-'. |
| Rating.StripInvalid | src/Rating.js:62 | The result keeps only A–Z, 0–9 and '-', and a string already made of them is unchanged. |
| Rating.StripInvalidChar | src/Rating.js:62 | A character in A–Z, 0–9 or '-' is kept; any other character is removed. |
| Rating.StripInvalidAppend | src/Rating.js:62 | Stripping a concatenation is the concatenation of the stripped parts, so the kept characters stay in their order. |
| Rating.NormalizeRating | src/Rating.js:48-63 | "" for empty or absent input; every character of the output is in A–Z, 0–9 or '-'. |
| Rating.CollapseRun | src/Rating.js:51 | Replacing one whitespace run by another does not change the collapsed text. |
| Rating.NormalizeIgnoresCase | src/Rating.js:51 | Inputs equal after upper-casing normalise alike. |
| Rating.NormalizeIgnoresWhitespaceRuns | src/Rating.js:51 | Inputs that differ only in the whitespace of a run normalise alike. |
| Rating.NotRatedAliases | src/Rating.js:53-60 | "NOT RATED", "NOT-RATED", "UNRATED" and "NO RATING" map to "NR". |
| Rating.SelfAliases | src/Rating.js:53-60 | "APPROVED" and "PASSED" map to themselves. |
| RatingScript.VisitUpdates | src/Rating.js:70-92 | A visit writes exactly when the element has text and does not both carry its token and sit in the processed set. A write sets the token, and fills `aria-label` with "Content rated " + token and `title` with "Rating: " + token only when they are falsy. A visit that does not write leaves the element as it was. |
| RatingScript.PassUpdates | src/Rating.js:65-103 | Every element is updated so, and the count is at most the number of elements. |
| RatingScript.PassRecords | src/Rating.js:82-84 | Every element with text ends up in the processed set, and nothing leaves it. |
| RatingScript.PassSeen | src/Rating.js:70-84 | After a pass over the first `n` elements, the processed set is the initial one plus every one of them with text. |
| RatingScript.PassOutcomes | src/Rating.js:65-92 | Element by element, the pass writes exactly the elements that the visit rule picks given the elements processed before them, and leaves the others unchanged. |
| RatingScript.PassCounts | src/Rating.js:68-84 | `processedCount` equals the number of elements the visit rule picks. |
| RatingScript.PassQuiet | src/Rating.js:77-79 | A pass that counts nothing changes nothing. |
| RatingScript.PassIdempotent | src/Rating.js:77-79 | Running the pass over its own output changes nothing and counts nothing. |
| RatingScript.RatingScript.ProcessRatingElements | src/Rating.js:65-103 | The `forEach` over the element array equals the reference pass, for elements, set and count. |
| RatingScript.RatingScript.DebouncedProcess | src/Rating.js:105-110 | The one pending timeout is replaced by a pass in 150 ms. |
| RatingScript.RatingScript.Cleanup | src/Rating.js:161-176 | Observer, interval and timeout are dropped, and the processed set is emptied. |
| RatingScript.RatingScript.SetupMutationObserver | src/Rating.js:112-154 | Returns true exactly when the observer is set up; a throwing `observe` still leaves the observer object. |
| RatingScript.RatingScript.Initialize | src/Rating.js:180-192 | Clean up, run a pass over a fresh set and try the observer. The fallback interval runs whether or not the observer setup succeeded. |
| RatingScript.RatingScript.OnBodyMutation | src/Rating.js:118-135 | A relevant body mutation debounces a pass; any other changes nothing. |
| RatingScript.RatingScript.OnHeadMutation | src/Rating.js:195-202 | A new URL schedules a re-initialisation in 500 ms. |
| RatingScript.RatingScript.OnDebounceFired | src/Rating.js:105-110 | The pending timeout runs its pass or its re-initialisation. |
| RatingScript.RatingScript.OnPollTick | src/Rating.js:156-159 | A tick of the fallback interval runs the pass. |
| MediaBarPatcher.NoSeparatorUnchanged | src/MediaBar-Patcher.js:29 | Text without "▫️" is left as it is. |
| MediaBarPatcher.FirstSeparatorReplaced | src/MediaBar-Patcher.js:19-20 | The first "▫️" becomes the icon markup and the text before it is kept. |
| MediaBarPatcher.NoSeparatorLeft | src/MediaBar-Patcher.js:28-29 | No "▫️" remains after the replacement. |
| MediaBarPatcher.IconFacts | src/MediaBar-Patcher.js:20 | The icon markup contains no separator character and is padded by spaces. |
| MediaBarPatcher.FixSpan | src/MediaBar-Patcher.js:27-30 | A processed span is marked `data-separator-fixed`. |
| MediaBarPatcher.FixSpanOnce | src/MediaBar-Patcher.js:27-30 | A marked span is untouched, so running the pass twice is running it once. An unmarked span gets its text with every separator replaced. |
| MediaBarPatcher.ProcessSeparators | src/MediaBar-Patcher.js:25-33 | The `forEach` rewrites every span as `FixSpan` does. |
| MediaBarPatcher.ReplaceRatingFacts | src/MediaBar-Patcher.js:39-67 | An `.age-rating` element is replaced only when its inner span has trimmed text. The replacement carries that text, exactly the class string and `data-bar-processed`, and the pass is idempotent. |
| MediaBarPatcher.ReplacementIsRatingBadge | src/MediaBar-Patcher.js:55-63 | The replacement is a badge with text that the rating pass will normalise. |
| MediaBarPatcher.ProcessRatingReplacement | src/MediaBar-Patcher.js:39-67 | The `forEach` rewrites every node as `ReplaceRating` does. |

## Left out

- DOM plumbing, Mutation observers and `addEventListener`/`removeEventListener`: modelled as events delivered to the classes; markup, CSS strings, focus handling, `aria-*` on the overlay and style injection are not modelled.
- `localStorage`, `JSON.parse`, `fetch` and `response.json()`: they are inputs. The store is `StoredCredentials`, and each fetch attempt is a status with an optional parsed body. The model does not distinguish a JSON `null` field from an absent one: both are `None`, and where the code interpolates them the model writes "undefined", although a `null` field renders as "null". Any other non-object value the blob parses to (a number, a string) is `Stored(None)`, since its `Servers` is undefined.
- Real timers and `Date.now()`: a clock parameter and due-time fields; an event method for a timer requires only that its due time has come.
- `main.js`, `requestAnimationFrame` inside `showOverlay`/`hideOverlay`: the fade steps are collapsed into the call and its 300 ms settle event.
- `main.js`, what happens after the first `clearState` that runs with listeners attached (every video change after the first, and every loss of the video): the cleanup throws, `cleanupListeners` stays set, and the `catch` path `destroy` -> `clearState` throws again at each depth until the stack overflows. The program does not freeze: the catches at 636-645 and 713-722 absorb the stack-overflow `RangeError`, each `destroy` that unwinds clears the observer, the overlay and the timers, `retryInit` runs, and `handleVideoChange` goes on at 268-269. The model does not follow this: it sets `faulted` there and leaves the state unchanged on every later event.
- `LegacyPauseScreen.JellyfinPauseScreen.OnScrapeSettled`: the second and third scrapes and the waits between them are folded into one step, so no event is interleaved between them.
- `main.js`, `handleMouseMove` (336-357): its `clearTimeout` runs before the `requestAnimationFrame` callback assigns `timeout`, so several moves in one frame leave several 150 ms callbacks pending; the model keeps one pending debounce.
- `src/Rating.js`, the `visibilitychange` handler (205-212), which runs a pass 100 ms after the page becomes visible again: a pass is modelled once; this extra trigger for it is not.
- `main.js`, `cleanupOrphanedElements` (648-657) and `reconnectObserver` (240-253): they only remove stray nodes and re-create the observer, and they change no modelled field beyond what `OnMutation` already covers.
- `main.js`, `handleInitError` (86-92): `init`'s `try` block never throws in the model, because `getCredentials` is not awaited and nothing else in it throws on the modelled state, so the branch is unreachable.
- `main.js` and `src/PauseScreen.js`, the rate-limited branch of `checkForItemId`/`getItemId`: every call site passes `force = true`, so only the scrape is modelled.
- `LegacyPauseScreen.JellyfinPauseScreen.InitAwaited`: the awaited `getCredentials` loop is folded into one step, so events between its reads are not interleaved. The fold also leaves the clock where the reads started: with an empty store the reads wait 1 + 2 + 4 s (main.js:102-118) before `init` schedules its 5 s retry, so the model's retry falls due about 7 s early.
- `src/main.js` `Overlay.Apply`: the content element `apply` builds through its own `create()` takes the container's presence as a parameter; the controller's fetches always follow a `create` that found it.
- `PauseScreen.FormatTime` and `PauseOverlay.FormatTime`: float division is modelled on natural ticks, as `(ticks + 300000000) div 600000000` and `ticks div 600000000`.
- `Rating.NormalizeRating`: `\s` and `toUpperCase` are modelled on ASCII and the JavaScript whitespace set, without Unicode case mapping.
- `src/LoginImage.js` is not part of this model: it is login-page wiring around the browser's `URL` parser.

## Findings

| source | as written | input that shows it | evidently intended | confidence | as-written member | corrected member |
|---|---|---|---|---|---|---|
| main.js:383 | `removeMouseMoveListener` reads `mouseMoveTimeout`, which is not declared in that scope; under `'use strict'` this throws, so `handlePlay` stops before hiding the overlay, and the listener cleanup in `clearState` throws into a `catch` that calls `destroy`, which throws the same way until the stack overflows; the catches absorb that and the program unwinds | pause the current video (listeners attached), then play it, or let the next video replace it | clear the debounce `timeout` variable of `handleMouseMove` | high, not executed | LegacyPauseScreen.PlayKeepsOverlay, LegacyPauseScreen.ClearStateFaults | LegacyPauseScreen.PlayFixedHides, LegacyPauseScreen.ClearStateFixedResets |
| main.js:42 | `init` calls the `async getCredentials` without `await`; the Promise is truthy, so the no-credentials retry never runs and `token`/`userId` are undefined | any start of the script, with or without stored credentials | `await this.getCredentials()` in an `async init` | high, not executed | LegacyPauseScreen.UnawaitedInitSendsNoToken | LegacyPauseScreen.AwaitedInitUsesCredentials |
| src/PauseScreen.js:402-406 | after a failed fetch or a rejected item, `setOverlay` still records the id and shows the overlay, although `apply` logs that it is blocking the overlay | a new item id whose three fetches all return HTTP 500, with an overlay holding the previous item | do not show, nor record the id, when `apply` rejects the item | medium, not executed | PauseScreen.FailedFetchStillShows | PauseScreen.FixedFetchBlocks |
| src/main.js:129-131 | `destroy` removes the element but keeps `dom` and `content`, so every later `create` returns early and the overlay never returns to the page | play one video, then a second one: `clearState` destroys the overlay and the second `create` returns at once | reset `dom` and `content` in `destroy`, as `src/PauseScreen.js` does | high, not executed | PauseOverlay.SecondVideoDetached | PauseOverlay.VideoChangeFixedReattaches |
