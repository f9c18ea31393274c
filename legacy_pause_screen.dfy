/**
 * The single-file pause screen (`JellyfinPauseScreen`): it follows the page's
 * `<video>` element, arms a 10 s inactivity timer on pause and mouse
 * movement, shows and hides its overlay behind a `pendingTransition` guard,
 * scrapes the playing item's id from the player controls, fetches the item
 * with bounded retry, and recovers from failed initialisation with an
 * exponential backoff.
 *
 * Every `await` is a step boundary: a fetch, an item-id scrape loop or a
 * timer that is pending is a field, and its completion is its own event.
 * `State` lists every field; each event is a pure function from state to
 * state, and the class `JellyfinPauseScreen` implements those functions on
 * its fields.
 */
module LegacyPauseScreen {
  import opened Options
  import opened JsString
  import opened Jellyfin
  import FetchRetry

  const OverlayDelay: int := 10000
  const MoveDebounce: int := 150
  const MaxRecoveryAttempts: nat := 3
  const RecoveryBackoff: nat := 1000
  const NoCredentialsRetry: int := 5000
  /** `fetchWithRetry`'s default `maxRetries`; the loop makes `maxRetries + 1` attempts. */
  const MaxRetries: nat := 2
  const FetchBackoff: nat := 1000
  const ScrapeAttempts: nat := 3
  const CredentialAttempts: nat := 3

  function Pow2(k: nat): (r: nat)
    ensures r >= 1
  {
    if k == 0 then 1 else 2 * Pow2(k - 1)
  }

  // ---------------------------------------------------------------------
  // retryInit

  datatype RecoveryStep = GiveUp | TooSoon(wait: int) | Attempt

  /** What `retryInit` decides: give up after three attempts, wait out the backoff `1000 * 2^attempts`, or try. */
  function RecoveryDecision(attempts: nat, lastRecoveryTime: int, now: int): RecoveryStep {
    var backoff := RecoveryBackoff * Pow2(attempts);
    if attempts >= MaxRecoveryAttempts then GiveUp
    else if now - lastRecoveryTime < backoff then TooSoon(backoff - (now - lastRecoveryTime))
    else Attempt
  }

  /**
   * The limit is checked first; a call that comes too early waits exactly the
   * rest of the backoff, after which the same call attempts; an attempt is
   * made only once the backoff measured from the last attempt has passed.
   */
  lemma RecoveryDecisionFacts(attempts: nat, lastRecoveryTime: int, now: int)
    ensures var d := RecoveryDecision(attempts, lastRecoveryTime, now);
      && (d.GiveUp? <==> attempts >= MaxRecoveryAttempts)
      && (d.TooSoon? ==>
            && d.wait > 0
            && now - lastRecoveryTime + d.wait == RecoveryBackoff * Pow2(attempts)
            && RecoveryDecision(attempts, lastRecoveryTime, now + d.wait) == Attempt)
      && (d.Attempt? <==> attempts < MaxRecoveryAttempts && now - lastRecoveryTime >= RecoveryBackoff * Pow2(attempts))
  {
  }

  // ---------------------------------------------------------------------
  // getCredentials (main.js)

  datatype CredentialRun = CredentialRun(result: Option<Credentials>, lookups: nat, delays: seq<nat>)

  /** The store as read on attempt `k`; reads beyond the list find nothing. */
  function StoreAt(stores: seq<StoredCredentials>, k: nat): StoredCredentials {
    if k < |stores| then stores[k] else Absent
  }

  /**
   * Reference definition of the loop: a missing entry or one without a first
   * server waits `1000 * 2^k` and tries again, a parse failure gives up on
   * the last attempt and otherwise waits, and the first server's token and
   * user id are returned as they are, even when undefined.
   */
  function CredentialsFrom(stores: seq<StoredCredentials>, k: nat): CredentialRun
    requires k <= CredentialAttempts
    decreases CredentialAttempts - k
  {
    if k == CredentialAttempts then CredentialRun(None, k, [])
    else
      match StoreAt(stores, k)
      case Stored(servers) =>
        if servers.Some? && servers.value != [] then
          CredentialRun(Some(Credentials(servers.value[0].accessToken, servers.value[0].userId)), k + 1, [])
        else
          var rest := CredentialsFrom(stores, k + 1);
          CredentialRun(rest.result, rest.lookups, [1000 * Pow2(k)] + rest.delays)
      case Malformed =>
        if k == CredentialAttempts - 1 then CredentialRun(None, k + 1, [])
        else
          var rest := CredentialsFrom(stores, k + 1);
          CredentialRun(rest.result, rest.lookups, [1000 * Pow2(k)] + rest.delays)
      case Absent =>
        var rest := CredentialsFrom(stores, k + 1);
        CredentialRun(rest.result, rest.lookups, [1000 * Pow2(k)] + rest.delays)
  }

  /** Read `k` finds a stored entry with a non-empty server list. */
  predicate HasServers(stores: seq<StoredCredentials>, k: nat) {
    var store := StoreAt(stores, k);
    store.Stored? && store.servers.Some? && store.servers.value != []
  }

  /** The credentials of read `k`: the first server's token and user id. */
  function FirstServerOf(stores: seq<StoredCredentials>, k: nat): Credentials
    requires HasServers(stores, k)
  {
    var server := StoreAt(stores, k).servers.value[0];
    Credentials(server.accessToken, server.userId)
  }

  /** How many reads a run makes and which delays it waits. */
  lemma {:induction false} CredentialsShape(stores: seq<StoredCredentials>, k: nat)
    requires k < CredentialAttempts
    ensures var run := CredentialsFrom(stores, k);
      && k < run.lookups <= CredentialAttempts
      && (forall i :: 0 <= i < |run.delays| ==> run.delays[i] == 1000 * Pow2(k + i))
      && (run.result.Some? ==> |run.delays| == run.lookups - k - 1)
      && (run.result.None? ==>
            && run.lookups == CredentialAttempts
            && |run.delays| == if StoreAt(stores, CredentialAttempts - 1).Malformed?
                               then CredentialAttempts - k - 1 else CredentialAttempts - k)
    decreases CredentialAttempts - k
  {
    var run := CredentialsFrom(stores, k);
    var store := StoreAt(stores, k);
    if !HasServers(stores, k) && !(store.Malformed? && k == CredentialAttempts - 1) {
      CredentialsStep(stores, k);
      if k + 1 == CredentialAttempts {
        assert run == CredentialRun(None, CredentialAttempts, [1000 * Pow2(k)]);
      } else {
        CredentialsShape(stores, k + 1);
        var rest := CredentialsFrom(stores, k + 1);
        assert run.delays == [1000 * Pow2(k)] + rest.delays;
        forall i | 0 <= i < |run.delays| ensures run.delays[i] == 1000 * Pow2(k + i) {
          if i > 0 {
            assert run.delays[i] == rest.delays[i - 1];
          }
        }
      }
    }
  }

  /** What a run's reads found: no server list before the last read, whose server list gives the result. */
  predicate ReadBy(stores: seq<StoredCredentials>, k: nat, run: CredentialRun) {
    && k < run.lookups <= CredentialAttempts
    && (forall j :: k <= j < run.lookups - 1 ==> !HasServers(stores, j))
    && (run.result.Some? <==> HasServers(stores, run.lookups - 1))
    && (run.result.Some? ==> run.result.value == FirstServerOf(stores, run.lookups - 1))
  }

  lemma {:induction false} CredentialsFinds(stores: seq<StoredCredentials>, k: nat)
    requires k < CredentialAttempts
    ensures ReadBy(stores, k, CredentialsFrom(stores, k))
    decreases CredentialAttempts - k
  {
    var store := StoreAt(stores, k);
    if HasServers(stores, k) {
      assert CredentialsFrom(stores, k) == CredentialRun(Some(FirstServerOf(stores, k)), k + 1, []);
    } else if store.Malformed? && k == CredentialAttempts - 1 {
      assert CredentialsFrom(stores, k) == CredentialRun(None, k + 1, []);
    } else {
      CredentialsStep(stores, k);
      if k + 1 == CredentialAttempts {
        assert CredentialsFrom(stores, k) == CredentialRun(None, CredentialAttempts, [1000 * Pow2(k)]);
      } else {
        CredentialsFinds(stores, k + 1);
        ReadAfterMiss(stores, k, CredentialsFrom(stores, k + 1), CredentialsFrom(stores, k));
      }
    }
  }

  /** A read without a server list in front of a run extends what the run found. */
  lemma ReadAfterMiss(stores: seq<StoredCredentials>, k: nat, rest: CredentialRun, run: CredentialRun)
    requires k + 1 < CredentialAttempts && !HasServers(stores, k)
    requires ReadBy(stores, k + 1, rest)
    requires run.result == rest.result && run.lookups == rest.lookups
    ensures ReadBy(stores, k, run)
  {
    forall j | k <= j < run.lookups - 1 ensures !HasServers(stores, j) {
      if j > k {
        assert k + 1 <= j < rest.lookups - 1;
      }
    }
  }

  /**
   * `getCredentials` makes at most three reads and waits `1000 * 2^k` after
   * each failed read k, except after a parse failure on the last one. It
   * returns the first server's token and user id from the first read that
   * has a server list, and null exactly when none of the three reads has one.
   */
  lemma CredentialsContract(stores: seq<StoredCredentials>)
    ensures var run := CredentialsFrom(stores, 0);
      && 1 <= run.lookups <= CredentialAttempts
      && (forall i :: 0 <= i < |run.delays| ==> run.delays[i] == 1000 * Pow2(i))
      && (forall j :: 0 <= j < run.lookups - 1 ==> !HasServers(stores, j))
      && (run.result.Some? ==>
            && |run.delays| == run.lookups - 1
            && HasServers(stores, run.lookups - 1)
            && StoreAt(stores, run.lookups - 1).Stored?
            && StoreAt(stores, run.lookups - 1).servers.Some?
            && StoreAt(stores, run.lookups - 1).servers.value != []
            && run.result.value == Credentials(StoreAt(stores, run.lookups - 1).servers.value[0].accessToken,
                                               StoreAt(stores, run.lookups - 1).servers.value[0].userId))
      && (run.result.None? <==> forall j :: 0 <= j < CredentialAttempts ==> !HasServers(stores, j))
      && (run.result.None? ==>
            && run.lookups == CredentialAttempts
            && |run.delays| == if StoreAt(stores, CredentialAttempts - 1).Malformed? then 2 else 3)
  {
    CredentialsShape(stores, 0);
    CredentialsFinds(stores, 0);
  }

  /** One read of `getCredentials` that neither returns nor gives up, then the reads after it. */
  lemma CredentialsStep(stores: seq<StoredCredentials>, k: nat)
    requires k < CredentialAttempts
    requires var store := StoreAt(stores, k);
      !(store.Stored? && store.servers.Some? && store.servers.value != [])
      && !(store.Malformed? && k == CredentialAttempts - 1)
    ensures var rest := CredentialsFrom(stores, k + 1);
      CredentialsFrom(stores, k) == CredentialRun(rest.result, rest.lookups, [1000 * Pow2(k)] + rest.delays)
  {
  }

  /** The read loop's invariant survives a read that neither returns nor gives up. */
  lemma CredentialsAdvance(stores: seq<StoredCredentials>, k: nat, delays: seq<nat>)
    requires k < CredentialAttempts
    requires var store := StoreAt(stores, k);
      !(store.Stored? && store.servers.Some? && store.servers.value != [])
      && !(store.Malformed? && k == CredentialAttempts - 1)
    requires var rest := CredentialsFrom(stores, k);
      CredentialsFrom(stores, 0) == CredentialRun(rest.result, rest.lookups, delays + rest.delays)
    ensures var rest := CredentialsFrom(stores, k + 1);
      CredentialsFrom(stores, 0) == CredentialRun(rest.result, rest.lookups, (delays + [1000 * Pow2(k)]) + rest.delays)
  {
    CredentialsStep(stores, k);
    var rest := CredentialsFrom(stores, k + 1);
    var step: seq<nat> := [1000 * Pow2(k)];
    assert delays + (step + rest.delays) == (delays + step) + rest.delays;
  }

  /** The `for` loop of `getCredentials`. */
  method GetCredentials(stores: seq<StoredCredentials>) returns (run: CredentialRun)
    ensures run == CredentialsFrom(stores, 0)
  {
    var delays: seq<nat> := [];
    var k := 0;
    while k < CredentialAttempts
      invariant 0 <= k <= CredentialAttempts
      invariant var rest := CredentialsFrom(stores, k);
        CredentialsFrom(stores, 0) == CredentialRun(rest.result, rest.lookups, delays + rest.delays)
    {
      var store := StoreAt(stores, k);
      if store.Stored? && store.servers.Some? && store.servers.value != [] {
        var server := store.servers.value[0];
        assert delays + [] == delays;
        return CredentialRun(Some(Credentials(server.accessToken, server.userId)), k + 1, delays);
      }
      if store.Malformed? && k == CredentialAttempts - 1 {
        assert delays + [] == delays;
        return CredentialRun(None, k + 1, delays);
      }
      CredentialsAdvance(stores, k, delays);
      delays := delays + [1000 * Pow2(k)];
      k := k + 1;
    }
    assert delays + [] == delays;
    return CredentialRun(None, k, delays);
  }

  /**
   * What `init` reads as its credentials in the code as written: the
   * un-awaited call yields a pending Promise, which is truthy and whose
   * `token` and `userId` are undefined.
   */
  const UnawaitedCredentials: Option<Credentials> := Some(Credentials(None, None))

  // ---------------------------------------------------------------------
  // The item-id scrape of handleVideoChange

  datatype ScrapeRun = ScrapeRun(itemId: Option<ItemId>, scrapes: nat, delays: seq<nat>)

  /** The `data-id` values the three selectors find on scrape `k`; a scrape beyond the list finds nothing. */
  function PageAt(pages: seq<seq<Option<string>>>, k: nat): seq<Option<string>> {
    if k < |pages| then pages[k] else []
  }

  /** Reference definition: scrape `k`, and when it finds nothing wait `1000 * 2^k` (also after the last one). */
  function ScrapeFrom(pages: seq<seq<Option<string>>>, k: nat): ScrapeRun
    requires k <= ScrapeAttempts
    decreases ScrapeAttempts - k
  {
    if k == ScrapeAttempts then ScrapeRun(None, k, [])
    else
      var id := FirstTruthy(PageAt(pages, k));
      if id.Some? then ScrapeRun(id, k + 1, [])
      else
        var rest := ScrapeFrom(pages, k + 1);
        ScrapeRun(rest.itemId, rest.scrapes, [1000 * Pow2(k)] + rest.delays)
  }

  /** How many scrapes a run makes and which delays it waits. */
  lemma {:induction false} ScrapeShape(pages: seq<seq<Option<string>>>, k: nat)
    requires k < ScrapeAttempts
    ensures var run := ScrapeFrom(pages, k);
      && k < run.scrapes <= ScrapeAttempts
      && (forall i :: 0 <= i < |run.delays| ==> run.delays[i] == 1000 * Pow2(k + i))
      && (run.itemId.Some? ==> |run.delays| == run.scrapes - k - 1)
      && (run.itemId.None? ==> run.scrapes == ScrapeAttempts && |run.delays| == ScrapeAttempts - k)
    decreases ScrapeAttempts - k
  {
    var run := ScrapeFrom(pages, k);
    if FirstTruthy(PageAt(pages, k)).None? {
      ScrapeStep(pages, k);
      if k + 1 == ScrapeAttempts {
        assert run == ScrapeRun(None, ScrapeAttempts, [1000 * Pow2(k)]);
      } else {
        ScrapeShape(pages, k + 1);
        var rest := ScrapeFrom(pages, k + 1);
        assert run.delays == [1000 * Pow2(k)] + rest.delays;
        forall i | 0 <= i < |run.delays| ensures run.delays[i] == 1000 * Pow2(k + i) {
          if i > 0 {
            assert run.delays[i] == rest.delays[i - 1];
          }
        }
      }
    }
  }

  /** What a run's scrapes found: misses before the last scrape, whose id is the result. */
  predicate FoundBy(pages: seq<seq<Option<string>>>, k: nat, run: ScrapeRun) {
    && k < run.scrapes <= ScrapeAttempts
    && (forall j :: k <= j < run.scrapes - 1 ==> FirstTruthy(PageAt(pages, j)).None?)
    && run.itemId == FirstTruthy(PageAt(pages, run.scrapes - 1))
  }

  lemma {:induction false} ScrapeFinds(pages: seq<seq<Option<string>>>, k: nat)
    requires k < ScrapeAttempts
    ensures FoundBy(pages, k, ScrapeFrom(pages, k))
    decreases ScrapeAttempts - k
  {
    if FirstTruthy(PageAt(pages, k)).None? {
      ScrapeStep(pages, k);
      if k + 1 == ScrapeAttempts {
        assert ScrapeFrom(pages, k) == ScrapeRun(None, ScrapeAttempts, [1000 * Pow2(k)]);
      } else {
        ScrapeFinds(pages, k + 1);
        FoundAfterMiss(pages, k, ScrapeFrom(pages, k + 1), ScrapeFrom(pages, k));
      }
    }
  }

  /** A miss in front of a run extends what the run found. */
  lemma FoundAfterMiss(pages: seq<seq<Option<string>>>, k: nat, rest: ScrapeRun, run: ScrapeRun)
    requires k + 1 < ScrapeAttempts && FirstTruthy(PageAt(pages, k)).None?
    requires FoundBy(pages, k + 1, rest)
    requires run.itemId == rest.itemId && run.scrapes == rest.scrapes
    ensures FoundBy(pages, k, run)
  {
    forall j | k <= j < run.scrapes - 1 ensures FirstTruthy(PageAt(pages, j)).None? {
      if j > k {
        assert k + 1 <= j < rest.scrapes - 1;
      }
    }
  }

  lemma ScrapeFromFacts(pages: seq<seq<Option<string>>>, k: nat)
    requires k < ScrapeAttempts
    ensures var run := ScrapeFrom(pages, k);
      && k < run.scrapes <= ScrapeAttempts
      && (forall i :: 0 <= i < |run.delays| ==> run.delays[i] == 1000 * Pow2(k + i))
      && (forall j :: k <= j < run.scrapes - 1 ==> FirstTruthy(PageAt(pages, j)).None?)
      && (run.itemId.Some? ==>
            && |run.delays| == run.scrapes - k - 1
            && run.itemId == FirstTruthy(PageAt(pages, run.scrapes - 1)))
      && (run.itemId.None? ==>
            && run.scrapes == ScrapeAttempts
            && |run.delays| == ScrapeAttempts - k
            && FirstTruthy(PageAt(pages, ScrapeAttempts - 1)).None?)
  {
    ScrapeShape(pages, k);
    ScrapeFinds(pages, k);
  }

  /** A scrape that misses, followed by the scrapes after it. */
  lemma ScrapeStep(pages: seq<seq<Option<string>>>, k: nat)
    requires k < ScrapeAttempts && FirstTruthy(PageAt(pages, k)).None?
    ensures var rest := ScrapeFrom(pages, k + 1);
      ScrapeFrom(pages, k) == ScrapeRun(rest.itemId, rest.scrapes, [1000 * Pow2(k)] + rest.delays)
  {
  }

  /**
   * The scrape loop tries at most three times, stops at the first id found,
   * and waits `1000 * 2^k` after each miss, including the last. It finds no
   * id exactly when all three scrapes miss.
   */
  lemma ScrapeContract(pages: seq<seq<Option<string>>>)
    ensures var run := ScrapeFrom(pages, 0);
      && 1 <= run.scrapes <= ScrapeAttempts
      && (forall i :: 0 <= i < |run.delays| ==> run.delays[i] == 1000 * Pow2(i))
      && (forall j :: 0 <= j < run.scrapes - 1 ==> FirstTruthy(PageAt(pages, j)).None?)
      && run.itemId == FirstTruthy(PageAt(pages, run.scrapes - 1))
      && (run.itemId.Some? ==> |run.delays| == run.scrapes - 1)
      && (run.itemId.None? ==> run.scrapes == ScrapeAttempts && |run.delays| == ScrapeAttempts)
      && (run.itemId.None? <==> forall j :: 0 <= j < ScrapeAttempts ==> FirstTruthy(PageAt(pages, j)).None?)
  {
    ScrapeFromFacts(pages, 0);
  }

  /** A scrape that never finds an id spends 1 + 2 + 4 seconds and gives up. */
  lemma ScrapeGivesUp(pages: seq<seq<Option<string>>>)
    requires forall j :: 0 <= j < ScrapeAttempts ==> FirstTruthy(PageAt(pages, j)).None?
    ensures ScrapeFrom(pages, 0) == ScrapeRun(None, ScrapeAttempts, [1000, 2000, 4000])
  {
    assert FirstTruthy(PageAt(pages, 0)).None?;
    assert FirstTruthy(PageAt(pages, 1)).None?;
    assert FirstTruthy(PageAt(pages, 2)).None?;
    assert Pow2(2) == 4;
  }

  /** The scrape loop's invariant survives a miss at attempt `i`. */
  lemma ScrapeAdvance(pages: seq<seq<Option<string>>>, k: nat, i: nat, delays: seq<nat>)
    requires k <= i < ScrapeAttempts && FirstTruthy(PageAt(pages, i)).None?
    requires var rest := ScrapeFrom(pages, i);
      ScrapeFrom(pages, k) == ScrapeRun(rest.itemId, rest.scrapes, delays + rest.delays)
    ensures var rest := ScrapeFrom(pages, i + 1);
      ScrapeFrom(pages, k) == ScrapeRun(rest.itemId, rest.scrapes, (delays + [1000 * Pow2(i)]) + rest.delays)
  {
    ScrapeStep(pages, i);
    var rest := ScrapeFrom(pages, i + 1);
    var step: seq<nat> := [1000 * Pow2(i)];
    assert delays + (step + rest.delays) == (delays + step) + rest.delays;
  }

  /** The remaining scrapes of the loop, from attempt `k` on. */
  method ScrapeLoop(pages: seq<seq<Option<string>>>, k: nat) returns (run: ScrapeRun)
    requires k <= ScrapeAttempts
    ensures run == ScrapeFrom(pages, k)
  {
    var delays: seq<nat> := [];
    var i := k;
    while i < ScrapeAttempts
      invariant k <= i <= ScrapeAttempts
      invariant var rest := ScrapeFrom(pages, i);
        ScrapeFrom(pages, k) == ScrapeRun(rest.itemId, rest.scrapes, delays + rest.delays)
    {
      var id := FirstPresent(PageAt(pages, i));
      if id.Some? {
        assert delays + [] == delays;
        return ScrapeRun(id, i + 1, delays);
      }
      ScrapeAdvance(pages, k, i, delays);
      delays := delays + [1000 * Pow2(i)];
      i := i + 1;
    }
    assert delays + [] == delays;
    return ScrapeRun(None, i, delays);
  }

  // ---------------------------------------------------------------------
  // fetchItemInfo / displayItemInfo

  /**
   * The heading area (`overlayDetails`), by the texts it shows. An episode's
   * season line and its "name: Ep. N" line are each present only for a
   * truthy number.
   */
  datatype Details =
    | NoDetails
    | EpisodeDetails(series: string, season: Option<string>, episode: Option<string>)
    | TitleDetails(title: string)

  /** `overlayDetails` and `overlayPlot`. */
  datatype Display = Display(details: Details, plot: string)

  const EmptyDisplay: Display := Display(NoDetails, "")
  const FetchFailedPlot := "Unable to fetch item info."
  const MissingPlot := "No description available"

  /** `displayItemInfo`: an episode shows series, season and episode lines; anything else its name. */
  function DisplayFor(item: Item): (d: Display)
    ensures d.details.EpisodeDetails? <==> item.kind == Some("Episode")
    ensures d.details.TitleDetails? <==> item.kind != Some("Episode")
    ensures d.plot == OrElse(item.overview, MissingPlot) && d.plot != ""
  {
    var season := NumberOr(item.parentIndexNumber, "");
    var episode := NumberOr(item.indexNumber, "");
    var details :=
      if item.kind == Some("Episode") then
        EpisodeDetails(OrElse(item.seriesName, ""),
                       if season != "" then Some("Season " + season) else None,
                       if episode != "" then Some(OrElse(item.name, "") + ": Ep. " + episode) else None)
      else TitleDetails(OrElse(item.name, ""));
    Display(details, OrElse(item.overview, MissingPlot))
  }

  /** A JavaScript-truthy number: present and not 0. */
  predicate TruthyNumber(n: Option<nat>) {
    n.Some? && n.value != 0
  }

  /**
   * Which heading lines an item gets and what they say: an episode's series
   * name (or ""), "Season N" only for a truthy season number and
   * "name: Ep. N" only for a truthy episode number; any other item its name.
   */
  lemma DisplayForFields(item: Item)
    ensures var d := DisplayFor(item).details;
      && (item.kind == Some("Episode") ==>
            && d.series == OrElse(item.seriesName, "")
            && (d.season.Some? <==> TruthyNumber(item.parentIndexNumber))
            && (d.season.Some? ==> d.season.value == "Season " + Decimal(item.parentIndexNumber.value))
            && (d.episode.Some? <==> TruthyNumber(item.indexNumber))
            && (d.episode.Some? ==>
                  d.episode.value == OrElse(item.name, "") + ": Ep. " + Decimal(item.indexNumber.value)))
      && (item.kind != Some("Episode") ==> d == TitleDetails(OrElse(item.name, "")))
  {
  }

  /**
   * What `fetchItemInfo` leaves once the retry settles: the item's display,
   * or the error text in the plot with the heading as `prior` left it.
   */
  function DisplayAfter(prior: Display, run: FetchRetry.Run): Display {
    match run.result
    case Resolved(item) => DisplayFor(item)
    case _ => prior.(plot := FetchFailedPlot)
  }

  /**
   * With the default `maxRetries = 2`: at most three fetches, a wait of
   * `1000 * (i + 1)` after failed attempt i when another follows, a non-2xx
   * status counts as a failure, and the third attempt's error is rethrown and
   * shown as the error text.
   */
  lemma FetchWithRetryContract(prior: Display, outcomes: seq<FetchRetry.Attempt>)
    ensures var run := FetchRetry.Retry(outcomes, MaxRetries + 1, FetchBackoff);
      && 1 <= run.fetches <= 3
      && run.delays == seq(run.fetches - 1, i => 1000 * (i + 1))
      && !run.result.Undefined?
      && (run.result.Rejected? ==> run.fetches == 3 && run.result == FetchRetry.Classify(FetchRetry.AttemptAt(outcomes, 2))
                                   && DisplayAfter(prior, run).details == prior.details
                                   && DisplayAfter(prior, run).plot == FetchFailedPlot)
      && (run.result.Resolved? ==> DisplayAfter(prior, run) == DisplayFor(run.result.item))
      && (FetchRetry.AttemptAt(outcomes, 0).Response? && !FetchRetry.IsOk(FetchRetry.AttemptAt(outcomes, 0).status)
          ==> run.fetches > 1)
  {
    FetchRetry.RetryContract(outcomes, MaxRetries + 1, FetchBackoff);
  }

  /** `fetchWithRetry(url, options)` with its default retry count. */
  method FetchWithRetry(outcomes: seq<FetchRetry.Attempt>) returns (run: FetchRetry.Run)
    ensures run == FetchRetry.Retry(outcomes, MaxRetries + 1, FetchBackoff)
  {
    run := FetchRetry.RetryLoop(outcomes, MaxRetries + 1, FetchBackoff);
  }

  // ---------------------------------------------------------------------
  // The controller's state and its transitions

  /** A request in flight: the item it asks for and the `X-Emby-Token` it carries. */
  datatype Request = Request(itemId: ItemId, token: Option<string>)

  /** The page as an event handler finds it. */
  datatype Page = Page(
    video: Option<Video>,             // querySelector(".videoPlayerContainer video")
    paused: bool,                     // of that video
    ended: bool,
    itemIds: seq<Option<string>>)     // the `data-id` found through each item-id selector, in order

  /** The overlay element and its fade guard. */
  datatype Overlay = Overlay(
    created: bool,                    // `overlay` is non-null
    visible: bool,                    // `overlayVisible`
    pending: bool,                    // `pendingTransition`
    showSettles: nat,                 // scheduled 300 ms callbacks of `showOverlay`
    hideSettles: nat,                 // scheduled 300 ms callbacks of `hideOverlay`
    timer: Option<int>)               // due time of `overlayTimer`

  /** What `attachVideoListeners` installs. */
  datatype Listeners = Listeners(
    cleanup: bool,                    // `cleanupListeners` is set
    containerCheck: bool,             // `containerCheckInterval` is set
    video: Option<Video>,             // the video whose pause/play/enter/leave handlers are registered
    move: bool,                       // the debounced mouse-move handler is registered
    debounce: Option<int>)            // due time of the pending 150 ms debounce callback

  const Detached: Listeners := Listeners(false, false, None, false, None)

  /** The playback being followed. */
  datatype Session = Session(
    currentVideo: Option<Video>,
    currentItemId: Option<ItemId>,
    lastMouseMovement: int,
    mouseOverVideo: bool,
    display: Display,
    scrapesPending: nat,              // item-id scrape loops waiting between attempts
    inflight: multiset<Request>)

  datatype Recovery = Recovery(
    attempts: nat,                    // `recoveryAttempts`
    last: int,                        // `lastRecoveryTime`
    timers: multiset<int>)            // due times of scheduled `retryInit` calls

  datatype State = State(
    session: Session,
    overlay: Overlay,
    listeners: Listeners,
    recovery: Recovery,
    userId: Option<string>,
    token: Option<string>,
    observing: bool,                  // `observer` is non-null
    faulted: bool)                    // an exception escaped into `clearState`'s recursive catch path

  /** The relations between listener fields that every transition keeps while the controller has not faulted. */
  predicate Wellformed(s: State) {
    && s.recovery.attempts <= MaxRecoveryAttempts
    && (!s.faulted ==>
          && (s.listeners.cleanup <==> s.listeners.video.Some?)
          && (s.listeners.containerCheck <==> s.listeners.video.Some?)
          && s.listeners.video == s.session.currentVideo
          && (s.listeners.move ==> s.listeners.video.Some?)
          && (s.listeners.debounce.Some? ==> s.listeners.video.Some?))
  }

  /** `hideOverlay`: the timer is always cleared; the overlay fades out only when visible and not mid-transition. */
  function Hide(o: Overlay): Overlay {
    var t := o.(timer := None);
    if o.visible && !o.pending then
      // without an overlay element the fade throws before its callback is scheduled
      t.(pending := true, visible := false, hideSettles := o.hideSettles + if o.created then 1 else 0)
    else t
  }

  /** `showOverlay`: nothing while a transition is pending. */
  function Show(o: Overlay): Overlay {
    if o.pending then o
    else o.(visible := true, pending := true, showSettles := o.showSettles + if o.created then 1 else 0)
  }

  /** The resets at the end of `clearState`'s `try` block. */
  function Reset(s: State, now: int): State {
    s.(listeners := s.listeners.(containerCheck := false),
       overlay := s.overlay.(visible := false, pending := false),
       session := s.session.(mouseOverVideo := true, lastMouseMovement := now, currentItemId := None, currentVideo := None))
  }

  /**
   * `clearState` as written: calling the listener cleanup throws inside
   * `removeMouseMoveListener` (it reads the undeclared `mouseMoveTimeout`)
   * after the video's handlers and the mouse-move handler are gone. Since
   * `cleanupListeners` stays set, the catch path `destroy` -> `clearState`
   * throws again at each depth until the stack overflows; the program does
   * not freeze, as the catches absorb that error and each unwound `destroy`
   * clears the observer, overlay and timers. The model stops following the
   * program here: it sets `faulted`, and later events leave the state as is.
   */
  function Cleared(s: State, now: int): State {
    var h := s.(overlay := Hide(s.overlay), session := s.session.(display := EmptyDisplay));
    if h.listeners.cleanup then h.(listeners := h.listeners.(video := None, move := false), faulted := true)
    else Reset(h, now)
  }

  /** `clearState` once `removeMouseMoveListener` clears the debounce timer it names. */
  function ClearedFixed(s: State, now: int): State {
    var h := s.(overlay := Hide(s.overlay), session := s.session.(display := EmptyDisplay));
    Reset(h.(listeners := Detached), now)
  }

  /** The synchronous part of `fetchItemInfo`: the display is cleared and the request goes out with the stored token. */
  function FetchStarted(s: State, id: ItemId): State {
    s.(session := s.session.(display := EmptyDisplay, inflight := s.session.inflight + multiset{Request(id, s.token)}))
  }

  /**
   * `handleVideoChange` up to its first `await`: clear, attach the video's
   * handlers (and the move handler when it is paused), and scrape once; an
   * id found at once is fetched, otherwise the loop waits.
   */
  function VideoChanged(s: State, video: Video, now: int, page: Page): State {
    var c := Cleared(s, now);
    if c.faulted then c
    else
      var a := c.(session := c.session.(currentVideo := Some(video)),
                  listeners := Listeners(true, true, Some(video), page.paused, None));
      var id := FirstTruthy(page.itemIds);
      if id.Some? then FetchStarted(a.(session := a.session.(currentItemId := id)), id.value)
      else a.(session := a.session.(scrapesPending := a.session.scrapesPending + 1))
  }

  /** `checkForVideoChanges`: a new video is taken over, a vanished one is cleared, anything else is ignored. */
  function Checked(s: State, now: int, page: Page): State {
    if page.video.Some? && page.video != s.session.currentVideo then VideoChanged(s, page.video.value, now, page)
    else if page.video.None? && s.session.currentVideo.Some? then Cleared(s, now)
    else s
  }

  /** `init` given what it reads as credentials (`UnawaitedCredentials` in the code as written). */
  function InitWith(s: State, now: int, creds: Option<Credentials>, page: Page): State {
    if creds.None? then s.(recovery := s.recovery.(timers := s.recovery.timers + multiset{now + NoCredentialsRetry}))
    else
      var t := s.(userId := creds.value.userId, token := creds.value.token,
                  overlay := s.overlay.(created := true), observing := true);
      var c := Checked(t, now, page);
      if c.faulted then c else c.(recovery := c.recovery.(attempts := 0, last := 0))
  }

  /** `retryInit` followed by `init` given what it reads as credentials. */
  function RetriedWith(s: State, now: int, creds: Option<Credentials>, page: Page): State {
    match RecoveryDecision(s.recovery.attempts, s.recovery.last, now)
    case GiveUp => s
    case TooSoon(wait) => s.(recovery := s.recovery.(timers := s.recovery.timers + multiset{now + wait}))
    case Attempt => InitWith(Attempted(s, now), now, creds, page)
  }

  /** `retryInit` counts the attempt and records its time before calling `init`. */
  function Attempted(s: State, now: int): State {
    s.(recovery := s.recovery.(attempts := s.recovery.attempts + 1, last := now))
  }

  /** `destroy`: clear, then drop the observer, the container check, the overlay and the inactivity timer. */
  function Destroyed(s: State, now: int): State {
    var c := Cleared(s, now);
    if c.faulted then c
    else c.(observing := false, listeners := c.listeners.(containerCheck := false),
            overlay := c.overlay.(created := false, timer := None))
  }

  /** `handlePause` of the listened video. */
  function Paused(s: State, video: Video, now: int, page: Page): State {
    if Some(video) != s.session.currentVideo || page.ended then s
    else
      var a := s.(listeners := s.listeners.(move := true));
      var id := FirstTruthy(page.itemIds);
      var b := if id.Some? && id != a.session.currentItemId
        then FetchStarted(a.(session := a.session.(currentItemId := id)), id.value) else a;
      b.(overlay := b.overlay.(timer := Some(now + OverlayDelay)))
  }

  /** `handlePlay` as written: the move handler is removed, then the undeclared `mouseMoveTimeout` ends the handler. */
  function Played(s: State, video: Video): State {
    if Some(video) == s.session.currentVideo then s.(listeners := s.listeners.(move := false)) else s
  }

  /** `handlePlay` once `removeMouseMoveListener` clears the debounce timer: the overlay hides and its timer is cleared. */
  function PlayedFixed(s: State, video: Video): State {
    if Some(video) == s.session.currentVideo
    then s.(listeners := s.listeners.(move := false, debounce := None), overlay := Hide(s.overlay))
    else s
  }

  /** The 150 ms debounce callback of `handleMouseMove`; `paused` is the listened video's. */
  function MoveSettled(s: State, now: int, paused: bool): State {
    var o := if s.overlay.visible then Hide(s.overlay) else s.overlay;
    var rearm := paused && s.listeners.video.Some? && s.listeners.video == s.session.currentVideo;
    s.(listeners := s.listeners.(debounce := None),
       session := s.session.(lastMouseMovement := now),
       overlay := if rearm then o.(timer := Some(now + OverlayDelay)) else o)
  }

  /** The callback of `startOverlayTimer`; `paused` is the current video's. */
  function OverlayTimerFired(s: State, now: int, paused: bool): State {
    var o := s.overlay.(timer := None);
    var show := s.session.currentVideo.Some? && paused && now - s.session.lastMouseMovement >= OverlayDelay;
    s.(overlay := if show then Show(o) else o)
  }

  /** The rest of `handleVideoChange`'s scrape loop, from its second attempt on. */
  function ScrapeSettled(s: State, pages: seq<seq<Option<string>>>): State
    requires s.session.scrapesPending > 0
  {
    var run := ScrapeFrom(pages, 1);
    var a := s.(session := s.session.(scrapesPending := s.session.scrapesPending - 1));
    if run.itemId.Some? then FetchStarted(a.(session := a.session.(currentItemId := run.itemId)), run.itemId.value) else a
  }

  // ---------------------------------------------------------------------
  // Properties of the transitions

  /** Each transition keeps the listener relations and the recovery bound. */
  lemma ClearWellformed(s: State, now: int)
    requires Wellformed(s)
    ensures Wellformed(Cleared(s, now)) && Wellformed(ClearedFixed(s, now)) && Wellformed(Destroyed(s, now))
  {
  }

  lemma VideoChangeWellformed(s: State, video: Video, now: int, page: Page)
    requires Wellformed(s)
    ensures Wellformed(VideoChanged(s, video, now, page))
  {
  }

  lemma CheckWellformed(s: State, now: int, page: Page)
    requires Wellformed(s)
    ensures Wellformed(Checked(s, now, page))
  {
  }

  lemma InitWellformed(s: State, now: int, creds: Option<Credentials>, page: Page)
    requires Wellformed(s)
    ensures Wellformed(InitWith(s, now, creds, page))
    ensures Wellformed(RetriedWith(s, now, creds, page))
  {
    InitWithWellformed(s, now, creds, page);
    RetriedWellformed(s, now, creds, page);
  }

  lemma RetriedWellformed(s: State, now: int, creds: Option<Credentials>, page: Page)
    requires Wellformed(s)
    ensures Wellformed(RetriedWith(s, now, creds, page))
  {
    var d := RecoveryDecision(s.recovery.attempts, s.recovery.last, now);
    match d
    case GiveUp =>
    case TooSoon(wait) =>
      assert RetriedWith(s, now, creds, page) == s.(recovery := s.recovery.(timers := s.recovery.timers + multiset{now + wait}));
    case Attempt =>
      InitWithWellformed(Attempted(s, now), now, creds, page);
  }

  lemma InitWithWellformed(s: State, now: int, creds: Option<Credentials>, page: Page)
    requires Wellformed(s)
    ensures Wellformed(InitWith(s, now, creds, page))
  {
    if creds.Some? {
      var t := s.(userId := creds.value.userId, token := creds.value.token,
                  overlay := s.overlay.(created := true), observing := true);
      assert Wellformed(t);
      CheckWellformed(t, now, page);
    }
  }

  lemma EventWellformed(s: State, now: int, page: Page, video: Video, paused: bool)
    requires Wellformed(s)
    ensures s.listeners.video == Some(video) ==> Wellformed(Paused(s, video, now, page))
    ensures Wellformed(Played(s, video)) && Wellformed(PlayedFixed(s, video))
    ensures Wellformed(MoveSettled(s, now, paused)) && Wellformed(OverlayTimerFired(s, now, paused))
  {
  }

  /** `showOverlay` and `hideOverlay` are guarded by the pending transition: a hide requested mid-fade is dropped. */
  lemma TransitionGuard(o: Overlay)
    ensures Hide(o).timer.None?
    ensures Hide(o).visible <==> o.visible && o.pending
    ensures Show(o).visible <==> o.visible || !o.pending
    ensures Show(o).pending && Hide(o).pending == (o.pending || o.visible)
    ensures o.pending ==> Show(o) == o && Hide(o) == o.(timer := None)
  {
  }

  /**
   * The inactivity timer shows the overlay exactly when a video is current
   * and paused, the mouse has been still for 10 s, and no transition is
   * pending; the timer is spent either way.
   */
  lemma OverlayTimerShows(s: State, now: int, paused: bool)
    ensures var t := OverlayTimerFired(s, now, paused);
      && t.overlay.timer.None?
      && ((!s.overlay.visible && t.overlay.visible) <==>
            (!s.overlay.visible && !s.overlay.pending && s.session.currentVideo.Some? && paused
             && now - s.session.lastMouseMovement >= OverlayDelay))
  {
  }

  /**
   * A settled mouse movement hides the overlay unless a transition blocks
   * it, and no inactivity timer in the following 10 s can show it again.
   */
  lemma MoveDefersOverlay(s: State, now: int, paused: bool, later: int, stillPaused: bool)
    requires later - now < OverlayDelay
    ensures var m := MoveSettled(s, now, paused);
      && (m.overlay.visible ==> s.overlay.visible && s.overlay.pending)
      && OverlayTimerFired(m, later, stillPaused).overlay.visible == m.overlay.visible
  {
  }

  /**
   * A pause of the current, unfinished video arms the 10 s timer, registers
   * the move handler, and fetches a newly scraped id; any other pause
   * changes nothing.
   */
  lemma PauseArmsTimer(s: State, video: Video, now: int, page: Page)
    ensures var t := Paused(s, video, now, page);
      var id := FirstTruthy(page.itemIds);
      && (Some(video) != s.session.currentVideo || page.ended ==> t == s)
      && (Some(video) == s.session.currentVideo && !page.ended ==>
            && t.overlay == s.overlay.(timer := Some(now + OverlayDelay))
            && t.listeners == s.listeners.(move := true)
            && (id.Some? && id != s.session.currentItemId ==>
                  && t.session.currentItemId == id
                  && t.session.display == EmptyDisplay
                  && t.session.inflight == s.session.inflight + multiset{Request(id.value, s.token)})
            && (id.None? || id == s.session.currentItemId ==> t.session == s.session))
  {
  }

  /**
   * `checkForVideoChanges` follows the page: unless the clear on the way
   * faults, the current video afterwards is the page's video, and a newly
   * found video has its handlers attached and its first scraped id fetched.
   * The clear faults exactly when the video changes while listeners are
   * attached.
   */
  lemma CheckTracksPage(s: State, now: int, page: Page)
    requires !s.faulted
    ensures var t := Checked(s, now, page);
      && (page.video == s.session.currentVideo ==> t == s)
      && (t.faulted <==> page.video != s.session.currentVideo && s.listeners.cleanup)
      && (!t.faulted ==> t.session.currentVideo == page.video)
      && (!t.faulted && page.video.Some? && page.video != s.session.currentVideo ==>
            && t.listeners == Listeners(true, true, page.video, page.paused, None)
            && t.session.currentItemId == FirstTruthy(page.itemIds)
            && t.session.display == EmptyDisplay)
  {
  }

  /** `clearState` as written faults whenever listeners are attached, and otherwise resets the session. */
  lemma ClearStateFaults(s: State, now: int)
    ensures var t := Cleared(s, now);
      && (t.faulted <==> s.faulted || s.listeners.cleanup)
      && t.session.display == EmptyDisplay && t.overlay.timer.None?
      && (!s.listeners.cleanup ==>
            && t.session.currentVideo.None? && t.session.currentItemId.None?
            && !t.overlay.visible && !t.overlay.pending
            && !t.listeners.containerCheck && t.session.lastMouseMovement == now)
  {
  }

  /** The corrected `clearState` always completes: nothing stays attached and the session is reset. */
  lemma ClearStateFixedResets(s: State, now: int)
    ensures var t := ClearedFixed(s, now);
      && t.faulted == s.faulted
      && t.listeners == Detached
      && t.session.currentVideo.None? && t.session.currentItemId.None?
      && t.session.display == EmptyDisplay && t.session.lastMouseMovement == now
      && t.overlay == Hide(s.overlay).(visible := false, pending := false)
  {
  }

  /** As written, a play event leaves the overlay, its timer and any pending move debounce untouched. */
  lemma PlayKeepsOverlay(s: State, video: Video)
    ensures Played(s, video).overlay == s.overlay
    ensures Played(s, video).listeners.debounce == s.listeners.debounce
  {
  }

  /** Corrected, a play event of the current video disarms every timer and hides a settled overlay. */
  lemma PlayFixedHides(s: State, video: Video)
    requires Some(video) == s.session.currentVideo
    ensures var t := PlayedFixed(s, video);
      && t.overlay.timer.None? && t.listeners.debounce.None? && !t.listeners.move
      && (s.overlay.visible && !s.overlay.pending ==> !t.overlay.visible)
  {
  }

  /**
   * Without `await`, `init` never takes the no-credentials branch: it drops
   * the token and user id, schedules no retry, and every request it starts
   * carries no token.
   */
  lemma UnawaitedInitSendsNoToken(s: State, now: int, page: Page)
    ensures var t := InitWith(s, now, UnawaitedCredentials, page);
      && t.token.None? && t.userId.None?
      && t.recovery.timers == s.recovery.timers
      && t.observing && t.overlay.created
      && (t.session.inflight == s.session.inflight
          || t.session.inflight == s.session.inflight + multiset{Request(FirstTruthy(page.itemIds).GetOr(""), None)})
  {
  }

  /**
   * With the credentials awaited, a store that yields none schedules a retry
   * of `init` in 5 s and changes nothing else; stored credentials are kept
   * and carried by every request `init` starts.
   */
  lemma AwaitedInitUsesCredentials(s: State, now: int, creds: Option<Credentials>, page: Page)
    ensures var t := InitWith(s, now, creds, page);
      && (creds.None? ==> t == s.(recovery := s.recovery.(timers := s.recovery.timers + multiset{now + NoCredentialsRetry})))
      && (creds.Some? ==>
            && t.token == creds.value.token && t.userId == creds.value.userId
            && (t.session.inflight == s.session.inflight
                || t.session.inflight == s.session.inflight + multiset{Request(FirstTruthy(page.itemIds).GetOr(""), creds.value.token)}))
  {
  }

  /**
   * `retryInit`: no call once three attempts are spent; an early call only
   * re-schedules itself for the end of the backoff; an attempt counts itself
   * and is forgotten again as soon as `init` gets credentials.
   */
  lemma RetryInitFacts(s: State, now: int, creds: Option<Credentials>, page: Page)
    ensures var t := RetriedWith(s, now, creds, page);
      var backoff := RecoveryBackoff * Pow2(s.recovery.attempts);
      && (s.recovery.attempts >= MaxRecoveryAttempts ==> t == s)
      && (s.recovery.attempts < MaxRecoveryAttempts && now - s.recovery.last < backoff ==>
            t == s.(recovery := s.recovery.(timers := s.recovery.timers + multiset{s.recovery.last + backoff})))
      && (s.recovery.attempts < MaxRecoveryAttempts && now - s.recovery.last >= backoff ==>
            && (creds.None? ==>
                  t.recovery == Recovery(s.recovery.attempts + 1, now, s.recovery.timers + multiset{now + NoCredentialsRetry}))
            && (creds.Some? && !t.faulted ==> t.recovery.attempts == 0 && t.recovery.last == 0))
  {
  }

  /**
   * With the credentials awaited and the store empty, attempt k + 1 follows
   * attempt k after the 5 s retry, which always covers the backoff, and
   * the third attempt is the last.
   */
  lemma EmptyStoreRecovery(s: State, now: int, page: Page)
    requires s.recovery.attempts < MaxRecoveryAttempts
    requires now - s.recovery.last >= RecoveryBackoff * Pow2(s.recovery.attempts)
    ensures var t := RetriedWith(s, now, None, page);
      && t.recovery.attempts == s.recovery.attempts + 1
      && now + NoCredentialsRetry in t.recovery.timers
      && RecoveryDecision(t.recovery.attempts, t.recovery.last, now + NoCredentialsRetry)
         == if t.recovery.attempts < MaxRecoveryAttempts then Attempt else GiveUp
  {
    var k := s.recovery.attempts;
    assert Pow2(1) == 2 && Pow2(2) == 4;
    assert k + 1 < MaxRecoveryAttempts ==> RecoveryBackoff * Pow2(k + 1) <= NoCredentialsRetry;
  }

  // ---------------------------------------------------------------------
  // The controller object

  /** The state right after the constructor's field initialisers, before `init` runs. */
  function Fresh(now: int): State {
    State(Session(None, None, now, false, EmptyDisplay, 0, multiset{}),
          Overlay(false, false, false, 0, 0, None),
          Detached, Recovery(0, 0, multiset{}), None, None, false, false)
  }

  /**
   * The object, with its fields grouped as in `State`: `session` holds the
   * followed playback, `overlay` the overlay element and its fade guard,
   * `listeners` what `attachVideoListeners` installed, `recovery` the
   * `retryInit` bookkeeping.
   */
  class JellyfinPauseScreen {
    var session: Session
    var overlay: Overlay
    var listeners: Listeners
    var recovery: Recovery
    var userId: Option<string>
    var token: Option<string>
    var observing: bool
    var faulted: bool

    function Snapshot(): State
      reads this
    {
      State(session, overlay, listeners, recovery, userId, token, observing, faulted)
    }

    predicate Valid()
      reads this
    {
      Wellformed(Snapshot())
    }

    /** The constructor, which ends by calling `init`. */
    constructor (now: int, page: Page)
      ensures Valid()
      ensures Snapshot() == InitWith(Fresh(now), now, UnawaitedCredentials, page)
    {
      var s := Fresh(now);
      session, overlay, listeners, recovery := s.session, s.overlay, s.listeners, s.recovery;
      userId, token, observing, faulted := None, None, false, false;
      new;
      InitWellformed(s, now, UnawaitedCredentials, page);
      Init(now, page);
    }

    method HideOverlay()
      modifies this`overlay
      ensures overlay == Hide(old(overlay))
    {
      var o := overlay.(timer := None);
      if o.visible && !o.pending {
        o := o.(pending := true, visible := false, hideSettles := o.hideSettles + if o.created then 1 else 0);
      }
      overlay := o;
    }

    method ShowOverlay()
      modifies this`overlay
      ensures overlay == Show(old(overlay))
    {
      if !overlay.pending {
        overlay := overlay.(visible := true, pending := true,
                            showSettles := overlay.showSettles + if overlay.created then 1 else 0);
      }
    }

    method StartOverlayTimer(now: int)
      modifies this`overlay
      ensures overlay == old(overlay).(timer := Some(now + OverlayDelay))
    {
      overlay := overlay.(timer := Some(now + OverlayDelay));
    }

    /** The synchronous part of `fetchItemInfo`. */
    method FetchItemInfo(id: ItemId)
      modifies this`session
      ensures Snapshot() == FetchStarted(old(Snapshot()), id)
    {
      session := session.(display := EmptyDisplay, inflight := session.inflight + multiset{Request(id, token)});
    }

    /** `clearState` as written. */
    method ClearState(now: int)
      modifies this
      ensures Snapshot() == Cleared(old(Snapshot()), now)
    {
      HideOverlay();
      session := session.(display := EmptyDisplay);
      if listeners.cleanup {
        // the cleanup closure removes the video's handlers and the move
        // handler, then throws on the undeclared `mouseMoveTimeout`
        listeners := listeners.(video := None, move := false);
        faulted := true;
        return;
      }
      listeners := listeners.(containerCheck := false);
      overlay := overlay.(visible := false, pending := false);
      session := session.(mouseOverVideo := true, lastMouseMovement := now, currentItemId := None, currentVideo := None);
    }

    /** `clearState` with the cleanup of the debounce timer that `removeMouseMoveListener` evidently intends. */
    method ClearStateFixed(now: int)
      modifies this
      ensures Snapshot() == ClearedFixed(old(Snapshot()), now)
    {
      HideOverlay();
      session := session.(display := EmptyDisplay);
      listeners := Detached;
      overlay := overlay.(visible := false, pending := false);
      session := session.(mouseOverVideo := true, lastMouseMovement := now, currentItemId := None, currentVideo := None);
    }

    /** `handleVideoChange` up to its first `await`. */
    method HandleVideoChange(video: Video, now: int, page: Page)
      modifies this
      ensures Snapshot() == VideoChanged(old(Snapshot()), video, now, page)
    {
      ClearState(now);
      if faulted {
        return;
      }
      session := session.(currentVideo := Some(video));
      listeners := Listeners(true, true, Some(video), page.paused, None);
      var id := FirstPresent(page.itemIds);
      if id.Some? {
        session := session.(currentItemId := id);
        FetchItemInfo(id.value);
      } else {
        session := session.(scrapesPending := session.scrapesPending + 1);
      }
    }

    method CheckForVideoChanges(now: int, page: Page)
      modifies this
      ensures Snapshot() == Checked(old(Snapshot()), now, page)
    {
      if page.video.Some? && page.video != session.currentVideo {
        HandleVideoChange(page.video.value, now, page);
      } else if page.video.None? && session.currentVideo.Some? {
        ClearState(now);
      }
    }

    /** `init` given what it reads as credentials. */
    method InitWithCredentials(now: int, creds: Option<Credentials>, page: Page)
      modifies this
      ensures Snapshot() == InitWith(old(Snapshot()), now, creds, page)
    {
      if creds.None? {
        recovery := recovery.(timers := recovery.timers + multiset{now + NoCredentialsRetry});
        return;
      }
      userId, token := creds.value.userId, creds.value.token;
      overlay, observing := overlay.(created := true), true;
      CheckForVideoChanges(now, page);
      if !faulted {
        recovery := recovery.(attempts := 0, last := 0);
      }
    }

    /** `init` as written: the credentials are not awaited. */
    method Init(now: int, page: Page)
      modifies this
      ensures Snapshot() == InitWith(old(Snapshot()), now, UnawaitedCredentials, page)
    {
      InitWithCredentials(now, UnawaitedCredentials, page);
    }

    /** `init` with `getCredentials()` awaited; the wait for the store is folded into this step. */
    method InitAwaited(now: int, stores: seq<StoredCredentials>, page: Page)
      modifies this
      ensures Snapshot() == InitWith(old(Snapshot()), now, CredentialsFrom(stores, 0).result, page)
    {
      var run := GetCredentials(stores);
      InitWithCredentials(now, run.result, page);
    }

    method RetryInitWithCredentials(now: int, creds: Option<Credentials>, page: Page)
      modifies this
      ensures Snapshot() == RetriedWith(old(Snapshot()), now, creds, page)
    {
      var step := RecoveryDecision(recovery.attempts, recovery.last, now);
      match step
      case GiveUp =>
      case TooSoon(wait) =>
        recovery := recovery.(timers := recovery.timers + multiset{now + wait});
      case Attempt =>
        recovery := recovery.(attempts := recovery.attempts + 1, last := now);
        InitWithCredentials(now, creds, page);
    }

    /** `retryInit` as written, calling the un-awaited `init`. */
    method RetryInit(now: int, page: Page)
      modifies this
      ensures Snapshot() == RetriedWith(old(Snapshot()), now, UnawaitedCredentials, page)
    {
      RetryInitWithCredentials(now, UnawaitedCredentials, page);
    }

    /** `retryInit` calling the corrected `init`. */
    method RetryInitAwaited(now: int, stores: seq<StoredCredentials>, page: Page)
      modifies this
      ensures Snapshot() == RetriedWith(old(Snapshot()), now, CredentialsFrom(stores, 0).result, page)
    {
      var run := GetCredentials(stores);
      RetryInitWithCredentials(now, run.result, page);
    }

    method Destroy(now: int)
      modifies this
      ensures Snapshot() == Destroyed(old(Snapshot()), now)
    {
      ClearState(now);
      if faulted {
        return;
      }
      observing, listeners := false, listeners.(containerCheck := false);
      overlay := overlay.(created := false, timer := None);
    }

    // -------------------------------------------------------------------
    // Events. Once the controller has faulted, every event is ignored.

    /** The body `MutationObserver` fires. */
    method OnMutation(now: int, page: Page)
      requires Valid() && observing
      modifies this
      ensures Valid()
      ensures old(faulted) ==> Snapshot() == old(Snapshot())
      ensures !old(faulted) ==> Snapshot() == Checked(old(Snapshot()), now, page)
    {
      if faulted {
        return;
      }
      CheckWellformed(Snapshot(), now, page);
      CheckForVideoChanges(now, page);
    }

    /**
     * The 1 s container check; `containerPresent` says whether the container
     * found at attach time exists and is still in the document. A lost
     * container re-runs `handleVideoChange` on the current video, whose
     * clear faults because listeners are attached.
     */
    method OnContainerCheck(now: int, containerPresent: bool, page: Page)
      requires Valid() && listeners.containerCheck
      modifies this
      ensures Valid()
      ensures old(faulted) || containerPresent ==> Snapshot() == old(Snapshot())
      ensures !old(faulted) && !containerPresent ==>
        && old(session.currentVideo).Some?
        && Snapshot() == VideoChanged(old(Snapshot()), old(session.currentVideo).value, now, page)
        && faulted
    {
      if faulted || containerPresent {
        return;
      }
      VideoChangeWellformed(Snapshot(), session.currentVideo.value, now, page);
      HandleVideoChange(session.currentVideo.value, now, page);
    }

    /** `handlePause` of the listened video. */
    method OnPause(video: Video, now: int, page: Page)
      requires Valid() && listeners.video == Some(video)
      modifies this
      ensures Valid()
      ensures old(faulted) ==> Snapshot() == old(Snapshot())
      ensures !old(faulted) ==> Snapshot() == Paused(old(Snapshot()), video, now, page)
    {
      if faulted || Some(video) != session.currentVideo || page.ended {
        return;
      }
      listeners := listeners.(move := true);
      var id := FirstPresent(page.itemIds);
      if id.Some? && id != session.currentItemId {
        session := session.(currentItemId := id);
        FetchItemInfo(id.value);
      }
      StartOverlayTimer(now);
    }

    /** `handlePlay` as written: it stops at the `ReferenceError` in `removeMouseMoveListener`. */
    method OnPlay(video: Video)
      requires Valid() && listeners.video == Some(video)
      modifies this
      ensures Valid()
      ensures old(faulted) ==> Snapshot() == old(Snapshot())
      ensures !old(faulted) ==> Snapshot() == Played(old(Snapshot()), video)
    {
      if faulted {
        return;
      }
      if Some(video) == session.currentVideo {
        listeners := listeners.(move := false);
      }
    }

    /** `handlePlay` with `removeMouseMoveListener` clearing the debounce timer. */
    method OnPlayFixed(video: Video)
      requires Valid() && listeners.video == Some(video)
      modifies this
      ensures Valid()
      ensures old(faulted) ==> Snapshot() == old(Snapshot())
      ensures !old(faulted) ==> Snapshot() == PlayedFixed(old(Snapshot()), video)
    {
      if faulted {
        return;
      }
      if Some(video) == session.currentVideo {
        listeners := listeners.(move := false, debounce := None);
        HideOverlay();
      }
    }

    /** A `mousemove` reaches the debounced handler; the animation frame before the 150 ms timer is not modelled. */
    method OnMouseMove(now: int)
      requires Valid() && listeners.move
      modifies this
      ensures Valid()
      ensures old(faulted) ==> Snapshot() == old(Snapshot())
      ensures !old(faulted) ==> Snapshot() == old(Snapshot()).(listeners := old(listeners).(debounce := Some(now + MoveDebounce)))
    {
      if faulted {
        return;
      }
      listeners := listeners.(debounce := Some(now + MoveDebounce));
    }

    /** The 150 ms debounce timer fires; `paused` is the listened video's. */
    method OnMoveSettled(now: int, paused: bool)
      requires Valid() && listeners.debounce.Some? && now >= listeners.debounce.value
      modifies this
      ensures Valid()
      ensures old(faulted) ==> Snapshot() == old(Snapshot())
      ensures !old(faulted) ==> Snapshot() == MoveSettled(old(Snapshot()), now, paused)
    {
      if faulted {
        return;
      }
      var rearm := paused && listeners.video.Some? && listeners.video == session.currentVideo;
      listeners := listeners.(debounce := None);
      if overlay.visible {
        HideOverlay();
      }
      session := session.(lastMouseMovement := now);
      if rearm {
        StartOverlayTimer(now);
      }
    }

    /** `mouseenter` (`entered`) or `mouseleave` on the listened video. */
    method OnMouseOver(video: Video, entered: bool, now: int)
      requires Valid() && listeners.video == Some(video)
      modifies this
      ensures Valid()
      ensures old(faulted) ==> Snapshot() == old(Snapshot())
      ensures !old(faulted) ==>
        Snapshot() == old(Snapshot()).(session := old(session).(mouseOverVideo := entered),
                                       overlay := old(overlay).(timer := Some(now + OverlayDelay)))
    {
      if faulted {
        return;
      }
      session := session.(mouseOverVideo := entered);
      StartOverlayTimer(now);
    }

    /** The inactivity timer fires; `paused` is the current video's. */
    method OnOverlayTimer(now: int, paused: bool)
      requires Valid() && overlay.timer.Some? && now >= overlay.timer.value
      modifies this
      ensures Valid()
      ensures old(faulted) ==> Snapshot() == old(Snapshot())
      ensures !old(faulted) ==> Snapshot() == OverlayTimerFired(old(Snapshot()), now, paused)
    {
      if faulted {
        return;
      }
      overlay := overlay.(timer := None);
      if session.currentVideo.Some? && paused && now - session.lastMouseMovement >= OverlayDelay {
        ShowOverlay();
      }
    }

    /** The fade-in completes (animation frame, then 300 ms); without an overlay element it throws first. */
    method OnShowSettled()
      requires Valid() && overlay.showSettles > 0
      modifies this
      ensures Valid()
      ensures old(faulted) ==> Snapshot() == old(Snapshot())
      ensures !old(faulted) ==>
        Snapshot() == old(Snapshot()).(overlay := old(overlay).(showSettles := old(overlay).showSettles - 1,
                                                               pending := old(overlay).pending && !old(overlay).created))
    {
      if faulted {
        return;
      }
      overlay := overlay.(showSettles := overlay.showSettles - 1, pending := overlay.pending && !overlay.created);
    }

    /** The fade-out completes after 300 ms; the guard is released only if the overlay is still hidden. */
    method OnHideSettled()
      requires Valid() && overlay.hideSettles > 0
      modifies this
      ensures Valid()
      ensures old(faulted) ==> Snapshot() == old(Snapshot())
      ensures !old(faulted) ==>
        Snapshot() == old(Snapshot()).(overlay := old(overlay).(hideSettles := old(overlay).hideSettles - 1,
            pending := old(overlay).pending && (old(overlay).visible || !old(overlay).created)))
    {
      if faulted {
        return;
      }
      var release := !overlay.visible && overlay.created;
      overlay := overlay.(hideSettles := overlay.hideSettles - 1, pending := overlay.pending && !release);
    }

    /**
     * The scrape loop of a `handleVideoChange` resumes after its first wait
     * and runs to its end; `pages[k]` is what scrape k finds. Its id is taken
     * even if the video has changed meanwhile.
     */
    method OnScrapeSettled(pages: seq<seq<Option<string>>>)
      requires Valid() && session.scrapesPending > 0
      modifies this
      ensures Valid()
      ensures old(faulted) ==> Snapshot() == old(Snapshot())
      ensures !old(faulted) ==> Snapshot() == ScrapeSettled(old(Snapshot()), pages)
    {
      if faulted {
        return;
      }
      var run := ScrapeLoop(pages, 1);
      session := session.(scrapesPending := session.scrapesPending - 1);
      if run.itemId.Some? {
        session := session.(currentItemId := run.itemId);
        FetchItemInfo(run.itemId.value);
      }
    }

    /**
     * A `fetchItemInfo` settles; `outcomes[i]` is what attempt i gets. The
     * display is written whatever the current item is by then; a failure
     * writes only the plot over what other fetches have shown meanwhile.
     */
    method OnFetchSettled(request: Request, outcomes: seq<FetchRetry.Attempt>)
      requires Valid() && request in session.inflight
      modifies this
      ensures Valid()
      ensures old(faulted) ==> Snapshot() == old(Snapshot())
      ensures !old(faulted) ==>
        Snapshot() == old(Snapshot()).(session := old(session).(
          inflight := old(session).inflight - multiset{request},
          display := DisplayAfter(old(session).display, FetchRetry.Retry(outcomes, MaxRetries + 1, FetchBackoff))))
    {
      if faulted {
        return;
      }
      var run := FetchWithRetry(outcomes);
      session := session.(inflight := session.inflight - multiset{request}, display := DisplayAfter(session.display, run));
    }

    /** A scheduled `retryInit` fires, in the code as written. */
    method OnRecoveryTimer(due: int, now: int, page: Page)
      requires Valid() && due in recovery.timers && now >= due
      modifies this
      ensures Valid()
      ensures old(faulted) ==> Snapshot() == old(Snapshot())
      ensures !old(faulted) ==>
        Snapshot() == RetriedWith(old(Snapshot()).(recovery := old(recovery).(timers := old(recovery).timers - multiset{due})),
                                  now, UnawaitedCredentials, page)
    {
      if faulted {
        return;
      }
      recovery := recovery.(timers := recovery.timers - multiset{due});
      InitWellformed(Snapshot(), now, UnawaitedCredentials, page);
      RetryInit(now, page);
    }

    /** A scheduled `retryInit` fires, with the corrected `init`. */
    method OnRecoveryTimerAwaited(due: int, now: int, stores: seq<StoredCredentials>, page: Page)
      requires Valid() && due in recovery.timers && now >= due
      modifies this
      ensures Valid()
      ensures old(faulted) ==> Snapshot() == old(Snapshot())
      ensures !old(faulted) ==>
        Snapshot() == RetriedWith(old(Snapshot()).(recovery := old(recovery).(timers := old(recovery).timers - multiset{due})),
                                  now, CredentialsFrom(stores, 0).result, page)
    {
      if faulted {
        return;
      }
      recovery := recovery.(timers := recovery.timers - multiset{due});
      InitWellformed(Snapshot(), now, CredentialsFrom(stores, 0).result, page);
      RetryInitAwaited(now, stores, page);
    }

    /**
     * Input on the overlay itself: Escape, a click or a touch (`dismiss`)
     * hides it and asks a paused current video to play; a mouse move only
     * hides it.
     */
    method OnOverlayInput(dismiss: bool, paused: bool) returns (play: bool)
      requires Valid() && overlay.created
      modifies this
      ensures Valid()
      ensures old(faulted) ==> Snapshot() == old(Snapshot()) && !play
      ensures !old(faulted) ==> Snapshot() == old(Snapshot()).(overlay := Hide(old(overlay)))
      ensures play <==> !old(faulted) && dismiss && session.currentVideo.Some? && paused
    {
      play := false;
      if faulted {
        return;
      }
      HideOverlay();
      play := dismiss && session.currentVideo.Some? && paused;
    }
  }
}
