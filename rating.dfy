/**
 * The rating-attribute script: `normalizeRating` turns the text of an
 * official-rating badge into a canonical token (white space collapsed,
 * trimmed, upper-cased, a few aliases mapped, everything outside A-Z, 0-9 and
 * '-' dropped), and `processRatingElements` writes that token into each
 * badge's `rating` attribute. Timers and the observer are module-level
 * variables, modelled as the fields of `RatingScript`.
 */
module Rating {
  import opened Options
  import opened JsString
  import opened Jellyfin

  /**
   * `s.replace(/\s+/g, ' ')`: every maximal run of white space becomes one
   * space. `inRun` says whether the text before `s` ended inside a run that
   * has already been written out as its space.
   */
  function CollapseFrom(s: string, inRun: bool): string {
    if s == [] then []
    else if IsWs(s[0]) then (if inRun then [] else [' ']) + CollapseFrom(s[1..], true)
    else [s[0]] + CollapseFrom(s[1..], false)
  }

  function Collapse(s: string): string {
    CollapseFrom(s, false)
  }

  /** The form the alias table is looked up with: collapsed, trimmed, upper-cased. */
  function Canonical(s: string): string {
    Upper(Trim(Collapse(s)))
  }

  /** The `ratingMappings` table. */
  function Alias(n: string): (r: Option<string>)
    ensures r.Some? ==> forall i :: 0 <= i < |r.value| ==> IsRatingChar(r.value[i])
  {
    if n == "NOT RATED" || n == "NOT-RATED" || n == "UNRATED" || n == "NO RATING" then Some("NR")
    else if n == "APPROVED" then Some("APPROVED")
    else if n == "PASSED" then Some("PASSED")
    else None
  }

  predicate IsRatingChar(c: char) {
    ('A' <= c <= 'Z') || ('0' <= c <= '9') || c == '-'
  }

  /** `s.replace(/[^A-Z0-9-]/g, '')`. */
  function StripInvalid(s: string): (r: string)
    ensures |r| <= |s|
    ensures forall i :: 0 <= i < |r| ==> IsRatingChar(r[i])
    ensures (forall i :: 0 <= i < |s| ==> IsRatingChar(s[i])) ==> r == s
  {
    if s == [] then []
    else
      var rest := StripInvalid(s[1..]);
      assert forall i :: 1 <= i < |s| ==> s[i] == s[1..][i - 1];
      if IsRatingChar(s[0]) then [s[0]] + rest else rest
  }

  /** One character: a valid one is kept, any other is removed. */
  lemma StripInvalidChar(c: char)
    ensures StripInvalid([c]) == (if IsRatingChar(c) then [c] else [])
  {
  }

  /** Stripping works character by character: the kept characters stay in order. */
  lemma {:induction false} StripInvalidAppend(a: string, b: string)
    ensures StripInvalid(a + b) == StripInvalid(a) + StripInvalid(b)
    decreases |a|
  {
    if a == [] {
      assert a + b == b;
    } else {
      assert (a + b)[0] == a[0];
      assert (a + b)[1..] == a[1..] + b;
      StripInvalidAppend(a[1..], b);
    }
  }

  /** `normalizeRating`: "" for an absent or empty rating, else the alias or the stripped canonical form. */
  function NormalizeRating(rating: Option<string>): (r: string)
    ensures !Truthy(rating) ==> r == ""
    ensures forall i :: 0 <= i < |r| ==> IsRatingChar(r[i])
  {
    if !Truthy(rating) then ""
    else
      var n := Canonical(rating.value);
      match Alias(n)
      case Some(a) => a
      case None => StripInvalid(n)
  }

  // ---- Why the result depends only on the canonical form ----

  /** A non-empty run of white space contributes at most one space, whatever its length. */
  lemma {:induction false} CollapseWsRun(u: string, b: string, inRun: bool)
    requires u != [] && AllWs(u)
    ensures CollapseFrom(u + b, inRun) == (if inRun then [] else [' ']) + CollapseFrom(b, true)
    decreases |u|
  {
    assert IsWs(u[0]);
    assert (u + b)[0] == u[0] && (u + b)[1..] == u[1..] + b;
    if |u| > 1 {
      assert AllWs(u[1..]) by {
        forall i | 0 <= i < |u[1..]| ensures IsWs(u[1..][i]) {
          assert u[1..][i] == u[i + 1];
        }
      }
      CollapseWsRun(u[1..], b, true);
    } else {
      assert u[1..] + b == b;
    }
  }

  lemma {:induction false} CollapseRunFrom(a: string, u: string, v: string, b: string, inRun: bool)
    requires u != [] && AllWs(u) && v != [] && AllWs(v)
    ensures CollapseFrom(a + u + b, inRun) == CollapseFrom(a + v + b, inRun)
    decreases |a|
  {
    if a == [] {
      assert a + u + b == u + b && a + v + b == v + b;
      CollapseWsRun(u, b, inRun);
      CollapseWsRun(v, b, inRun);
    } else {
      assert (a + u + b)[0] == a[0] && (a + u + b)[1..] == a[1..] + u + b;
      assert (a + v + b)[0] == a[0] && (a + v + b)[1..] == a[1..] + v + b;
      CollapseRunFrom(a[1..], u, v, b, IsWs(a[0]));
    }
  }

  /** Which non-empty run of white space separates two pieces of text makes no difference to `Collapse`. */
  lemma CollapseRun(a: string, u: string, v: string, b: string)
    requires u != [] && AllWs(u) && v != [] && AllWs(v)
    ensures Collapse(a + u + b) == Collapse(a + v + b)
  {
    CollapseRunFrom(a, u, v, b, false);
  }

  lemma {:induction false} UpperTrimStart(s: string)
    ensures TrimStart(Upper(s)) == Upper(TrimStart(s))
  {
    if s != [] && IsWs(s[0]) {
      assert Upper(s)[1..] == Upper(s[1..]);
      UpperTrimStart(s[1..]);
    }
  }

  lemma {:induction false} UpperTrimEnd(s: string)
    ensures TrimEnd(Upper(s)) == Upper(TrimEnd(s))
  {
    if s != [] && IsWs(s[|s| - 1]) {
      assert Upper(s)[..|s| - 1] == Upper(s[..|s| - 1]);
      UpperTrimEnd(s[..|s| - 1]);
    }
  }

  lemma {:induction false} UpperCollapseFrom(s: string, inRun: bool)
    ensures CollapseFrom(Upper(s), inRun) == Upper(CollapseFrom(s, inRun))
    decreases |s|
  {
    if s != [] {
      assert Upper(s)[1..] == Upper(s[1..]);
      UpperCollapseFrom(s[1..], IsWs(s[0]));
      if IsWs(s[0]) {
        UpperAppend(if inRun then [] else [' '], CollapseFrom(s[1..], true));
      } else {
        UpperAppend([s[0]], CollapseFrom(s[1..], false));
      }
    }
  }

  lemma UpperIdempotent(s: string)
    ensures Upper(Upper(s)) == Upper(s)
  {
  }

  /** Upper-casing first does not change the canonical form. */
  lemma CanonicalOfUpper(s: string)
    ensures Canonical(Upper(s)) == Canonical(s)
  {
    UpperCollapseFrom(s, false);
    UpperTrimStart(Collapse(s));
    UpperTrimEnd(TrimStart(Collapse(s)));
    UpperIdempotent(Trim(Collapse(s)));
  }

  /** Inputs that agree once upper-cased normalise alike: case never matters. */
  lemma NormalizeIgnoresCase(a: string, b: string)
    requires Upper(a) == Upper(b)
    ensures NormalizeRating(Some(a)) == NormalizeRating(Some(b))
  {
    CanonicalOfUpper(a);
    CanonicalOfUpper(b);
    assert |a| == |b|;
  }

  /** Replacing one run of white space by another, of any length and kind, does not change the result. */
  lemma NormalizeIgnoresWhitespaceRuns(a: string, u: string, v: string, b: string)
    requires u != [] && AllWs(u) && v != [] && AllWs(v)
    ensures NormalizeRating(Some(a + u + b)) == NormalizeRating(Some(a + v + b))
  {
    CollapseRun(a, u, v, b);
  }

  /** The aliases: after canonicalisation "NOT RATED", "NOT-RATED", "UNRATED" and "NO RATING" become "NR". */
  lemma NotRatedAliases(s: string)
    requires Canonical(s) in {"NOT RATED", "NOT-RATED", "UNRATED", "NO RATING"}
    ensures NormalizeRating(Some(s)) == "NR"
  {
  }

  /** "APPROVED" and "PASSED" map to themselves. */
  lemma SelfAliases(s: string)
    requires Canonical(s) in {"APPROVED", "PASSED"}
    ensures NormalizeRating(Some(s)) == Canonical(s)
  {
  }
}

/**
 * The badge pass of the rating script (`processRatingElements`) and the
 * script's timers and observers.
 */
module RatingScript {
  import opened Options
  import opened JsString
  import opened Jellyfin
  import opened Rating

  /** One element matched by `.mediaInfoOfficialRating:not(.age-rating *)`; `id` is its identity. */
  datatype Badge = Badge(id: nat, text: string, rating: Option<string>, ariaLabel: Option<string>, title: Option<string>)

  /** `element.textContent?.trim()` is non-empty. */
  predicate HasText(e: Badge) {
    Trim(e.text) != []
  }

  /** The token a badge should carry: that of its trimmed text. */
  function TokenOf(e: Badge): string {
    NormalizeRating(Some(Trim(e.text)))
  }

  datatype Visit = Visit(badge: Badge, processed: set<nat>, wrote: bool)

  /** One iteration of the `forEach`: skip blank text, skip an element already carrying its token, else write. */
  function VisitBadge(e: Badge, processed: set<nat>): Visit {
    if !HasText(e) then Visit(e, processed, false)
    else
      var norm := TokenOf(e);
      if e.rating == Some(norm) && e.id in processed then Visit(e, processed, false)
      else
        Visit(e.(rating := Some(norm),
                 ariaLabel := if Truthy(e.ariaLabel) then e.ariaLabel else Some("Content rated " + norm),
                 title := if Truthy(e.title) then e.title else Some("Rating: " + norm)),
              processed + {e.id}, true)
  }

  datatype Pass = Pass(badges: seq<Badge>, processed: set<nat>, count: nat)

  /** The first `n` elements after the pass, the `processedElements` set and `processedCount`. */
  function PassUpTo(es: seq<Badge>, processed: set<nat>, n: nat): Pass
    requires n <= |es|
  {
    if n == 0 then Pass([], processed, 0)
    else
      var p := PassUpTo(es, processed, n - 1);
      var v := VisitBadge(es[n - 1], p.processed);
      Pass(p.badges + [v.badge], v.processed, p.count + if v.wrote then 1 else 0)
  }

  function RunPass(es: seq<Badge>, processed: set<nat>): Pass {
    PassUpTo(es, processed, |es|)
  }


  /** What the pass may do to one element. */
  predicate BadgeUpdated(before: Badge, after: Badge) {
    after.id == before.id && after.text == before.text
    && (!HasText(before) ==> after == before)
    && (HasText(before) ==> after.rating == Some(TokenOf(before)))
    && (after.ariaLabel == before.ariaLabel
        || (!Truthy(before.ariaLabel) && after.ariaLabel == Some("Content rated " + TokenOf(before))))
    && (after.title == before.title
        || (!Truthy(before.title) && after.title == Some("Rating: " + TokenOf(before))))
  }

  /**
   * When a visit writes: the element has text, unless it already carries its
   * token and is recorded in `seen`.
   */
  predicate Writes(e: Badge, seen: set<nat>) {
    HasText(e) && !(e.rating == Some(TokenOf(e)) && e.id in seen)
  }

  /** A written element: its token set, and `aria-label` and `title` filled in only when falsy. */
  predicate BadgeWritten(before: Badge, after: Badge) {
    var token := TokenOf(before);
    && after.id == before.id && after.text == before.text
    && after.rating == Some(token)
    && (Truthy(before.ariaLabel) ==> after.ariaLabel == before.ariaLabel)
    && (!Truthy(before.ariaLabel) ==> after.ariaLabel == Some("Content rated " + token))
    && (Truthy(before.title) ==> after.title == before.title)
    && (!Truthy(before.title) ==> after.title == Some("Rating: " + token))
  }

  /** What one visit does, given the elements `seen` as processed: write as above, or leave it as it was. */
  predicate VisitOutcome(before: Badge, after: Badge, seen: set<nat>) {
    if Writes(before, seen) then BadgeWritten(before, after) else after == before
  }

  /** One visit updates its element as `BadgeUpdated` allows; it writes exactly when `Writes` says so. */
  lemma VisitUpdates(e: Badge, processed: set<nat>)
    ensures BadgeUpdated(e, VisitBadge(e, processed).badge)
    ensures VisitBadge(e, processed).wrote <==> Writes(e, processed)
    ensures VisitOutcome(e, VisitBadge(e, processed).badge, processed)
  {
  }

  /** A visit records every element with text and forgets nothing; a visit that does not write changes nothing. */
  lemma VisitRecords(e: Badge, processed: set<nat>)
    ensures var v := VisitBadge(e, processed);
      processed <= v.processed
      && (HasText(e) ==> e.id in v.processed)
      && (!v.wrote ==> v.badge == e && v.processed == processed)
      && v.processed == (if HasText(e) then processed + {e.id} else processed)
  {
  }

  /** The processed set before element `k`: the initial one and every earlier element with text. */
  function SeenBefore(es: seq<Badge>, processed: set<nat>, k: nat): set<nat>
    requires k <= |es|
  {
    processed + set j | 0 <= j < k && HasText(es[j]) :: es[j].id
  }

  lemma SeenStep(es: seq<Badge>, processed: set<nat>, k: nat)
    requires k < |es|
    ensures SeenBefore(es, processed, k + 1)
         == SeenBefore(es, processed, k) + (if HasText(es[k]) then {es[k].id} else {})
  {
    var a := set j | 0 <= j < k + 1 && HasText(es[j]) :: es[j].id;
    var b := set j | 0 <= j < k && HasText(es[j]) :: es[j].id;
    assert a == b + (if HasText(es[k]) then {es[k].id} else {}) by {
      forall x | x in a ensures x in b + (if HasText(es[k]) then {es[k].id} else {}) {
        var j :| 0 <= j < k + 1 && HasText(es[j]) && es[j].id == x;
        if j < k {
          assert x in b;
        }
      }
    }
  }

  /** The pass's processed set after `n` elements, in closed form. */
  lemma {:induction false} PassSeen(es: seq<Badge>, processed: set<nat>, n: nat)
    requires n <= |es|
    ensures PassUpTo(es, processed, n).processed == SeenBefore(es, processed, n)
  {
    if n == 0 {
      assert SeenBefore(es, processed, 0) == processed;
    } else {
      PassSeen(es, processed, n - 1);
      var p := PassUpTo(es, processed, n - 1);
      assert PassUpTo(es, processed, n).processed == VisitBadge(es[n - 1], p.processed).processed;
      SeenAdvance(es, processed, n, p.processed);
    }
  }

  lemma SeenAdvance(es: seq<Badge>, processed: set<nat>, n: nat, before: set<nat>)
    requires 0 < n <= |es| && before == SeenBefore(es, processed, n - 1)
    ensures VisitBadge(es[n - 1], before).processed == SeenBefore(es, processed, n)
  {
    VisitRecords(es[n - 1], before);
    SeenStep(es, processed, n - 1);
  }

  /** How many of the first `n` elements a pass writes, by `Writes` against the closed-form processed set. */
  function CountWrites(es: seq<Badge>, processed: set<nat>, n: nat): nat
    requires n <= |es|
  {
    if n == 0 then 0
    else CountWrites(es, processed, n - 1) + if Writes(es[n - 1], SeenBefore(es, processed, n - 1)) then 1 else 0
  }

  /** `done[k]` is the outcome of visiting element `k` after the elements before it. */
  predicate OutcomeAt(es: seq<Badge>, processed: set<nat>, done: seq<Badge>, k: nat)
    requires k < |es| && k < |done|
  {
    VisitOutcome(es[k], done[k], SeenBefore(es, processed, k))
  }

  /** `done` holds, for each of the first `n` elements, the outcome of its visit. */
  predicate AllOutcomes(es: seq<Badge>, processed: set<nat>, done: seq<Badge>, n: nat)
    requires n <= |es|
  {
    |done| == n && forall k :: 0 <= k < n ==> OutcomeAt(es, processed, done, k)
  }

  /**
   * Element by element, the pass writes exactly the elements `Writes` picks
   * against the elements processed before them and leaves the others as
   * they were.
   */
  lemma {:induction false} PassOutcomes(es: seq<Badge>, processed: set<nat>, n: nat)
    requires n <= |es|
    ensures AllOutcomes(es, processed, PassUpTo(es, processed, n).badges, n)
  {
    if n > 0 {
      PassOutcomes(es, processed, n - 1);
      PassSeen(es, processed, n - 1);
      var p := PassUpTo(es, processed, n - 1);
      assert PassUpTo(es, processed, n).badges == p.badges + [VisitBadge(es[n - 1], p.processed).badge];
      OutcomeStep(es, processed, n, p.badges, p.processed);
    }
  }

  /** The `n`-th element's visit, against the closed-form processed set. */
  lemma OutcomeStep(es: seq<Badge>, processed: set<nat>, n: nat, done: seq<Badge>, before: set<nat>)
    requires 0 < n <= |es| && before == SeenBefore(es, processed, n - 1)
    requires AllOutcomes(es, processed, done, n - 1)
    ensures AllOutcomes(es, processed, done + [VisitBadge(es[n - 1], before).badge], n)
  {
    VisitUpdates(es[n - 1], before);
    OutcomeAppend(es, processed, done, VisitBadge(es[n - 1], before).badge, n);
  }

  lemma OutcomeAppend(es: seq<Badge>, processed: set<nat>, done: seq<Badge>, b: Badge, n: nat)
    requires 0 < n <= |es|
    requires AllOutcomes(es, processed, done, n - 1)
    requires VisitOutcome(es[n - 1], b, SeenBefore(es, processed, n - 1))
    ensures AllOutcomes(es, processed, done + [b], n)
  {
    forall k | 0 <= k < n ensures OutcomeAt(es, processed, done + [b], k) {
      if k < n - 1 {
        assert OutcomeAt(es, processed, done, k);
        assert (done + [b])[k] == done[k];
      } else {
        assert (done + [b])[k] == b;
      }
    }
  }

  /** `processedCount` is the number of elements `Writes` picks. */
  lemma {:induction false} PassCounts(es: seq<Badge>, processed: set<nat>, n: nat)
    requires n <= |es|
    ensures PassUpTo(es, processed, n).count == CountWrites(es, processed, n)
  {
    if n > 0 {
      var p := PassUpTo(es, processed, n - 1);
      PassCounts(es, processed, n - 1);
      PassSeen(es, processed, n - 1);
      VisitUpdates(es[n - 1], p.processed);
    }
  }

  /** Every element is updated as `BadgeUpdated` allows. */
  lemma {:induction false} PassUpdates(es: seq<Badge>, processed: set<nat>, n: nat)
    requires n <= |es|
    ensures var r := PassUpTo(es, processed, n);
      |r.badges| == n && r.count <= n
      && forall k :: 0 <= k < n ==> BadgeUpdated(es[k], r.badges[k])
  {
    if n > 0 {
      var p := PassUpTo(es, processed, n - 1);
      PassUpdates(es, processed, n - 1);
      var v := VisitBadge(es[n - 1], p.processed);
      VisitUpdates(es[n - 1], p.processed);
      UpdatedAppend(es, p.badges, v.badge, n);
    }
  }

  /** Appending an updated element to updated elements keeps them all updated. */
  lemma UpdatedAppend(es: seq<Badge>, done: seq<Badge>, b: Badge, n: nat)
    requires 0 < n <= |es| && |done| == n - 1
    requires forall k :: 0 <= k < n - 1 ==> BadgeUpdated(es[k], done[k])
    requires BadgeUpdated(es[n - 1], b)
    ensures forall k :: 0 <= k < n ==> BadgeUpdated(es[k], (done + [b])[k])
  {
    forall k | 0 <= k < n ensures BadgeUpdated(es[k], (done + [b])[k]) {
      if k < n - 1 {
        assert (done + [b])[k] == done[k];
      } else {
        assert (done + [b])[k] == b;
      }
    }
  }

  /** Every element with text ends up in `processedElements`, and nothing leaves that set. */
  lemma {:induction false} PassRecords(es: seq<Badge>, processed: set<nat>, n: nat)
    requires n <= |es|
    ensures var r := PassUpTo(es, processed, n);
      processed <= r.processed
      && forall k :: 0 <= k < n && HasText(es[k]) ==> es[k].id in r.processed
  {
    if n > 0 {
      var p := PassUpTo(es, processed, n - 1);
      PassRecords(es, processed, n - 1);
      var v := VisitBadge(es[n - 1], p.processed);
      VisitRecords(es[n - 1], p.processed);
      var r := PassUpTo(es, processed, n);
      assert r.processed == v.processed;
      assert processed <= p.processed <= r.processed;
      assert HasText(es[n - 1]) ==> es[n - 1].id in r.processed;
      forall k | 0 <= k < n - 1 && HasText(es[k]) ensures es[k].id in r.processed {
        assert es[k].id in p.processed;
      }
    }
  }

  /** A pass that counts nothing changes nothing. */
  lemma {:induction false} PassQuiet(es: seq<Badge>, processed: set<nat>, n: nat)
    requires n <= |es|
    ensures var r := PassUpTo(es, processed, n);
      r.count == 0 ==> r.badges == es[..n] && r.processed == processed
  {
    if n > 0 {
      PassQuiet(es, processed, n - 1);
      var p := PassUpTo(es, processed, n - 1);
      VisitRecords(es[n - 1], p.processed);
      if PassUpTo(es, processed, n).count == 0 {
        assert p.count == 0 && !VisitBadge(es[n - 1], p.processed).wrote;
        assert es[..n] == es[..n - 1] + [es[n - 1]];
      }
    }
  }

  /** A pass over elements that all carry their token and are all recorded writes and counts nothing. */
  lemma {:induction false} SettledPass(es: seq<Badge>, processed: set<nat>, n: nat)
    requires n <= |es|
    requires forall k :: 0 <= k < |es| && HasText(es[k]) ==>
      es[k].rating == Some(TokenOf(es[k])) && es[k].id in processed
    ensures PassUpTo(es, processed, n) == Pass(es[..n], processed, 0)
  {
    if n > 0 {
      SettledPass(es, processed, n - 1);
      assert es[..n] == es[..n - 1] + [es[n - 1]];
    }
  }

  /** Running the pass again over its own output changes nothing and counts nothing. */
  lemma PassIdempotent(es: seq<Badge>, processed: set<nat>)
    ensures var r := RunPass(es, processed);
      RunPass(r.badges, r.processed) == Pass(r.badges, r.processed, 0)
  {
    var r := RunPass(es, processed);
    PassUpdates(es, processed, |es|);
    PassRecords(es, processed, |es|);
    forall k | 0 <= k < |r.badges| && HasText(r.badges[k])
      ensures r.badges[k].rating == Some(TokenOf(r.badges[k])) && r.badges[k].id in r.processed
    {
      assert BadgeUpdated(es[k], r.badges[k]);
    }
    SettledPass(r.badges, r.processed, |r.badges|);
    assert r.badges[..|r.badges|] == r.badges;
  }

  /** What `setupMutationObserver` meets: no `MutationObserver`, a throwing constructor or `observe`, or success. */
  datatype ObserverSetup = Unsupported | ConstructorThrows | ObserveThrows | Observes

  datatype Callback = ProcessBadges | Reinitialize

  /** The single `debounceTimer`: which callback it will run, and when. */
  datatype Timeout = Timeout(callback: Callback, due: int)

  datatype ScriptState = ScriptState(
    observer: bool, observing: bool, polling: bool,
    debounce: Option<Timeout>, lastUrl: string, processed: set<nat>)

  const DebounceDelay: int := 150
  const FallbackInterval: int := 1500
  const NavigationDelay: int := 500

  class RatingScript {
    /** `observer` is non-null. */
    var observer: bool
    /** The observer is connected to `document.body`. */
    var observing: bool
    /** `fallbackTimer` holds a running interval of `FallbackInterval` ms. */
    var polling: bool
    var debounce: Option<Timeout>
    var lastUrl: string
    /** `processedElements`, by element identity. */
    var processed: set<nat>

    function State(): ScriptState
      reads this
    {
      ScriptState(observer, observing, polling, debounce, lastUrl, processed)
    }

    constructor (url: string)
      ensures State() == ScriptState(false, false, false, None, url, {})
    {
      observer := false;
      observing := false;
      polling := false;
      debounce := None;
      lastUrl := url;
      processed := {};
    }

    /** `processRatingElements` over the matched elements, in document order. */
    method ProcessRatingElements(badges: array<Badge>) returns (count: nat)
      modifies this`processed, badges
      ensures var r := RunPass(old(badges[..]), old(processed));
        badges[..] == r.badges && processed == r.processed && count == r.count
    {
      ghost var es := badges[..];
      ghost var p0 := processed;
      count := 0;
      for i := 0 to badges.Length
        invariant var r := PassUpTo(es, p0, i);
          badges[..i] == r.badges && badges[i..] == es[i..] && processed == r.processed && count == r.count
      {
        var e := badges[i];
        assert e == es[i];
        var v := VisitBadge(e, processed);
        if v.wrote {
          badges[i] := v.badge;
          processed := v.processed;
          count := count + 1;
        }
        assert badges[..i + 1] == badges[..i] + [v.badge];
        assert badges[i + 1..] == es[i + 1..];
      }
      assert badges[..] == badges[..badges.Length];
    }

    /** `debouncedProcess`: the pending timeout, whatever it was, is replaced by a pass in 150 ms. */
    method DebouncedProcess(now: int)
      modifies this`debounce
      ensures State() == old(State()).(debounce := Some(Timeout(ProcessBadges, now + DebounceDelay)))
    {
      debounce := Some(Timeout(ProcessBadges, now + DebounceDelay));
    }

    /** `cleanup`: observer disconnected and dropped, interval and timeout cleared, set emptied. */
    method Cleanup()
      modifies this
      ensures State() == ScriptState(false, false, false, None, old(lastUrl), {})
    {
      observer := false;
      observing := false;
      polling := false;
      debounce := None;
      processed := {};
    }

    /** `setupMutationObserver`, with what the environment does given as `setup`; returns its result. */
    method SetupMutationObserver(setup: ObserverSetup) returns (ok: bool)
      modifies this`observer, this`observing
      ensures ok <==> setup == Observes
      ensures observing == (old(observing) || ok)
      ensures observer == (old(observer) || setup == ObserveThrows || setup == Observes)
    {
      if setup == Unsupported || setup == ConstructorThrows {
        return false;
      }
      observer := true;
      if setup == ObserveThrows {
        return false;
      }
      observing := true;
      return true;
    }

    /**
     * `initialize`: clean up, run a pass over a fresh set, try the observer,
     * and start the fallback interval on both outcomes.
     */
    method Initialize(badges: array<Badge>, setup: ObserverSetup) returns (count: nat)
      modifies this, badges
      ensures var r := RunPass(old(badges[..]), {});
        badges[..] == r.badges && count == r.count
        && State() == ScriptState(setup == ObserveThrows || setup == Observes, setup == Observes,
                                  true, None, old(lastUrl), r.processed)
    {
      Cleanup();
      count := ProcessRatingElements(badges);
      var ok := SetupMutationObserver(setup);
      if !ok {
        polling := true;
      } else {
        polling := true;
      }
    }

    /** The body observer's callback; `relevant` says whether some mutation targets a rating element. */
    method OnBodyMutation(relevant: bool, now: int)
      requires observing
      modifies this`debounce
      ensures relevant ==> State() == old(State()).(debounce := Some(Timeout(ProcessBadges, now + DebounceDelay)))
      ensures !relevant ==> State() == old(State())
    {
      if relevant {
        DebouncedProcess(now);
      }
    }

    /** The head observer's callback: a new URL replaces the pending timeout by a re-initialisation in 500 ms. */
    method OnHeadMutation(url: string, now: int)
      modifies this`lastUrl, this`debounce
      ensures url != old(lastUrl) ==>
        State() == old(State()).(lastUrl := url, debounce := Some(Timeout(Reinitialize, now + NavigationDelay)))
      ensures url == old(lastUrl) ==> State() == old(State())
    {
      if url != lastUrl {
        lastUrl := url;
        debounce := Some(Timeout(Reinitialize, now + NavigationDelay));
      }
    }

    /** The pending timeout fires and runs the callback it holds. */
    method OnDebounceFired(now: int, badges: array<Badge>, setup: ObserverSetup) returns (count: nat)
      requires debounce.Some? && now >= debounce.value.due
      modifies this, badges
      ensures old(debounce.value.callback) == ProcessBadges ==>
        var r := RunPass(old(badges[..]), old(processed));
        badges[..] == r.badges && count == r.count
        && State() == old(State()).(debounce := None, processed := r.processed)
      ensures old(debounce.value.callback) == Reinitialize ==>
        var r := RunPass(old(badges[..]), {});
        badges[..] == r.badges && count == r.count
        && State() == ScriptState(setup == ObserveThrows || setup == Observes, setup == Observes,
                                  true, None, old(lastUrl), r.processed)
    {
      var callback := debounce.value.callback;
      debounce := None;
      if callback == ProcessBadges {
        count := ProcessRatingElements(badges);
      } else {
        count := Initialize(badges, setup);
      }
    }

    /** A tick of the fallback interval. */
    method OnPollTick(badges: array<Badge>) returns (count: nat)
      requires polling
      modifies this`processed, badges
      ensures var r := RunPass(old(badges[..]), old(processed));
        badges[..] == r.badges && processed == r.processed && count == r.count
    {
      count := ProcessRatingElements(badges);
    }
  }
}
