/**
 * Values shared by the three pause-overlay controllers: element identities,
 * the item record the server returns for `GET /Items/{id}`, the records kept
 * in the client's credential store, JavaScript truthiness, and the scrape of
 * an item id from the player's on-screen controls.
 */
module Jellyfin {
  import opened Options
  import opened JsString

  /** The identity of a `<video>` element; two handles denote the same element iff they are equal. */
  type Video = nat

  type ItemId = string

  /** JavaScript truthiness of an optional string: absent and "" are falsy. */
  predicate Truthy(s: Option<string>) {
    s.Some? && s.value != ""
  }

  /** `s || fallback` for an optional string. */
  function OrElse(s: Option<string>, fallback: string): string {
    if Truthy(s) then s.value else fallback
  }

  /** `${n || fallback}` for an optional number: absent and 0 fall back. */
  function NumberOr(n: Option<nat>, fallback: string): string {
    if n.Some? && n.value != 0 then Decimal(n.value) else fallback
  }

  /** `${s}` for an optional string: an absent field renders as "undefined". */
  function Template(s: Option<string>): string {
    if s.Some? then s.value else "undefined"
  }

  /** `${n}` for an optional number. */
  function TemplateNumber(n: Option<nat>): string {
    if n.Some? then Decimal(n.value) else "undefined"
  }

  /** The fields of the server's item record that the overlays read; `kind` is its `Type`. */
  datatype Item = Item(
    kind: Option<string>,
    name: Option<string>,
    seriesName: Option<string>,
    seasonName: Option<string>,
    indexNumber: Option<nat>,
    parentIndexNumber: Option<nat>,
    overview: Option<string>,
    officialRating: Option<string>,
    runTimeTicks: Option<nat>,
    productionYear: Option<nat>)

  /** What an overlay's content element holds, field by field rather than as markup. */
  datatype View =
    | Blank
    | EpisodeView(series: string, season: string, title: string, episode: string, synopsis: string)
    | MovieView(title: string, year: string, rating: Option<string>, runtime: string, synopsis: string)

  const NoDescription := "No description available."

  /** One entry of the stored `Servers` list. */
  datatype Server = Server(accessToken: Option<string>, userId: Option<string>)

  /** The `jellyfin_credentials` entry of local storage, after `JSON.parse`. */
  datatype StoredCredentials =
    | Absent                                // missing or empty
    | Malformed                             // JSON.parse throws, or yields null (reading `Servers` then throws)
    | Stored(servers: Option<seq<Server>>)  // `Servers` is absent when None

  datatype Credentials = Credentials(token: Option<string>, userId: Option<string>)

  /** The first truthy candidate, scanning left to right. */
  function FirstTruthy(candidates: seq<Option<string>>): (r: Option<string>)
    ensures r.None? <==> forall k :: 0 <= k < |candidates| ==> !Truthy(candidates[k])
    ensures r.Some? ==> Truthy(r) && exists k :: 0 <= k < |candidates| && candidates[k] == r
                                                && forall j :: 0 <= j < k ==> !Truthy(candidates[j])
  {
    if candidates == [] then None
    else if Truthy(candidates[0]) then candidates[0]
    else
      var r := FirstTruthy(candidates[1..]);
      assert forall k :: 1 <= k < |candidates| ==> candidates[k] == candidates[1..][k - 1];
      r
  }

  /**
   * The selector loop of `checkForItemId` / `getItemId`: `candidates[k]` is the
   * `data-id` attribute found through the k-th selector, absent when the
   * selector matches nothing; the first truthy one is the item id.
   */
  method FirstPresent(candidates: seq<Option<string>>) returns (r: Option<string>)
    ensures r == FirstTruthy(candidates)
  {
    var i := 0;
    while i < |candidates|
      invariant 0 <= i <= |candidates|
      invariant FirstTruthy(candidates) == FirstTruthy(candidates[i..])
    {
      if Truthy(candidates[i]) {
        return candidates[i];
      }
      assert candidates[i..][1..] == candidates[i + 1..];
      i := i + 1;
    }
    return None;
  }
}
