/**
 * `fetchWithRetry`, which every overlay controller uses to read an item: the
 * attempts are numbered from 0, a response whose status is not 2xx counts as
 * a failure like a network error or an unreadable body, attempt `j` is
 * followed by a wait of `base * (j + 1)` ms when another attempt follows, and
 * the last attempt's error is rethrown. The variants differ only in the
 * number of attempts and the base delay, which their own modules fix.
 */
module FetchRetry {
  import opened Options
  import opened Jellyfin

  /** What one `fetch` call produces: a response (with the body `response.json()` yields, if any) or a thrown error. */
  datatype Attempt = Response(status: int, body: Option<Item>) | NetworkFailure

  datatype FetchError = HttpError(status: int) | NetworkError | BodyError

  /** How the retry call settles; `Undefined` is what an async function returns when its loop never runs. */
  datatype Settled = Resolved(item: Item) | Rejected(error: FetchError) | Undefined

  /** `response.ok`. */
  predicate IsOk(status: int) {
    200 <= status <= 299
  }

  /** The outcome of attempt `i`; attempts beyond the supplied list fail as network errors. */
  function AttemptAt(outcomes: seq<Attempt>, i: nat): Attempt {
    if i < |outcomes| then outcomes[i] else NetworkFailure
  }

  /** What a single attempt resolves to, or the error it throws. */
  function Classify(a: Attempt): (r: Settled)
    ensures !r.Undefined?
    ensures r.Resolved? <==> a.Response? && IsOk(a.status) && a.body.Some?
    ensures r.Resolved? ==> r.item == a.body.value
    ensures a.Response? && !IsOk(a.status) ==> r == Rejected(HttpError(a.status))
  {
    match a
    case NetworkFailure => Rejected(NetworkError)
    case Response(status, body) =>
      if !IsOk(status) then Rejected(HttpError(status))
      else if body.None? then Rejected(BodyError)
      else Resolved(body.value)
  }

  /** The settled value, the number of `fetch` calls made, and the waits in between, in order. */
  datatype Run = Run(result: Settled, fetches: nat, delays: seq<nat>)

  /** Reference definition: the attempts from `i` on, of a loop that allows `limit` fetches. */
  function RetryFrom(outcomes: seq<Attempt>, limit: nat, base: nat, i: nat): Run
    requires i <= limit
    decreases limit - i
  {
    if i == limit then Run(Undefined, i, [])
    else
      var r := Classify(AttemptAt(outcomes, i));
      if r.Resolved? || i + 1 == limit then Run(r, i + 1, [])
      else
        var rest := RetryFrom(outcomes, limit, base, i + 1);
        Run(rest.result, rest.fetches, [base * (i + 1)] + rest.delays)
  }

  function Retry(outcomes: seq<Attempt>, limit: nat, base: nat): Run {
    RetryFrom(outcomes, limit, base, 0)
  }

  lemma {:induction false} RetryFromFacts(outcomes: seq<Attempt>, limit: nat, base: nat, i: nat)
    requires i < limit
    ensures var run := RetryFrom(outcomes, limit, base, i);
      && i < run.fetches <= limit
      && |run.delays| == run.fetches - i - 1
      && (forall k :: 0 <= k < |run.delays| ==> run.delays[k] == base * (i + k + 1))
      && (forall j :: i <= j < run.fetches - 1 ==> Classify(AttemptAt(outcomes, j)).Rejected?)
      && run.result == Classify(AttemptAt(outcomes, run.fetches - 1))
      && (run.result.Rejected? ==> run.fetches == limit)
    decreases limit - i
  {
    var r := Classify(AttemptAt(outcomes, i));
    if !r.Resolved? && i + 1 < limit {
      RetryFromFacts(outcomes, limit, base, i + 1);
    }
  }

  /**
   * What the retry promises: no attempt when the limit is 0; otherwise at most
   * `limit` fetches, a wait of `base * (k + 1)` after failed attempt k whenever
   * another attempt follows, every attempt but the last one failed, the result
   * is the last attempt's, and an error is surfaced only once every attempt
   * has been spent.
   */
  lemma RetryContract(outcomes: seq<Attempt>, limit: nat, base: nat)
    ensures var run := Retry(outcomes, limit, base);
      && (limit == 0 <==> run.result.Undefined?)
      && (limit == 0 ==> run.fetches == 0 && run.delays == [])
      && (limit > 0 ==>
          && 1 <= run.fetches <= limit
          && |run.delays| == run.fetches - 1
          && (forall k :: 0 <= k < |run.delays| ==> run.delays[k] == base * (k + 1))
          && (forall j :: 0 <= j < run.fetches - 1 ==> Classify(AttemptAt(outcomes, j)).Rejected?)
          && run.result == Classify(AttemptAt(outcomes, run.fetches - 1))
          && (run.result.Rejected? ==> run.fetches == limit))
  {
    if limit > 0 {
      RetryFromFacts(outcomes, limit, base, 0);
    }
  }

  /** The first attempt that succeeds ends the loop with its item. */
  lemma FirstSuccessWins(outcomes: seq<Attempt>, limit: nat, base: nat, j: nat)
    requires j < limit
    requires Classify(AttemptAt(outcomes, j)).Resolved?
    requires forall i :: 0 <= i < j ==> Classify(AttemptAt(outcomes, i)).Rejected?
    ensures Retry(outcomes, limit, base) == Run(Classify(AttemptAt(outcomes, j)), j + 1, seq(j, k => base * (k + 1)))
  {
    RetryContract(outcomes, limit, base);
    var run := Retry(outcomes, limit, base);
    assert run.fetches == j + 1;
  }

  /** The `for` loop of `fetchWithRetry`, over attempts 0 .. limit - 1. */
  method RetryLoop(outcomes: seq<Attempt>, limit: nat, base: nat) returns (run: Run)
    ensures run == Retry(outcomes, limit, base)
  {
    var delays: seq<nat> := [];
    var i := 0;
    while i < limit
      invariant 0 <= i <= limit
      invariant var rest := RetryFrom(outcomes, limit, base, i);
        Retry(outcomes, limit, base) == Run(rest.result, rest.fetches, delays + rest.delays)
    {
      var r := Classify(AttemptAt(outcomes, i));
      if r.Resolved? || i == limit - 1 {
        assert delays + [] == delays;
        return Run(r, i + 1, delays);
      }
      var rest := RetryFrom(outcomes, limit, base, i + 1);
      assert delays + ([base * (i + 1)] + rest.delays) == (delays + [base * (i + 1)]) + rest.delays;
      delays := delays + [base * (i + 1)];
      i := i + 1;
    }
    assert delays + [] == delays;
    return Run(Undefined, i, delays);
  }
}
