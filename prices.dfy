/**
 * The price fetcher (`get_prices`): one batched request to the market-data API,
 * retried with exponential backoff.
 *
 * The network is an oracle: `net[k]` is what attempt `k` (0-based) of the HTTP
 * request yields, either a decoded answer or an `aiohttp.ClientError`.  The
 * backoff sleeps are not performed but reported as a log of durations in seconds.
 */
module Prices {
  import opened Wrappers

  /** One asset's entry in the API's answer: `usd` and the optional `usd_24h_vol`. */
  datatype Quote = Quote(usd: real, usd24hVol: Option<real>)

  /** The decoded answer: asset id to quote. */
  type PriceMap = map<string, Quote>

  /** What one attempt of the HTTP request yields. */
  datatype Attempt = Answered(body: PriceMap) | ClientError

  /** Number of attempts `get_prices` makes at most. */
  const Retries: nat := 5

  function Pow2(k: nat): (r: nat)
    ensures r >= 1
  {
    if k == 0 then 1 else 2 * Pow2(k - 1)
  }

  /** The sleeps that follow the first `m` failed attempts, in order. */
  function Backoff(m: nat): (r: seq<nat>)
    ensures |r| == m
    ensures forall k :: 0 <= k < m ==> r[k] == Pow2(k)
  {
    if m == 0 then [] else Backoff(m - 1) + [Pow2(m - 1)]
  }

  function Sum(s: seq<nat>): nat
  {
    if s == [] then 0 else Sum(s[..|s| - 1]) + s[|s| - 1]
  }

  /**
   * The number of attempts made when attempt `k` is reached: attempts stop at
   * the first answer, or after the last permitted attempt.
   */
  function AttemptsFrom(net: seq<Attempt>, k: nat): (n: nat)
    requires |net| >= Retries && k < Retries
    decreases Retries - k
    ensures k < n <= Retries
    ensures forall j :: k <= j < n - 1 ==> net[j].ClientError?
    ensures net[n - 1].Answered? || n == Retries
  {
    if net[k].Answered? || k == Retries - 1 then k + 1 else AttemptsFrom(net, k + 1)
  }

  /** The number of HTTP requests `get_prices` issues. */
  function AttemptsMade(net: seq<Attempt>): (n: nat)
    requires |net| >= Retries
  {
    AttemptsFrom(net, 0)
  }

  /** What `get_prices` returns: the first answer, or the empty map after `Retries` failures. */
  function FetchedData(net: seq<Attempt>): (r: PriceMap)
    requires |net| >= Retries
    ensures r != map[] ==> exists j :: 0 <= j < Retries && FirstAnswer(net, j) && r == net[j].body
  {
    var n := AttemptsMade(net);
    assert net[n - 1].Answered? ==> FirstAnswer(net, n - 1);
    if net[n - 1].Answered? then net[n - 1].body else map[]
  }

  /** The backoff sleeps `get_prices` performs, in order. */
  function SleepLog(net: seq<Attempt>): (r: seq<nat>)
    requires |net| >= Retries
    ensures |r| == AttemptsMade(net) - 1 < Retries
    ensures forall k :: 0 <= k < |r| ==> r[k] == Pow2(k) && net[k].ClientError?
  {
    Backoff(AttemptsMade(net) - 1)
  }

  /** Attempt `j` is the first one that received an answer. */
  predicate FirstAnswer(net: seq<Attempt>, j: nat)
    requires j < |net|
  {
    net[j].Answered? && forall i :: 0 <= i < j ==> net[i].ClientError?
  }

  /**
   * `get_prices` with the network as an oracle.  Returns the decoded answer,
   * the number of requests issued and the backoff sleeps in seconds.
   */
  method GetPrices(net: seq<Attempt>) returns (data: PriceMap, attempts: nat, sleeps: seq<nat>)
    requires |net| >= Retries
    ensures attempts == AttemptsMade(net)
    ensures data == FetchedData(net)
    ensures sleeps == SleepLog(net)
  {
    data, attempts, sleeps := map[], 0, [];
    for attempt := 0 to Retries
      invariant attempts == attempt
      invariant forall j :: 0 <= j < attempt ==> net[j].ClientError?
      invariant attempt < Retries ==> sleeps == Backoff(attempt)
      invariant attempt == Retries ==> sleeps == Backoff(Retries - 1) && data == map[]
    {
      attempts := attempts + 1;
      match net[attempt]
      case Answered(body) =>
        data := body;
        return;
      case ClientError =>
        if attempt < Retries - 1 {
          sleeps := sleeps + [Pow2(attempt)];
        } else {
          // the last failure: no sleep, the loop ends with the empty map
          data := map[];
        }
    }
  }

  /** The result is the body of the first answered attempt, if one of the `Retries` attempts was answered. */
  lemma FetchedFirstAnswer(net: seq<Attempt>, j: nat)
    requires |net| >= Retries && j < Retries && FirstAnswer(net, j)
    ensures AttemptsMade(net) == j + 1
    ensures FetchedData(net) == net[j].body
    ensures SleepLog(net) == Backoff(j)
  {
  }

  /** After `Retries` failures: exactly `Retries` requests, four sleeps of 1, 2, 4 and 8 seconds, empty result. */
  lemma FetchedAllFailed(net: seq<Attempt>)
    requires |net| >= Retries
    requires forall j :: 0 <= j < Retries ==> net[j].ClientError?
    ensures AttemptsMade(net) == Retries
    ensures FetchedData(net) == map[]
    ensures SleepLog(net) == [1, 2, 4, 8]
    ensures Sum(SleepLog(net)) == 15
  {
    BackoffSum(Retries - 1);
  }

  /** The total time slept after `m` backoffs is `2^m - 1` seconds. */
  lemma {:induction false} BackoffSum(m: nat)
    ensures Sum(Backoff(m)) == Pow2(m) - 1
  {
    if m > 0 {
      BackoffSum(m - 1);
      assert Backoff(m)[..m - 1] == Backoff(m - 1);
    }
  }

  /**
   * The loop stops early only for an answer: when fewer than `Retries - 1`
   * sleeps were taken, the attempt after the last sleep was answered.
   */
  lemma SleepsOnlyBetweenAttempts(net: seq<Attempt>)
    requires |net| >= Retries
    ensures |SleepLog(net)| < Retries - 1 ==> net[|SleepLog(net)|].Answered?
  {
  }
}
