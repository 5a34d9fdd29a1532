/**
 * One cycle of the periodic task (`track_price_changes`): fetch, wait, fetch,
 * build, rank, render and deliver.  The 25-minute schedule that repeats the
 * cycle is not modelled; the intra-cycle wait is reported in the sleep log.
 */
module Tracker {
  import opened Prices
  import opened CoinDetails
  import opened Ranking
  import opened Report
  import opened Delivery

  /** Seconds the cycle waits between the two samples. */
  const IntraCycleSleep: nat := 1500

  /** How a cycle ends. */
  datatype CycleOutcome =
    | NoOldPrices             // the first fetch gave nothing
    | NoNewPrices             // the second fetch gave nothing
    | NoChannel               // the destination channel was not found
    | Crashed(error: DetailError)  // record building raised
    | Delivered               // both messages were sent

  /** How the cycle ends for the given network behaviour and channel lookup. */
  function CycleEnd(coins: seq<string>, oldNet: seq<Attempt>, newNet: seq<Attempt>, channelFound: bool): (e: CycleOutcome)
    requires |oldNet| >= Retries && |newNet| >= Retries
    ensures e == Delivered <==>
      FetchedData(oldNet) != map[] && FetchedData(newNet) != map[] && channelFound &&
      Details(coins, FetchedData(newNet), FetchedData(oldNet)).Ok?
    ensures e == NoChannel ==> !channelFound
  {
    var oldPrices, newPrices := FetchedData(oldNet), FetchedData(newNet);
    if oldPrices == map[] then NoOldPrices
    else if newPrices == map[] then NoNewPrices
    else if !channelFound then NoChannel
    else match Details(coins, newPrices, oldPrices)
      case Err(e) => Crashed(e)
      case Ok(_) => Delivered
  }

  /** The sleeps of a cycle: the first fetch's backoff, then the wait and the second fetch's backoff. */
  function CycleSleeps(oldNet: seq<Attempt>, newNet: seq<Attempt>): (r: seq<nat>)
    requires |oldNet| >= Retries && |newNet| >= Retries
    ensures FetchedData(oldNet) == map[] ==> |r| == AttemptsMade(oldNet) - 1
    ensures FetchedData(oldNet) != map[] ==> |r| == AttemptsMade(oldNet) + AttemptsMade(newNet) - 1
  {
    if FetchedData(oldNet) == map[] then SleepLog(oldNet)
    else SleepLog(oldNet) + [IntraCycleSleep] + SleepLog(newNet)
  }

  /**
   * `track_price_changes`, one cycle, for the tracked asset ids `coins`.
   * `oldNet` and `newNet` are the network's
   * answers to the two fetches; `channel` is the result of the channel lookup.
   */
  method TrackPriceChanges(coins: seq<string>, oldNet: seq<Attempt>, newNet: seq<Attempt>, channel: Channel?, fmt: Formatter)
    returns (outcome: CycleOutcome, sleeps: seq<nat>, ghost top: string, ghost bottom: string)
    requires |oldNet| >= Retries && |newNet| >= Retries
    modifies channel
    ensures outcome == CycleEnd(coins, oldNet, newNet, channel != null)
    ensures sleeps == CycleSleeps(oldNet, newNet)
    ensures outcome.Delivered? ==>
              var sorted := SortByChange(Details(coins, FetchedData(newNet), FetchedData(oldNet)).value);
              top == GainersMessage(fmt, sorted) && bottom == LosersMessage(fmt, sorted) &&
              channel != null && channel.sent == old(channel.sent) + Chunks(top, ChunkSize) + Chunks(bottom, ChunkSize)
    ensures !outcome.Delivered? && channel != null ==> channel.sent == old(channel.sent)
  {
    top, bottom := "", "";
    var oldPrices, oldAttempts, oldSleeps := GetPrices(oldNet);
    sleeps := oldSleeps;
    if oldPrices == map[] {
      return NoOldPrices, sleeps, top, bottom;
    }
    sleeps := sleeps + [IntraCycleSleep];
    var newPrices, newAttempts, newSleeps := GetPrices(newNet);
    sleeps := sleeps + newSleeps;
    if newPrices == map[] {
      return NoNewPrices, sleeps, top, bottom;
    }
    if channel == null {
      return NoChannel, sleeps, top, bottom;
    }
    var built := GetCoinDetails(coins, newPrices, oldPrices);
    if built.Err? {
      return Crashed(built.error), sleeps, top, bottom;
    }
    var top3CoinsMessage, bottom3CoinsMessage := PostReport(channel, fmt, built.value);
    top, bottom := top3CoinsMessage, bottom3CoinsMessage;
    outcome := Delivered;
  }

  /**
   * The middle of a cycle: sort the records in descending order of change
   * and render the gainers and the losers messages.
   */
  method RenderReport(fmt: Formatter, details: seq<CoinDetail>) returns (top: string, bottom: string)
    ensures top == GainersMessage(fmt, SortByChange(details))
    ensures bottom == LosersMessage(fmt, SortByChange(details))
  {
    var coinDetails := SortByChange(details);
    top := AppendBlocks(GainersHeader, Block(fmt), Gainers(coinDetails));
    bottom := AppendBlocks(LosersHeader, Block(fmt), Losers(coinDetails));
  }

  /** The end of a delivering cycle: render both messages and send each in chunks. */
  method PostReport(channel: Channel, fmt: Formatter, details: seq<CoinDetail>)
    returns (top3CoinsMessage: string, bottom3CoinsMessage: string)
    modifies channel
    ensures top3CoinsMessage == GainersMessage(fmt, SortByChange(details))
    ensures bottom3CoinsMessage == LosersMessage(fmt, SortByChange(details))
    ensures channel.sent == old(channel.sent) + Chunks(top3CoinsMessage, ChunkSize) + Chunks(bottom3CoinsMessage, ChunkSize)
  {
    top3CoinsMessage, bottom3CoinsMessage := RenderReport(fmt, details);
    SendMessageInChunks(channel, top3CoinsMessage, ChunkSize);
    SendMessageInChunks(channel, bottom3CoinsMessage, ChunkSize);
  }
}
