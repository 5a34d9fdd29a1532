# Crypto price tracker bot — a Dafny model

This project models one monitoring cycle of a Discord bot that tracks crypto
prices, as `my_discord_bot.py` implements it:

1. It takes two price samples from the CoinGecko simple-price endpoint. Each
   sample is fetched with up to five attempts and exponential backoff.
2. Between the two samples it waits 1500 seconds.
3. For every coin of the list that both samples quote it builds a detail record:
   - percentage change;
   - profit per $100 invested;
   - support and resistance;
   - three Fibonacci levels;
   - 24-hour volume.
4. It sorts the records by percentage change, in descending order and stably.
5. It renders the first three records (the gainers) and the last three (the
   losers) as two text messages.
6. It posts each message to a channel, split into chunks of at most 2000
   characters.

Modules, one file each:

- `Wrappers` (`wrappers.dfy`): `Option` and `Result`.
- `Prices` (`prices.dfy`): the quote type and the `get_prices` retry loop. The
  outcomes of the network attempts are an oracle sequence, and the sleeps are
  returned as a log.
- `Metrics` (`metrics.dfy`): the arithmetic of one record, over `real`.
- `CoinDetails` (`details.dfy`): `get_coin_details`, including `str.capitalize`
  and the zero-price division error.
- `Ranking` (`ranking.dfy`): the stable descending sort and the `[:3]` / `[-3:]`
  slices.
- `Report` (`report.dfy`): the per-coin text block and the two messages.
- `Delivery` (`delivery.dfy`): a `Channel` object whose `sent` log is appended
  to, and `send_message_in_chunks`.
- `Tracker` (`tracker.dfy`): `track_price_changes`, one cycle from the first
  sample to the last message.

Two facts about the code that the model keeps:

- The code sleeps 1, 2, 4 and 8 seconds between attempts and not after the
  fifth failure, 15 seconds in total.
- The profit per $100 is `(100 / new) * (new - old)`. For a move from 100 to
  110 it is 1000/110, about 9.09; from 200 to 100 it is -100.

## Model

| member | source | states |
|---|---|---|
| Prices.Pow2 | my_discord_bot.py:45 | the backoff delay `2 ** attempt` is at least one second |
| Prices.Backoff | my_discord_bot.py:44-45 | the sleeps before attempts 1..m are exactly `2**0 .. 2**(m-1)`, in order |
| Prices.AttemptsFrom | my_discord_bot.py:36-47 | the loop stops at the first answered attempt, or after the fifth; every attempt before the stop failed |
| Prices.GetPrices | my_discord_bot.py:26-47 | returns the body of the first answered attempt, or `{}` after five client errors; the attempt count and the sleep log are those of the specification functions |
| Prices.FetchedData | my_discord_bot.py:36-47 | what `get_prices` returns: a non-empty result is the body of the first answered attempt |
| Prices.SleepLog | my_discord_bot.py:44-45 | the backoff sleeps of one fetch: one fewer than the attempts, the k-th being `2**k` after the failed attempt k |
| Prices.FetchedFirstAnswer | my_discord_bot.py:38-41 | when some attempt within five answers, the data is the body of the first one that does |
| Prices.FetchedAllFailed | my_discord_bot.py:42-47 | five client errors give `{}` after sleeps of exactly 1, 2, 4 and 8 seconds, 15 seconds in total |
| Prices.BackoffSum | my_discord_bot.py:44-45 | m backoff sleeps total `2**m - 1` seconds |
| Prices.SleepsOnlyBetweenAttempts | my_discord_bot.py:36-47 | the loop stops early only for an answer: with fewer than four sleeps, the attempt after the last sleep was answered |
| Metrics.PercentageChange | my_discord_bot.py:50-53 | 0 when either price is 0; otherwise `old * (1 + r/100) == new`, and for positive prices r > 0 iff the price rose and r < 0 iff it fell |
| Metrics.ProfitPer100 | my_discord_bot.py:63 | `r * new == 100 * (new - old)`; for a positive new price, r has the sign of the move; for non-negative old and positive new prices, at most 100 |
| Metrics.Support | my_discord_bot.py:65 | 95% of the price: strictly between 0 and the price for a positive price, and 0 exactly when the price is 0 |
| Metrics.Resistance | my_discord_bot.py:66 | 105% of the price: above a positive price, and symmetric to the support around the price |
| Metrics.FibonacciLevels | my_discord_bot.py:67 | three levels, increasing and below a positive price, with the first two adding up to the third |
| Metrics.ProfitVersusChange | my_discord_bot.py:53-63 | `profit * new == change * old`, and the profit equals the percentage change exactly when the price did not move |
| Metrics.WorkedExamples | my_discord_bot.py:50-63 | 100 → 110 gives +10% and 1000/110 profit; 200 → 100 gives -50% and -100 profit; zero prices give a change of 0 |
| CoinDetails.Capitalize | my_discord_bot.py:71 | keeps the length; the first letter is not lower case; no later letter is upper case; every character is the same letter ignoring case |
| CoinDetails.CapitalizeIdempotent | my_discord_bot.py:71 | capitalising twice is the same as capitalising once |
| CoinDetails.VolumeOf | my_discord_bot.py:68 | `.get('usd_24h_vol', 0)`: the quoted volume, or 0 when the key is absent |
| CoinDetails.DetailOf | my_discord_bot.py:60-80 | the record of one coin: the name keeps its length, both prices are copied, three Fibonacci levels, support below and resistance above a positive price, and a zero change exactly when the old price is 0 or the price did not move |
| CoinDetails.Details | my_discord_bot.py:58-80 | the records of the matched coins, at most one per listed coin; an error names a listed coin whose new price is 0 |
| CoinDetails.Matched | my_discord_bot.py:58-59 | no more coins than the list, and each one is quoted in both samples |
| CoinDetails.MatchedMembers | my_discord_bot.py:58-59 | a coin is matched iff it is in the list and quoted in both samples |
| CoinDetails.MatchedAppend | my_discord_bot.py:58-59 | matching walks the list left to right: the matches of `a + b` are the matches of `a` followed by those of `b` |
| CoinDetails.GetCoinDetails | my_discord_bot.py:56-82 | the loop returns what the record specification gives for the whole list: the records, or the error of the first zero-priced matched coin |
| CoinDetails.DetailsErrorPersists | my_discord_bot.py:63 | once a prefix of the list raises the division error, every longer prefix raises the same error |
| CoinDetails.DetailsSucceed | my_discord_bot.py:59-63 | the records are produced iff every matched coin has a non-zero new price |
| CoinDetails.DetailsRecords | my_discord_bot.py:58-80 | on success there is one record per matched coin, in list order, each built from that coin's two quotes |
| CoinDetails.DetailsFailure | my_discord_bot.py:63 | on failure the error names the first matched coin whose new price is 0 |
| CoinDetails.DetailsExample | my_discord_bot.py:58-80 | a coin missing from the old sample gets no record; the matched coin is capitalised, shows +10% and has volume 0 when none is quoted |
| Ranking.Insert | my_discord_bot.py:127 | inserts a record before the first one whose change is at most its own, so that it precedes its equals; the list grows by one |
| Ranking.SortByChange | my_discord_bot.py:127 | the descending stable sort by change, by insertion; it keeps the length, and the lemmas below give its order, permutation and stability |
| Ranking.SortPermutes | my_discord_bot.py:127 | sorting keeps the same records (as a multiset) |
| Ranking.SortSorts | my_discord_bot.py:127 | the result is in non-increasing order of percentage change |
| Ranking.SortIsStable | my_discord_bot.py:127 | records with equal change keep their original relative order |
| Ranking.SortKeepsSorted | my_discord_bot.py:127 | an already sorted list is left unchanged |
| Ranking.Gainers | my_discord_bot.py:130 | `[:3]`: the first `min(3, n)` records |
| Ranking.Losers | my_discord_bot.py:134 | `[-3:]`: the last `min(3, n)` records |
| Ranking.SelectionExtremes | my_discord_bot.py:127-135 | after sorting, each gainer's change is at least that of every record after the gainers, and each loser's change is at most that of every record before the losers |
| Ranking.SelectionOverlap | my_discord_bot.py:129-135 | the two selections share records iff there are between 1 and 5 records; the shared part is given; both are empty for no records |
| Ranking.RankingExample | my_discord_bot.py:127-135 | changes 5, -3, 10, 0, -8 sort to 10, 5, 0, -3, -8; the gainers are 10, 5, 0 and the losers 0, -3, -8 |
| Report.ChangeText | my_discord_bot.py:86 | the change reads "No Change" exactly when the percentage change is 0 |
| Report.ProfitText | my_discord_bot.py:87 | the profit starts with '$', and reads "$0.00" when the profit is 0 |
| Report.DetailLines | my_discord_bot.py:89-96 | the eight lines of a coin's block, the first being the coin name followed by ":" |
| Report.FormatCoinDetail | my_discord_bot.py:85-96 | `format_coin_detail`: the eight lines joined in order; their shape is given by Report.BlockLines |
| Report.RenderAll | my_discord_bot.py:130-135 | the blocks of the selected records, one after the other, as the `+=` loops build them |
| Report.GainersMessage | my_discord_bot.py:129-131 | the gainers message starts with its header, followed by the blocks of the first three sorted records |
| Report.LosersMessage | my_discord_bot.py:133-135 | the losers message starts with its header, followed by the blocks of the last three sorted records |
| Report.BlockText | my_discord_bot.py:85-96 | the text of a block is its eight lines joined in order, so it opens with the coin name and ":" followed by the labelled lines of Report.BlockLines |
| Report.BlockLines | my_discord_bot.py:85-96 | a block has eight lines: the coin name followed by ":", then seven labelled lines, each newline-terminated, the last followed by a blank line |
| Report.AppendBlocks | my_discord_bot.py:129-135 | the message is the header followed by one block per selected record, in order |
| Report.Messages | my_discord_bot.py:129-135 | the gainers message renders the first records and the losers message the last; with no records each message is its header alone |
| Delivery.Channel.constructor | my_discord_bot.py:117 | a fresh channel has sent nothing |
| Delivery.Channel.Send | my_discord_bot.py:144-146 | appends exactly one message to the sent log |
| Delivery.SendMessageInChunks | my_discord_bot.py:141-146 | appends the chunk sequence of the message to the log, and nothing else |
| Delivery.SlicesFrom | my_discord_bot.py:143-144 | the pieces `message[i:i + size]` for the offsets of `range(from, len(message), size)`; there are pieces exactly when `from` lies inside the message |
| Delivery.Chunks | my_discord_bot.py:141-146 | the messages sent: never none; exactly the message itself, once, when it fits in one chunk |
| Delivery.ChunksRebuildMessage | my_discord_bot.py:141-146 | joining the chunks gives back the message |
| Delivery.ChunksShape | my_discord_bot.py:141-146 | at most the chunk size per chunk; every chunk except the last is full; the last is non-empty; a message within the limit is sent whole, even when empty |
| Delivery.ChunksExample | my_discord_bot.py:141-146 | a 4500-character message goes out as 2000, 2000 and 500 characters |
| Tracker.TrackPriceChanges | my_discord_bot.py:100-138 | the cycle stops with no post when a sample is empty or the channel is missing, and crashes when a matched coin's new price is 0; otherwise it posts the chunks of the gainers message and then those of the losers message; the sleep log is that of both fetches with the 1500-second wait between them |
| Tracker.CycleEnd | my_discord_bot.py:100-122 | the cycle delivers exactly when both samples are non-empty, the channel is found and record building succeeds; it stops for a missing channel only when none was found |
| Tracker.CycleSleeps | my_discord_bot.py:101-110 | the sleeps of one cycle: the first fetch's backoff, and, when it produced data, the 1500-second wait and the second fetch's backoff; one sleep fewer than the requests of each fetch, plus the wait |
| Tracker.RenderReport | my_discord_bot.py:127-135 | builds the two messages from the sorted records |
| Tracker.PostReport | my_discord_bot.py:127-138 | sorts and renders the records, then appends the chunks of both messages to the channel's log, in that order |

## Left out

- HTTP, JSON decoding and the CoinGecko request parameters are not modelled. Each attempt's outcome is an oracle value: an answered body or an `aiohttp.ClientError`.
- Other exceptions raised by an attempt are not modelled. In the code they would escape `get_prices`.
- The decoded response is modelled as a map from coin id to a quote: a `usd` price and an optional `usd_24h_vol`. A missing `usd` key, which would raise `KeyError`, is not modelled. Nor is a `usd_24h_vol` key present with a JSON `null`: `.get` then returns `None`, and `:.2f` at line 96 raises `TypeError`; the model only has an absent key, read as 0.
- The Discord plumbing is not modelled: the bot, its intents and the `on_ready` handler. `bot.get_channel` is modelled as a `Channel?` argument, and `channel.send` as an append to the channel's `sent` log.
- The 25-minute `tasks.loop` schedule and any overlap between cycles are not modelled; one cycle is modelled. The coroutine interleaving of `async`/`await` is not modelled either.
- `asyncio.sleep` does not wait in the model. Each sleep is recorded in a returned log, in seconds.
- The 71-entry coin id list is not reproduced. The cycle takes the coin list as a parameter.
- Prices are `real` numbers. Floating-point rounding is not modelled.
- `:.2f` formatting and the `str` of the Fibonacci list are parameters of type `Formatter`. The text they produce is not modelled; everything around them is.
- CoinDetails.Capitalize: case mapping covers ASCII letters only. Python's Unicode case tables are not modelled, because coin ids are ASCII.
- Ranking.SortByChange: `list.sort` is modelled as a stable insertion-sort function on a sequence. Timsort's internals and the in-place update of the list are not modelled. Its result is the same as `list.sort`'s, because a stable descending order determines the sequence uniquely.
- Delivery.SendMessageInChunks: requires a chunk size greater than 0; the bot always passes 2000. Other sizes are not modelled. With a size of 0 and a non-empty message, `range` raises `ValueError`. With a size of 0 and an empty message, the `else` branch sends `""`. With a negative size, `range` is empty and nothing is sent. The `nat` type of the size excludes negative sizes without saying so.
- Tracker.TrackPriceChanges: the two messages are returned as ghost outputs, to state what was posted.
- The `print` debug and error logging is not modelled.
