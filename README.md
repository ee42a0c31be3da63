# Market Mirror: session analyser and snapshot store, in Dafny

This project models the two pieces of logic under `market-mirror/lib` of the Market Mirror app and proves properties about them:

- **The trade-session analyser** (`analyzeTraderBehavior`). It splits a session's trades into emotional and rational ones. It computes two scores capped at 100 and counts bias markers ("fomo"/"chasing", "panic"/"fear", "revenge") in the reasons of the emotional trades. It then picks the dominant bias and labels the market from the total profit. It also derives a duration and a summary line.
- **The snapshot client** (`SnowflakeClient`). It pseudonymises a user id with a 32-bit rolling hash printed in hexadecimal. If both warehouse settings are present, it builds INSERT values for the remote warehouse: three optional columns may become `NULL`, and the quotes in `notes` are doubled. Otherwise it appends the snapshot to an on-device list and reads a trader's history back from that list.

Layout, one module per file:

- `types.dfy`: the records of `type.ts`.
- `seqs.dfy`: the order-preserving `filter` that both core files use.
- `numerals.dfy`: `toString(radix)` for non-negative integers, and reading the digits back.
- `text.dfy`: ASCII `toLowerCase` and `includes`.
- `behavior_analyzer.dfy`: the analyser.
- `trader_hash.dfy`: `hashUserId`.
- `sql_rules.dfy`: the NULL and escaping rules of the INSERT.
- `local_store.dfy`: the local store and the evolution view read from it.
- `snowflake_client.dfy`: the client class.

Profits and scores are `real`. The bias-counting `forEach` and the hash loop are methods with loops, each proved equal to a specification function. The client is a class. In the source its device storage is an AsyncStorage key holding a JSON array; here that array is a `seq` field that `StoreLocally` extends.

The dominant-bias rule is modelled as the code is written. Only three equal counters (all zero included) give `mixed`. A two-way tie at the top goes to the earlier counter, in the order overtrading, loss aversion, revenge. So reasons "FOMO" and "Panic" give `overtrading` (`BehaviorAnalyzer.ExampleSession`). A natural reading of "dominant" would call a two-way tie mixed; the code does not, and the model follows the code.

## Model

| member | source | states |
|---|---|---|
| `Seqs.Filter` | market-mirror/lib/behavior-analyzer.ts:17-18 | `Array.prototype.filter`: the result is no longer than the input and every kept element passes the test |
| `Text.ToLower` | market-mirror/lib/behavior-analyzer.ts:38-46 | `toLowerCase` on ASCII: same length, each character lowered in place |
| `Text.Includes` | market-mirror/lib/behavior-analyzer.ts:38-46 | `includes`: a text longer than the string is never included |
| `Text.IncludesPrefix` | market-mirror/lib/behavior-analyzer.ts:38-46 | `includes`: a prefix of the string is always included |
| `BehaviorAnalyzer.Summary` | market-mirror/lib/behavior-analyzer.ts:71 | the summary starts with the emotional count in decimal followed by " emotional trades, " and ends with the bias label (its full read-back is `SummaryRoundTrip`) |
| `Seqs.FilterConcat` | market-mirror/lib/behavior-analyzer.ts:17-18 | filtering distributes over concatenation, so the kept elements stay in their original order |
| `Seqs.FilterComplement` | market-mirror/lib/behavior-analyzer.ts:17-18 | two filters with complementary tests split a sequence: their lengths add up and their multisets make up the whole |
| `BehaviorAnalyzer.PartitionTrades` | market-mirror/lib/behavior-analyzer.ts:17-18 | a trade is in the emotional (rational) subset iff it is in the session with that label; the subsets' sizes sum to the session size and their multisets make up the session |
| `BehaviorAnalyzer.SumOfNonNegative` | market-mirror/lib/behavior-analyzer.ts:22 | a `reduce` sum of non-negative terms (loss magnitudes, positive gains) is non-negative |
| `BehaviorAnalyzer.EmotionalScore` | market-mirror/lib/behavior-analyzer.ts:21-23 | for a non-empty session the score lies in [0, 100]; it is 0 when no trade is emotional (the average term falls back to 0), 100 when every trade is, and never below the capped emotional share in percent |
| `BehaviorAnalyzer.RationalScore` | market-mirror/lib/behavior-analyzer.ts:26-28 | the same four facts for the rational score |
| `BehaviorAnalyzer.EmotionalTrades` | market-mirror/lib/behavior-analyzer.ts:17 | the filter keeps at most the session's trades, every one labelled emotional (membership both ways is `PartitionTrades`) |
| `BehaviorAnalyzer.RationalTrades` | market-mirror/lib/behavior-analyzer.ts:18 | the filter keeps at most the session's trades, every one labelled rational (membership both ways is `PartitionTrades`) |
| `BehaviorAnalyzer.AverageOrZero` | market-mirror/lib/behavior-analyzer.ts:22 | `total / length`, falling back to 0 when that is NaN: with at least one element the result times the count is the total; a non-negative total gives a non-negative average |
| `BehaviorAnalyzer.Bump` | market-mirror/lib/behavior-analyzer.ts:38-48 | one trade raises each of the three counters by at most one, independently |
| `BehaviorAnalyzer.Tally` | market-mirror/lib/behavior-analyzer.ts:37-49 | after visiting a sequence of trades no counter exceeds its length (exact counts are `TallyCountsMarkedTrades`) |
| `BehaviorAnalyzer.TotalProfit` | market-mirror/lib/behavior-analyzer.ts:65 | the `reduce` sum of all profits; its split into the two subsets is `TotalProfitSplits` |
| `BehaviorAnalyzer.ScoresCoverSession` | market-mirror/lib/behavior-analyzer.ts:21-28 | since the two shares add up to the whole session, the two scores add up to at least 100 |
| `BehaviorAnalyzer.CountBiases` | market-mirror/lib/behavior-analyzer.ts:31-49 | the counter loop over the emotional trades ends with exactly the counters of `Tally`, which bumps each counter by at most one per trade |
| `BehaviorAnalyzer.TallyCountsMarkedTrades` | market-mirror/lib/behavior-analyzer.ts:37-49 | each counter equals the number of trades whose lowercased reason contains one of that counter's markers, so none exceeds the number of trades visited |
| `BehaviorAnalyzer.FomoMarkers` | market-mirror/lib/behavior-analyzer.ts:38-47 | the upper-case reason "FOMO" is lowercased first and matches the overtrading markers only |
| `BehaviorAnalyzer.PanicMarkers` | market-mirror/lib/behavior-analyzer.ts:42-44 | the reason "Panic" matches the loss-aversion markers only |
| `BehaviorAnalyzer.DominantBias` | market-mirror/lib/behavior-analyzer.ts:51-62 | `mixed` iff the three counters are equal; otherwise the named counter equals the maximum, and every counter before it in the order overtrading, loss aversion, revenge is strictly below it |
| `BehaviorAnalyzer.MarketConditionOf` | market-mirror/lib/behavior-analyzer.ts:66 | bullish iff the total is > 0, bearish iff < -200, volatile iff in [-200, 0], so exactly 0 and exactly -200 are volatile |
| `BehaviorAnalyzer.TotalProfitSplits` | market-mirror/lib/behavior-analyzer.ts:65 | the session's total profit is the emotional trades' total plus the rational trades' total |
| `BehaviorAnalyzer.SummaryRoundTrip` | market-mirror/lib/behavior-analyzer.ts:71 | the summary template parses back to the emotional count, the rational count and the bias it was built from |
| `BehaviorAnalyzer.AnalyzeTraderBehavior` | market-mirror/lib/behavior-analyzer.ts:16-84 | for a non-empty session: the subsets are the label filters and sum to the session size; both scores are in [0, 100], and 0 when their subset is empty; the bias is the one chosen from the emotional trades' counters; the market label comes from the total profit; the duration is 5 minutes per trade; the session number is 1; the summary is exactly the template built from the two counts and the bias, and reads back to them |
| `BehaviorAnalyzer.ExampleSession` | market-mirror/lib/behavior-analyzer.ts:17-66 | trades with reasons FOMO and Panic (emotional) and two profitable rational trades give counts 2 and 2, counters (1, 1, 0), bias overtrading, total 280, bullish |
| `Types.BiasFromName` | market-mirror/lib/type.ts:18 | reading a bias label back gives a bias whose label is that text |
| `Numerals.ToDigits` | market-mirror/lib/snowflake-client.ts:22 | `toString(radix)`: at least one digit, all of them digits of the radix, no leading zero, and "0" exactly for zero |
| `Numerals.ValueOfToDigits` | market-mirror/lib/snowflake-client.ts:22 | reading the digits back gives the number |
| `TraderHash.ToInt32` | market-mirror/lib/snowflake-client.ts:20 | the 32-bit conversion lands in [-2^31, 2^31) and is congruent to its input modulo 2^32 |
| `TraderHash.StepIsRolling` | market-mirror/lib/snowflake-client.ts:19-20 | the shift-subtract-add step followed by `hash & hash` equals `31 * hash + c` reduced to signed 32 bits |
| `TraderHash.Hash` | market-mirror/lib/snowflake-client.ts:16-21 | the value of `hash` after each iteration (after the `hash & hash` of line 20) lies in [-2^31, 2^31); the untruncated sum assigned at line 19 can leave that range |
| `TraderHash.Step` | market-mirror/lib/snowflake-client.ts:19-20 | one loop turn, `hash << 5` wrapped to 32 bits, then the exact subtraction and addition, then `hash & hash`, yields a signed 32-bit integer; `StepIsRolling` gives its value |
| `TraderHash.HashSnoc` | market-mirror/lib/snowflake-client.ts:17-21 | each further code unit turns the hash so far into `31 * h + c` reduced to signed 32 bits |
| `TraderHash.HashHexShape` | market-mirror/lib/snowflake-client.ts:22 | the trader hash uses only `0-9a-f`, has no leading zero, denotes the absolute value of the final hash (at most 2^31), and is "0" for an empty user id |
| `TraderHash.HashHex` | market-mirror/lib/snowflake-client.ts:22 | `Math.abs(hash).toString(16)` of the final hash; its shape and value are `HashHexShape` |
| `TraderHash.HashUserId` | market-mirror/lib/snowflake-client.ts:15-23 | the loop over the code units returns the hexadecimal trader hash of the user id |
| `SqlRules.EscapeQuotes` | market-mirror/lib/snowflake-client.ts:61 | doubling the quotes lengthens the text by exactly its number of quotes |
| `SqlRules.EscapeReadsBack` | market-mirror/lib/snowflake-client.ts:61 | the escaped text, closed by a quote and followed by anything not starting with a quote, is read back by the quote-un-doubling reading as exactly the original text |
| `SqlRules.OptionalColumnsOf` | market-mirror/lib/snowflake-client.ts:59-61 | the three optional columns in statement order; each column's rule is `MarketConditionValue`, `DurationValue` and `NotesValue` |
| `SqlRules.MarketConditionValue` | market-mirror/lib/snowflake-client.ts:59 | market condition is NULL iff absent or empty, and otherwise quoted as given |
| `SqlRules.DurationValue` | market-mirror/lib/snowflake-client.ts:60 | the session duration is NULL iff absent or 0, and otherwise the number |
| `SqlRules.NotesValue` | market-mirror/lib/snowflake-client.ts:61 | notes are NULL iff absent or empty; otherwise they are quoted with quotes doubled, and the quote-un-doubling reading gives back the original notes |
| `LocalStore.TraderSnapshots` | market-mirror/lib/snowflake-client.ts:165 | the filter keeps at most the stored entries, every one carrying the given trader hash (membership both ways is `TraderSnapshotsBelong`) |
| `LocalStore.ToEvolution` | market-mirror/lib/snowflake-client.ts:167-175 | the `map` to evolution points; what each point carries is `LocalEvolution` |
| `LocalStore.TraderSnapshotsBelong` | market-mirror/lib/snowflake-client.ts:165 | a stored entry is in a trader's view iff it is in the store and carries that trader's hash |
| `LocalStore.LocalEvolution` | market-mirror/lib/snowflake-client.ts:165-175 | one point per matching entry, in stored order, each carrying its entry's timestamp, scores, discipline delta and bias; session numbers run from 1; the first improvement is null and each later one is the change in discipline delta from the previous point |
| `LocalStore.StoreThenEvolution` | market-mirror/lib/snowflake-client.ts:165-175 | appending a snapshot under a hash extends that hash's evolution by one point at the end: earlier points unchanged, numbered next, carrying the snapshot's fields, improvement over the previous last point (null if none) |
| `LocalStore.StoreKeepsOtherTraders` | market-mirror/lib/snowflake-client.ts:165 | appending a snapshot under one hash leaves every other hash's evolution unchanged |
| `LocalStore.ImprovementsTelescope` | market-mirror/lib/snowflake-client.ts:173 | over a history, the reported improvements add up to the last discipline delta minus the first |
| `Snowflake.SnowflakeClient.constructor` | market-mirror/lib/snowflake-client.ts:9-12 | the client holds the two settings and the snapshots already on the device |
| `Snowflake.SnowflakeClient.UsesLocalStore` | market-mirror/lib/snowflake-client.ts:41 | true iff the account URL or the access token is empty, the test at lines 41 and 122; how each path behaves is in `InsertSnapshot` and `GetTraderEvolution` |
| `Snowflake.SnowflakeClient.StoreLocally` | market-mirror/lib/snowflake-client.ts:95-116 | appends exactly one entry (the snapshot with its trader hash) at the end, keeps all earlier entries, and reports success |
| `Snowflake.SnowflakeClient.InsertSnapshot` | market-mirror/lib/snowflake-client.ts:26-64 | with the account URL or the token empty, appends the snapshot under the user's trader hash; otherwise leaves the store alone and yields the remote insert with the optional columns' SQL values |
| `Snowflake.SnowflakeClient.GetTraderEvolution` | market-mirror/lib/snowflake-client.ts:119-124 | with the account URL or the token empty, answers with the local evolution of the user's trader hash; otherwise with the remote query for that hash |
| `Snowflake.InsertThenQuery` | market-mirror/lib/snowflake-client.ts:26-43 | on the local path the insert appends exactly the snapshot under the user's trader hash; the four histories are the local evolutions (lines 119-124 and 159-175) of the two users' hashes in the store before and after it; the inserting user's history is extended by the snapshot's point, and that of a user whose trader hash differs is unchanged |

## Left out

- AnalyzeTraderBehavior: requires at least one trade. For an empty session the source divides by zero and the scores are NaN, which is not modelled.
- EmotionalScore: requires at least one trade, for the same reason; the arithmetic is exact over `real`, so floating-point rounding is not modelled.
- RationalScore: requires at least one trade, for the same reason as EmotionalScore; the arithmetic is exact over `real`, so floating-point rounding is not modelled.
- ScoresCoverSession: holds for the exact-real model only; in the source's doubles the rounding of the two shares can leave the sum one ulp below 100 (one emotional trade with profit >= 0 and two rational trades with profit <= 0 give 33.33333333333333 + 66.66666666666666).
- TotalProfitSplits: holds for the exact-real model only; the source's `reduce` adds doubles from left to right, so the total need not equal the sum of the two subtotals exactly (emotional 0.1, rational 0.2, emotional -0.3 total 5.551115123125783e-17, while the subtotals add up to 2.7755575615628914e-17).
- ImprovementsTelescope: holds for the exact-real model only; the source's subtraction runs in doubles (discipline deltas 0.1, 0.2, 1.1 give improvements adding up to 1.0000000000000002, while the last minus the first is 1.0).
- Profits, scores, averages and discipline deltas are exact reals throughout the model; IEEE-754 double rounding is not modelled anywhere.
- EscapeReadsBack: the warehouse also treats a backslash inside a single-quoted literal as an escape; that is not modelled, so notes containing `\` are not claimed to read back as written.
- NotesValue: the same backslash caveat as EscapeReadsBack applies.
- `toLowerCase` is modelled on ASCII letters only; full Unicode case mapping is not modelled.
- The user id is taken as its sequence of UTF-16 code units (what `charCodeAt` returns). Converting a string to code units is not modelled.
- `process.env` is not read: the account URL and token are constructor parameters, with a missing value passed as "".
- AsyncStorage, `JSON.parse`/`JSON.stringify` and the `try`/`catch` around them are not modelled. The stored array is the `snapshots` field. Storage exceptions do not exist in the model, so the `success: false` and empty-list error paths do not arise.
- Network calls are not modelled. This covers every `fetch` to the warehouse's statements endpoint, `response.json()`, `parseSnowflakeResults`, the `success: false` result of a failed remote insert, and the fallback of `getTraderEvolution` to the local history when the remote call throws. On the remote path the methods return a description of the request instead (the trader hash, the snapshot and the optional columns' values).
- Only the NULL rules and the quote doubling of the INSERT statement are modelled. The rest of the statement text, and the SELECT statement text, are not. The other string fields (session id, timestamp, bias, market condition) are interpolated without escaping in the source; the model records the market condition as given.
- `console.log`/`console.error` output is not modelled.
- The `TraderInsights` type and the module-level `snowflake` instance are not modelled.
- The UI screens under `market-mirror/app` are not part of this model. This includes the purchase questionnaire's classifier and its remote text-generation fallback.
