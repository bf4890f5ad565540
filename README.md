# SpyTON buy-bot: a Dafny model of the buy-detection pipeline

SpyTON watches TON DEX pools (STONfi and DeDust) for the jetton buys of the Telegram groups that
registered a token. For each enabled group it polls the configured pools through TonAPI. It keeps
the transactions newer than a stored per-pool cursor (`lt`), filters them by a minimum TON
amount, and reads the jetton and USD figures out of the transaction trace with heuristic JSON
searches. It stores one buy row per event and moves the cursor forward. Every buy is posted to
the group. The buy is also cross-posted to a trending channel unless a short-lived fingerprint map
says it was just posted. A leaderboard service ranks tokens by windowed USD volume and keeps one
trending message in the channel up to date.

The model, one Dafny module per concern:

- `Wrappers`: `Option` and `Result`.
- `Text`: Python's `strip`/`lstrip`, `lower`/`upper`, `split`, `str(int)`.
- `Json`: decoded JSON payloads as a tagged union, plus Python truthiness, `or`, `dict.get`, `int()`, `float()`.
- `Utils`: `utils.py`.
- `Trace`: the walk and search helpers of `pool_watcher.py`.
- `Db`: `db.py`. A `Database` class holds the `groups` map, the `pool_cursors` map and the append-only `buys` log. The leaderboard query is a pure function over the log.
- `Formatters`: the structural choices of `formatters.py`.
- `DexScreener`: best-pair selection and pool discovery of `dexscreener.py`.
- `Metrics`: the `MetricsCache` class and `fetch_token_metrics`. A snapshot is a map over a `Field` datatype. `Name` gives each field's dict key, `"<dex>_pool"` for a pool, and `NameInjective` shows that distinct fields have distinct keys, so the map is the dict the source builds.
- `Poller`: `PoolWatcher.poll_pool` and `poll_group`.
- `Leaderboard`: the `LeaderboardService` class.
- `Bot`: the pieces of `main.py`. These are the channel de-duplication map, the fingerprint and rank-key expressions of `polling_loop`, `parse_chat_id`, and `/setpool`.

Network answers, Telegram outcomes and clock readings are parameters. For example, `accounts`
maps a pool to its fetched payload, and a missing pool means the request raised. `traces` maps a
trace id to its trace. `now` and `times` are clock readings. `EditOutcome` and `SendOutcome` are
what Telegram did.

## Model

| member | source | states |
|---|---|---|
| Text.Strip | utils.py:6 | the result has no leading or trailing whitespace, is no longer than the input, and a text without whitespace is unchanged |
| Text.StripTrims | utils.py:6 | `strip()` removes only whitespace: the result is the infix of the input that follows its leading whitespace, and every character cut off on either side is whitespace |
| Text.StripLeading | leaderboard.py:13 | `lstrip("@")` removes exactly the leading run of `@`, and the result does not start with `@` |
| Text.Lower | dexscreener.py:57 | `lower()` maps every character and keeps the length |
| Text.Upper | main.py:197 | `upper()` maps every character and keeps the length |
| Text.Split | main.py:188 | `split()` yields only non-empty words without whitespace |
| Text.SplitSpaces | main.py:188 | text made only of whitespace splits into no words |
| Text.SplitWord | main.py:188 | whitespace, then a word, then text that is empty or starts with whitespace, splits into that word followed by the words of the rest: the words are the maximal runs of non-whitespace, in order |
| Text.NatToStringValue | main.py:51 | reading back the decimal text of a natural number gives the number |
| Json.PyOr | pool_watcher.py:116 | `a or b` is one of its operands, and is truthy iff either operand is |
| Json.PyIter | dexscreener.py:56 | iterating a list gives its items, a dict its keys and a string its characters; anything else raises; the result is empty iff the value is falsy |
| Json.TruncateTowardZero | utils.py:25 | `int(x)` of a float truncates toward zero on both signs |
| Json.DecimalValue | pool_watcher.py:35-36 | a digit string with at most one dot reads as a non-negative number |
| Json.DecimalValueScaled | pool_watcher.py:35-36 | `float(s)` of such a string is the integer its digits denote with the dot removed, divided by ten to the number of digits after the dot (the integer itself when there is no dot) |
| Json.PyInt | utils.py:25 | Python's `int(v)` on a decoded value: bools as 0/1, ints as they are, floats truncated toward zero, stripped numeral strings; `None` where `int` raises. Related to `float(v)` by Json.PyIntAgreesWithPyFloat |
| Json.PyFloat | pool_watcher.py:71 | Python's `float(v)`: numbers as their value, stripped decimal strings as by Json.DecimalValueScaled; `None` where `float` raises |
| Json.PyIntAgreesWithPyFloat | utils.py:25 | whatever `int(v)` accepts `float(v)` accepts too, with the same number, except that for a float `int` truncates toward zero what `float` gives |
| Json.DigitsAreDecimal | pool_watcher.py:71 | a non-empty run of digits is a decimal literal whose `float` value is the number its digits denote |
| Utils.Abbreviate | utils.py:9 | for an address longer than 2·keep+3: the first `keep` characters, "..." and the last `keep`, 2·keep+3 characters in all; with keep 0 the whole address behind "..." (`addr[-0:]` is the whole string) |
| Utils.ShortAddr | utils.py:3-9 | "Unknown" for a missing or empty address; a stripped address of at most 2·keep+3 characters as it is; otherwise the first `keep` characters, "...", the last `keep` characters (the whole address after "..." when keep is 0) |
| Utils.TonviewerTxLink | utils.py:11-14 | no link iff the hash is missing or empty; otherwise the fixed explorer prefix followed by the stripped hash |
| Utils.KeepSymbolChars | utils.py:18 | the filter keeps only characters of `[A-Za-z0-9_$]`, never lengthens the text, and keeps a single character exactly when it is in that class |
| Utils.KeepSymbolCharsAppend | utils.py:18 | the filter works character by character: filtering a concatenation concatenates the filtered parts |
| Utils.SafeSymbol | utils.py:16-19 | the result uses only `[A-Za-z0-9_$]`, has 1 to 16 characters, is "TOKEN" when nothing survives the filter, and is otherwise the first min(n, 16) characters of the n filtered characters of the stripped text |
| Utils.SafeSymbolOfValid | utils.py:16-19 | a valid symbol of at most 16 characters is left unchanged |
| Utils.SafeSymbolIdempotent | utils.py:16-19 | `safe_symbol` is idempotent |
| Utils.NanoToTon | utils.py:21-27 | `None` iff the input is `None` or `int()` rejects it (for strings: the model reads ASCII digits only); otherwise the value times 10^9 is the integer |
| Utils.NanoToUnits | utils.py:29-35 | `None` iff `int()` rejects the input (for strings: the model reads ASCII digits only); otherwise the value times 10^decimals is the integer |
| Utils.NanoToUnitsNine | utils.py:21-35 | with nine decimals the two conversions agree on every input |
| Trace.Walk | pool_watcher.py:11-18 | `_walk` as a sequence of (key, value) pairs; its order and reach are stated by Trace.WalkPreorder and Trace.WalkReachesChildren |
| Trace.WalkPreorder | pool_watcher.py:11-18 | in the walk, every yielded pair is followed at once by the walk of its own value (pre-order, the pair before its contents) |
| Trace.WalkReachesChildren | pool_watcher.py:11-18 | every pair of a dict, and every pair reached inside a dict value or a list item, is in the walk |
| Trace.FirstUnder | pool_watcher.py:20-24 | `_find_first` on the walk; its result is stated by Trace.FirstUnderIsFirst and Trace.FirstUnderAbsent |
| Trace.FirstUnderIsFirst | pool_watcher.py:20-24 | the value found is that of the first walked pair whose key is searched for |
| Trace.FirstUnderAbsent | pool_watcher.py:24 | with no searched key in the walk the result is `None` |
| Trace.FindFirst | pool_watcher.py:20-24 | the loop returns the value of the first walked pair under one of the keys |
| Trace.NumbersInAppend | pool_watcher.py:26-39 | the search over two stretches of a walk is the search over the first followed by the search over the second |
| Trace.NumbersIn | pool_watcher.py:26-39 | `_find_numbers` on the walk; stated by Trace.NumbersInSound, Trace.NumbersInComplete and Trace.NumbersInAppend |
| Trace.NumbersInSound | pool_watcher.py:26-39 | every number found is the value of a walked pair under one of the keys |
| Trace.NumbersInComplete | pool_watcher.py:26-39 | every numeric candidate under one of the keys is found |
| Trace.FindNumbers | pool_watcher.py:26-39 | the loop appends, in walk order, exactly the int/float/bool values and the stripped strings of ASCII digits with at most one dot under the keys |
| Trace.MaxOrNone | pool_watcher.py:68 | `None` iff there are no numbers; otherwise a member of the list at least as large as every other |
| Trace.JettonTransfer | pool_watcher.py:41-75 | a falsy trace gives (None, None); otherwise the amount is the largest number found under the exact amount keys, or else `float` of the last raw amount-like value, and the recipient is the one the walk of the trace last sets (see LastRecipientIsLast and LastRecipientAbsent) |
| Trace.LastRecipientIsLast | pool_watcher.py:55-57 | the recipient is the value of the last pair that sets it |
| Trace.LastRecipientAbsent | pool_watcher.py:51-57 | there is no recipient iff no walked pair sets one |
| Trace.CamelCaseAmountOnlyInFallback | pool_watcher.py:54-67 | "jettonAmount" is not found by the number search (its keys are not lowercased), so it is used only as the raw fallback, and an "amount" number wins over it |
| Trace.ExtractJettonTransfer | pool_watcher.py:41-75 | the one-pass loop overwriting `recipient` and `amount_raw`, then the number search, gives the pair of `JettonTransfer` |
| Db.ConfigOf | db.py:71-88 | `get_group` reads the row as a config: the flags are true iff the column is nonzero, and the other columns are copied |
| Db.ApplyAllKeepsOthers | db.py:90-96 | columns not named in the update keep their values |
| Db.ApplyOne | db.py:90-96 | a single assignment changes exactly its column |
| Db.Ensured | db.py:67-69 | insert-or-ignore adds the default row only for a new id and leaves every existing row unchanged |
| Db.EnsuredIdempotent | db.py:67-69 | `ensure_group` is idempotent |
| Db.Recent | db.py:121-135 | the rows kept by the window are exactly the logged buys with `ts >= now - window` |
| Db.RecentCounts | db.py:121-135 | a buy inside the window is kept as many times as the table holds it, and one outside it never, so the `COUNT(*)` and `SUM` over the kept rows count each logged buy once |
| Db.RecentAppend | db.py:121-135 | the `WHERE` clause is decided row by row: filtering two runs of rows concatenates their filtered runs |
| Db.HasKeySnoc | db.py:124 | a key occurs in a longer log iff it occurs in the prefix or in the last row |
| Db.DistinctKeys | db.py:129 | `GROUP BY key` yields each occurring key exactly once |
| Db.CountOfPositive | db.py:126 | a group's count is positive exactly for the keys that occur |
| Db.Grouped | db.py:121-135 | one row per key, with the summed volume (null as 0) and the count of that key |
| Db.Insert | db.py:130 | insertion adds exactly one row (multiset) |
| Db.InsertOrdered | db.py:130 | insertion into an ordered list keeps it ordered by volume, then count, descending |
| Db.InsertKeysDistinct | db.py:130 | inserting a new key keeps the keys distinct |
| Db.SortRows | db.py:130 | the ordering is a permutation of the grouped rows |
| Db.SortRowsOrdered | db.py:130 | the sorted rows are ordered by volume, then count, descending |
| Db.SortRowsKeysDistinct | db.py:130 | sorting keeps keys distinct |
| Db.Take | db.py:131 | `LIMIT n` keeps a prefix of n rows, and all rows for a negative or large limit |
| Db.Leaderboard | db.py:121-135 | the result of `get_recent_leaderboard`; stated by Db.LeaderboardRows and Db.LeaderboardTopN |
| Db.LeaderboardRows | db.py:121-135 | the query result has distinct keys, is ordered, has at most `limit` rows, and each row is the exact windowed sum and count (at least 1) of an occurring key |
| Db.GroupedKeysDistinct | db.py:129 | `GROUP BY key` yields one row per key |
| Db.SortedGroupRow | db.py:124-130 | each sorted row is the windowed sum and count, at least 1, of a key that occurs |
| Db.TakeKeeps | db.py:131 | `LIMIT` keeps distinct keys and the order |
| Db.LeaderboardTopN | db.py:121-135 | a recent key without a row ranks no higher than every row shown, and with no limit or a large enough one every recent key has a row |
| Db.KeyRowSorted | db.py:124-130 | the grouped row of every recent key is among the sorted rows, which number one per key |
| Db.TakeRanksAbove | db.py:130-131 | a sorted row cut off by `LIMIT` ranks no higher than every row kept |
| Db.Database.constructor | db.py:8-37 | the schema starts with three empty tables |
| Db.Database.GetPoolCursor | db.py:106-109 | the stored `last_lt`, or 0 for a pool never written |
| Db.Database.SetPoolCursor | db.py:98-104 | an upsert: the pool reads back the value and other pools are unchanged, with no monotonicity check; an int SQLite cannot bind raises and changes nothing |
| Db.Database.EnsureGroup | db.py:67-69 | the groups table becomes the insert-or-ignore result; the other tables are unchanged |
| Db.Database.GetGroup | db.py:71-88 | ensures the row, then returns its config |
| Db.Database.SetGroupFields | db.py:90-96 | ensures the row, then updates only the named columns of that one group; with no fields the statement fails after the row was ensured |
| Db.Database.AddBuy | db.py:111-119 | appends exactly one row to the log and changes no other row or table; an unbindable value raises and changes nothing |
| Db.Database.GetRecentLeaderboard | db.py:121-135 | the result is the query over the current log: distinct keys, ordered, at most `limit` rows |
| Db.Database.GetEnabledGroups | db.py:137-140 | exactly the groups whose `enabled` is 1, in ascending id order |
| Db.SmallestExists | db.py:137-140 | every non-empty set of group ids has a smallest one (the scan order) |
| Formatters.StrengthCount | formatters.py:23-30 | the number of dots is one of 8, 12, 18, 24, 30, and 12 for an unknown amount |
| Formatters.StrengthMonotone | formatters.py:26-30 | a larger known amount never earns fewer dots |
| Formatters.Repeat | formatters.py:35 | `dot * n` has n copies of `dot` (none for n ≤ 0) |
| Formatters.GridRowsFromShape | formatters.py:32-36 | the rows from offset i are ⌈(count−i)/per_row⌉ runs of the dot, each full except possibly the last, with count−i dots in all |
| Formatters.GridRowsCount | formatters.py:32-36 | the rows from offset i are empty iff i ≥ count, and otherwise number ⌈(count−i)/per_row⌉ |
| Formatters.GridRowsRuns | formatters.py:32-36 | each row is a run of the dot; all but the last are full and the last holds 1 to per_row dots |
| Formatters.GridRowsTotal | formatters.py:32-36 | the rows from offset i hold count−i dots in all |
| Formatters.GridText | formatters.py:32-36 | `_grid`; its shape is stated by Formatters.GridShape, and Formatters.Grid is the loop proved equal to it |
| Formatters.GridShape | formatters.py:32-36 | the grid is empty for count ≤ 0 and contains exactly `count` dots, in full rows of `per_row` and one possibly shorter last row |
| Formatters.Grid | formatters.py:32-36 | the loop builds and joins the rows of `GridText` |
| Formatters.JoinLinesCount | formatters.py:36 | joining runs of the dot with newlines keeps exactly their dots |
| Formatters.Header | formatters.py:132 | the header starts with the red circle and ends with the bot's username |
| Formatters.Footer | formatters.py:149 | the footer ends with the bot's username followed by " every 10 seconds" |
| Formatters.RowLines | formatters.py:141-148 | one row per item |
| Formatters.BandRow | formatters.py:141-148 | in a band starting at item a, the row of item k shows rank k+1 and item k's key |
| Formatters.LeaderboardLines | formatters.py:130-149 | the lines `format_leaderboard` joins number min(15, n) + 6 |
| Formatters.LeaderboardPieces | formatters.py:130-150 | the lines are the header pair, the three bands with their separators, and the footer pair, with band sizes min(3,n), min(10,n)−min(3,n), min(15,n)−min(10,n) |
| Formatters.LeaderboardLayout | formatters.py:130-150 | min(15,n)+6 lines: header first, footer last, both separators always present after the first and second bands; items numbered 1, 2, … in order, red for ranks 1–3, black for 4–10, green above; header and footer use the name without leading `@` |
| Formatters.FramedLaidOut | formatters.py:131-149 | the three slices `[:3]`, `[3:10]`, `[10:15]`, numbered from 1, 4 and 11 between header, separators and footer, give that layout |
| Formatters.JoinLinesEdges | formatters.py:150 | the joined text starts with the first line's first character and ends with the last line's last character |
| Formatters.StripNoEdgeSpace | formatters.py:150 | the final `strip()` leaves a text alone whose ends are not whitespace |
| Formatters.LeaderboardTextStripped | formatters.py:150 | the final `strip()` removes nothing from the joined leaderboard text |
| Formatters.AppendRows | formatters.py:141-148 | one `enumerate` loop appends exactly the band's rows |
| Formatters.FormatLeaderboard | formatters.py:130-150 | the method's text is the joined leaderboard lines, so the layout lemmas apply to it |
| Formatters.SymbolOf | formatters.py:39 | the symbol shown is never empty |
| Formatters.SymbolOfCases | formatters.py:39 | a present non-empty symbol is shown as it is; a missing or empty one shows as `TOKEN` |
| Formatters.RankPrefix | formatters.py:40 | the prefix is empty iff the rank is missing or 0, and otherwise "[r] " |
| Formatters.ChannelPost | formatters.py:38-85 | `format_channel_buy`; related to the group post by Formatters.ChannelAndGroupPosts |
| Formatters.GroupPost | formatters.py:87-128 | `format_group_buy`; related to the channel post by Formatters.ChannelAndGroupPosts |
| Formatters.ChannelAndGroupPosts | formatters.py:38-128 | the channel headline is the group headline behind the rank prefix and "$"; both meters hold `StrengthCount` dots; the group post has no keyboard; the channel post has one button linking to the given URL |
| DexScreener.LiquidityKey | dexscreener.py:41 | the sort key is computed iff the pair is a dict whose liquidity entry is a dict (or falsy), and it is truthy or 0 |
| DexScreener.LiquidityKeys | dexscreener.py:41 | the keys of all pairs are computed iff none raises, one per pair |
| DexScreener.FirstMaxIndex | dexscreener.py:41-42 | the index of a maximal value that no earlier value equals |
| DexScreener.NumberValues | dexscreener.py:41 | the numeric values of the keys, position by position |
| DexScreener.ExtractBestPair | dexscreener.py:29-42 | `None` for a falsy answer, a falsy pair list or an answer that is neither list nor dict; a pair it returns has a valid sort key |
| DexScreener.ExtractBestPairIsBest | dexscreener.py:29-42 | `None` for a falsy answer, a non-list/non-dict, or an empty pair list; otherwise a pair of the list with maximal liquidity, and the first such pair (stable sort) |
| DexScreener.BestPairExamples | dexscreener.py:41-42 | example: a single pair is chosen, and of two equal pairs the first wins |
| DexScreener.LowerOrEmpty | dexscreener.py:57-59 | `(x or "").lower()` succeeds iff x is falsy or a string, and is the lowered string or "" |
| DexScreener.PairAddressOf | dexscreener.py:60-62 | an address that is used is a non-empty string |
| DexScreener.PairAddressOrder | dexscreener.py:60-62 | the first truthy of `pairAddress`, `pair` and `pair_id` decides: the pair has an address exactly when that value is a string (a non-empty one for `pair_id`), and the address is that string |
| DexScreener.SetDefault | dexscreener.py:65-67 | `setdefault` keeps an existing entry and otherwise adds the new one |
| DexScreener.PoolsOf | dexscreener.py:45-69 | `find_pools_for_dexes`; stated by DexScreener.PoolsFromFirstWins and DexScreener.PoolsFromErr, and DexScreener.FindPoolsForDexes is the loop proved equal to it |
| DexScreener.PoolsFromFirstWins | dexscreener.py:50-69 | only "stonfi" and "dedust" are filled, with non-empty addresses; a slot is filled iff some pair fills it, and then holds the address of the first such pair |
| DexScreener.PoolsStepSlots | dexscreener.py:56-67 | one pair leaves only the two slots filled, each with a non-empty address |
| DexScreener.PoolsStepSlot | dexscreener.py:60-67 | one pair: a filled slot keeps its address (`setdefault`); an empty slot is filled exactly when the pair fills it, with its address |
| DexScreener.PoolsFromSlots | dexscreener.py:50-69 | the whole loop fills only "stonfi" and "dedust", with non-empty addresses |
| DexScreener.PoolsFromFilled | dexscreener.py:56-67 | a slot that some pair fills ends up filled |
| DexScreener.PoolsFromFirst | dexscreener.py:56-67 | a filled slot holds the address of the first pair that fills it |
| DexScreener.FindPoolsForDexes | dexscreener.py:44-69 | the loop computes `PoolsOf` of the answer, including raising on a pair that is not a dict |
| DexScreener.PoolsFromErr | dexscreener.py:56-67 | once a pair raises, the whole call raises |
| Metrics.MetricsCache.constructor | metrics.py:8-11 | an empty cache with the given TTL |
| Metrics.MetricsCache.Get | metrics.py:13-20 | `None` for an absent key; a stored value is returned iff `now − stored_ts ≤ ttl`, so an entry exactly `ttl` old is still fresh |
| Metrics.MetricsCache.Set | metrics.py:22-23 | overwrites the key's entry with the current time and leaves other keys unchanged |
| Metrics.NameMark | metrics.py:36-68 | every snapshot key has at least five characters, and its third character from the end is `o` exactly for the `"<dex>_pool"` keys |
| Metrics.NameInjective | metrics.py:36-68 | two fields with the same dict key are the same field, so no pool key overwrites a fixed key or another pool |
| Metrics.InfoFields | metrics.py:33-41 | only holders, symbol and decimals; nothing without a dict answer; holders whenever there is one |
| Metrics.MarketData | metrics.py:43-54 | a truthy pairs answer is used as is |
| Metrics.PairFields | metrics.py:56-66 | the five fields of the best pair, with liquidity taken from its `liquidity.usd` |
| Metrics.PoolFields | metrics.py:67-68 | each discovered pool appears under its `"<dex>_pool"` key with its address, and no other key is added |
| Metrics.Assemble | metrics.py:31-70 | the dictionary `fetch_token_metrics` builds from its three answers; stated by Metrics.FailedSourcesLeaveFieldsAbsent, Metrics.InfoMissing and Metrics.MarketMissing |
| Metrics.FailedSourcesLeaveFieldsAbsent | metrics.py:34-70 | without jetton info only market fields are present; without any market answer only the info fields are |
| Metrics.InfoMissing | metrics.py:34-41 | with no jetton info the snapshot is exactly the market fields |
| Metrics.MarketMissing | metrics.py:44-70 | with neither market answer the snapshot is exactly the info fields |
| Metrics.NoMarketNoFields | metrics.py:56-70 | a `None` market answer yields no best pair and no pools, hence no market key at all |
| Metrics.PoolsAppearInSnapshot | metrics.py:67-68 | when nothing raised, a discovered pool appears under "<dex>_pool" in the snapshot |
| Metrics.FetchTokenMetrics | metrics.py:25-73 | a fresh non-empty cached snapshot is returned with no request and no store; a miss or an empty snapshot assembles, stores and returns the snapshot; the latest endpoint is consulted iff the pairs answer is falsy |
| Metrics.AssembleOf | metrics.py:31-70 | the miss path computes `Assemble` of the answers, and consults the latest endpoint iff the pairs answer is falsy |
| Metrics.InfoFieldsOf | metrics.py:34-41 | the TonAPI assignments compute `InfoFields`: `holders` for a dict answer, `symbol` and `decimals` only when `metadata` is a dict |
| Metrics.MarketFieldsOf | metrics.py:56-70 | the statements compute the market fields, stopping at an exception |
| Metrics.PairFieldsOf | metrics.py:58-65 | the five assignments from the best pair compute `PairFields` |
| Poller.ParseLt | pool_watcher.py:96-102 | a nonzero `lt` comes only from a dict transaction with a dict `transaction_id` (a parse failure counts as 0) |
| Poller.NewTxs | pool_watcher.py:96-105 | every selected pair has a nonzero `lt` strictly above the cursor |
| Poller.NewTxsExact | pool_watcher.py:96-105 | the selection holds exactly the fetched transactions with a nonzero `lt` above the cursor, in fetch order |
| Poller.InsertByLt | pool_watcher.py:107 | insertion adds exactly one pair |
| Poller.SortByLt | pool_watcher.py:107 | the sort is a permutation |
| Poller.InsertByLtSorted | pool_watcher.py:107 | insertion keeps ascending `lt` order |
| Poller.SortByLtSorted | pool_watcher.py:107 | transactions are processed in ascending `lt` order, none lost or duplicated |
| Poller.SortByLtOfSorted | pool_watcher.py:107 | the sort is stable: an already ordered list is unchanged |
| Poller.MaxLt | pool_watcher.py:108-112 | `newest_lt` is at least the cursor and every selected `lt`, and is the cursor or one of them |
| Poller.MaxLtPermutation | pool_watcher.py:108-112 | the final `newest_lt` does not depend on the processing order |
| Poller.Rescale | pool_watcher.py:134-138 | a figure above 10^12 is divided by 10^9; one at or below is kept |
| Poller.RescaleExamples | pool_watcher.py:134-138 | example: 5·10^12 becomes 5000 and 500 stays 500; the cut is not monotone just above 10^12 |
| Poller.ProcessTx | pool_watcher.py:113-163 | the iteration raises iff the tx, its `in_msg` or its `transaction_id` is not a dict; it skips iff a known TON amount is below a nonzero minimum; an event carries the pool's dex, the group symbol, the configured jetton and the TON amount, and passes the filter; its hash is the truthy `transaction_id.hash`, else the top-level `hash`; its buyer is the first truthy of `in_msg` `source`, `src`, `from` (never the trace recipient); its USD and jetton amounts come from the trace when found there, else the largest number under the fallback keys of the transaction, else None |
| Poller.RowsOf | pool_watcher.py:165-177 | one row per event, in order |
| Poller.StepOf | pool_watcher.py:113-177 | one iteration stores exactly the rows of the events it emits; a skip does nothing; a raise emits nothing |
| Poller.ThenAssoc | pool_watcher.py:112-177 | running three stretches of the loop in sequence does not depend on grouping |
| Poller.RunTxsRows | pool_watcher.py:112-177 | each stored row is the row of the event emitted just before it, in the same order; every event is for this dex and symbol and passes the filter |
| Poller.RunTxsAllSkipped | pool_watcher.py:120-121 | a loop where every transaction is filtered out emits nothing, stores nothing and does not raise |
| Poller.MaxLtOfNew | pool_watcher.py:104-112 | over a non-empty selection, `newest_lt` is above the cursor and is the `lt` of a fetched transaction |
| Poller.PoolRun | pool_watcher.py:88-180 | what `poll_pool` returns and stores for one pool; stated by Poller.PoolCursorAdvances and Poller.PoolEventsStored |
| Poller.PoolCursorAdvances | pool_watcher.py:90-179 | no cursor is written when the fetch fails or nothing is new; a written cursor is the largest new `lt`, strictly above the old cursor, and the `lt` of a fetched transaction |
| Poller.FilteredStillAdvance | pool_watcher.py:108-179 | when every new transaction is filtered, no event and no row appear but the cursor still moves to the largest new `lt` |
| Poller.SkippedPermuted | pool_watcher.py:107-121 | whether every transaction is filtered does not depend on their order |
| Poller.PoolEventsStored | pool_watcher.py:153-177 | every emitted event passes the filter, is for the pool's dex, and is stored exactly once in emission order |
| Poller.ParseLtOf | pool_watcher.py:96-102 | a transaction carrying only its `lt` parses to it |
| Poller.NewTxsSnoc | pool_watcher.py:96-105 | one more fetched transaction is selected iff its `lt` is nonzero and above the cursor |
| Poller.SelectionExample | pool_watcher.py:96-112 | example: `lt`s 5, 3, 9, 1 against cursor 3 select 5 and 9 in that order, and the cursor becomes 9 |
| Poller.SelectionExampleKept | pool_watcher.py:96-105 | example: of `lt`s 5, 3, 9, 1 against cursor 3, exactly 5 and 9 are kept, in fetch order |
| Poller.NewTxsStep | pool_watcher.py:96-105 | one more transaction is appended to the selection iff its `lt` is non-zero and above the cursor |
| Poller.SelectNew | pool_watcher.py:96-105 | the selection loop computes `NewTxs` |
| Poller.ProcessOne | pool_watcher.py:113-177 | one iteration builds its event, then stores its row; other tables are unchanged |
| Poller.ProcessSorted | pool_watcher.py:112-177 | the loop stops at the first raise; the rows it stored stay; without a raise its events and `newest_lt` are those of the specification |
| Poller.MaxLtStep | pool_watcher.py:112 | one more transaction takes `max(newest_lt, lt)` |
| Poller.RunStep | pool_watcher.py:112-177 | the processing loop's invariant is kept by one more transaction |
| Poller.PollPool | pool_watcher.py:88-180 | reads the cursor, selects and sorts the new transactions, stores one row per event, and writes the cursor exactly as `PoolRun` says; groups are untouched |
| Poller.BuildEvent | pool_watcher.py:113-163 | the statements of one iteration, using the trace searches, compute `ProcessTx` |
| Poller.PoolStepEvents | pool_watcher.py:88-180 | every event of a pool task is for that task's dex and passes the filter |
| Poller.GroupRun | pool_watcher.py:82-195 | what `poll_group` returns and stores; stated by Poller.GroupEventsOrdered and Bot.StoredRowsUnderRankKey |
| Poller.GroupEventsOrdered | pool_watcher.py:82-195 | a disabled group or one without pools yields nothing and changes nothing; every event passes the filter; all STONfi events precede all DeDust events |
| Poller.PollPoolStep | pool_watcher.py:182-189 | an unconfigured pool is skipped; a raising task adds no events but keeps its rows |
| Poller.PollGroup | pool_watcher.py:82-195 | the two pool tasks in list order give `GroupRun`'s events, cursors and rows |
| Leaderboard.RankMapOf | leaderboard.py:39 | the `rank_map` comprehension; stated by Leaderboard.RankMapCovers, Leaderboard.RankMapSound and Leaderboard.RankMapPositions |
| Leaderboard.RankMapCovers | leaderboard.py:39 | every key of the list is ranked |
| Leaderboard.RankMapSound | leaderboard.py:39 | every ranked key maps to a 1-based position of the list that holds that key (with duplicates, the last one) |
| Leaderboard.RankMapPositions | leaderboard.py:39 | with distinct keys, as the query returns them, each key maps to its own 1-based position, and only the list's keys are ranked |
| Leaderboard.BuildRankMap | leaderboard.py:39 | the comprehension as a loop computes `RankMapOf` |
| Leaderboard.LeaderboardService.constructor | leaderboard.py:9-18 | leading `@`s are stripped from `updated_by`, the window is minutes × 60, and there is no message and an empty rank map |
| Leaderboard.LeaderboardService.SetMessageId | leaderboard.py:20-21 | stores the given id and nothing else |
| Leaderboard.LeaderboardService.UpdateOnce | leaderboard.py:36-51 | the rank map is rebuilt from the current leaderboard before any delivery, so it is refreshed even if delivery fails; the text is the rendered leaderboard; no message → send and store the id; edit ok → id kept; `TelegramBadRequest` → send and replace the id; another failure raises with the id kept |
| Leaderboard.LeaderboardService.Refresh | leaderboard.py:37-40 | `rank_map` is replaced by the ranks of the current top 15 and the text is the rendered leaderboard; the message id is untouched |
| Leaderboard.LeaderboardService.Deliver | leaderboard.py:42-51 | the `message_id` transitions of the send/edit outcomes, changing no other field |
| Bot.Sweep | main.py:31-33 | the sweep keeps exactly the entries at most 120 s old, with their timestamps |
| Bot.SeenStep | main.py:29-37 | seen iff the key is still live after the sweep, and then its stored time is unchanged; otherwise the key is recorded at `now`; afterwards no entry is more than 120 s old |
| Bot.DedupBoundary | main.py:31 | example: an entry exactly 120 s old is still live; one 120.5 s old is not |
| Bot.ChannelDedup.constructor | main.py:27 | the module-level map starts empty |
| Bot.ChannelDedup.Seen | main.py:29-37 | collecting the expired keys and popping them one by one, then the lookup or insert, gives `SeenStep` |
| Bot.ChannelDedup.SeenAll | main.py:528-541 | `_channel_seen` for each buy in turn gives `ChannelRun` |
| Bot.ChannelRun | main.py:540 | one decision per buy, and the last key is in the map afterwards |
| Bot.ChannelRunSnoc | main.py:540 | one more buy keeps the earlier decisions and adds `_channel_seen` on the map so far |
| Bot.LiveSurvivesStep | main.py:29-37 | an entry at most 120 s old survives `_channel_seen` with its timestamp, and makes its own key seen |
| Bot.ChannelPostsLive | main.py:26-37 | with a monotone clock and a run within 120 s, every posted key is still recorded at the time of its post |
| Bot.ChannelPostsDistinct | main.py:26-37 | with a monotone clock and a run within 120 s, no key reaches the channel twice |
| Bot.FingerprintAsWritten | main.py:539 | the expression yields the hash iff the hash is truthy; otherwise it raises |
| Bot.FingerprintAsWrittenRaises | main.py:539 | a buy without a hash cannot be fingerprinted as written |
| Bot.FingerprintKey | main.py:539 | the hash iff it is non-empty; otherwise the composite of dex, pool, buyer, TON amount, jetton amount and time |
| Bot.FingerprintCorrected | main.py:539 | the corrected key agrees with the written one wherever that does not raise, and two hashless buys share a key only when they agree on every component |
| Bot.OrStr | main.py:534 | `a or b` on an optional string |
| Bot.RankKeyAsWritten | main.py:530 | symbol, else jetton address, else "UNKNOWN" |
| Bot.RankKey | pool_watcher.py:86 | the corrected lookup key is the stored symbol `safe_symbol(token_symbol or "TOKEN")` |
| Bot.PoolRunRowsKeyed | pool_watcher.py:165-177 | every row a pool run stores carries the run's symbol |
| Bot.PoolStepRowsKeyed | pool_watcher.py:86-177 | every row a pool task stores carries the group's sanitised symbol |
| Bot.StoredRowsUnderRankKey | db.py:124 | every buy the poller stores for a group is grouped by the leaderboard under `RankKey` |
| Bot.KeyedConcat | pool_watcher.py:182-195 | the rows of the two pool tasks, each carrying the group symbol, are all grouped under it |
| Bot.RankKeyAsWrittenMisses | main.py:530-531 | for a group without a token symbol, the written lookup key never matches the key its own buys are grouped under ("TOKEN") |
| Bot.Annotate | main.py:530-534 | the rank is the rank map's entry for the key, the jetton is the group's, the symbol is sanitised, and the trade fields are unchanged |
| Bot.AnnotatedRankAndSymbol | main.py:530-534 | with the corrected key, a group ranked i-th on the leaderboard gets rank i+1 and the symbol its rows are keyed by |
| Bot.AnnotateAll | main.py:528-534 | every buy of a group is annotated, in order |
| Bot.KeysOf | main.py:539 | one corrected fingerprint per annotated buy |
| Bot.DeliverGroup | main.py:528-541 | with the channel target corrected to `trending_channel_id`: every buy is posted to the group, in order; only the channel post is gated by `_channel_seen`; the map becomes that of the run |
| Bot.DeliverAsWritten | main.py:536-541 | the round as written: a buy whose key is new is recorded, then reading the missing channel attribute raises; at most all buys are posted to the group |
| Bot.DeliverAsWrittenStops | main.py:536-543 | as written the round raises iff the corrected round would cross-post some buy; it stops right after the first such buy, having posted exactly the buys up to it to the group and recorded its key, and otherwise leaves the same map as the corrected round |
| Bot.AsWrittenFirstNewBuyRaises | main.py:540-541 | a fresh map and one buy: the corrected round cross-posts it, while as written the key is recorded and the round raises |
| Bot.FirstPost | main.py:540 | the position of the first buy `_channel_seen` finds new: every earlier buy is seen |
| Bot.Deliveries | main.py:536-541 | one delivery per buy, in order: the annotated buy with its channel gate |
| Bot.DeliveredOnce | main.py:537-541 | within a group's run of buys inside 120 s, no fingerprint is cross-posted twice |
| Bot.NormalizeDashes | main.py:46 | en dash, em dash and minus sign become `-`, character by character |
| Bot.FirstDigit | main.py:48 | the position of the first digit |
| Bot.DigitPrefix | main.py:48 | the leading run of digits: a prefix of the text, all digits, followed by a non-digit or the end |
| Bot.SearchInt | main.py:48-51 | the search fails iff the text has no digit |
| Bot.ParseChatId | main.py:43-51 | `ValueError` iff the stripped, normalised text has no digit |
| Bot.SearchDigits | main.py:48-51 | a run of digits reads as its value |
| Bot.SearchNegDigits | main.py:48-51 | a `-` before a run of digits reads as the negated value |
| Bot.SearchAfterDash | main.py:48 | a text starting with `-` and a digit reads as the negated leading run after the `-` |
| Bot.DashDigitsNormalize | main.py:45-46 | digits after any of the four dashes strip and normalise to `-` and the digits |
| Bot.DashDigits | main.py:43-51 | digits after any of the four dashes parse as a negative number, and without one as a natural number |
| Bot.DigitPrefixAll | main.py:48 | a text of digits is one whole run |
| Bot.ParseChatIdRoundTrip | main.py:43-51 | `parse_chat_id(str(n)) == n` for every id, negative group ids included |
| Bot.ParseChatIdNoDigits | main.py:49-50 | a missing text or one without digits is rejected |
| Bot.StripInside | main.py:45 | every character of the stripped text is a character of the input |
| Bot.SetPoolCommand | main.py:185-195 | missing arguments or fewer than two words give the usage reply; a first word that is not stonfi/dedust (case-insensitive) is rejected; otherwise the lowered dex and the stripped second word |
| Bot.CmdSetPool | main.py:185-197 | the reply is that of the decision; only a valid command writes, and only the chosen pool column of that one group (after ensuring it); cursors and buys are unchanged |

## Left out

- HTTP clients (`tonapi.py`, the request methods of `dexscreener.py`) are not part of this model. Their answers are parameters, and an absent answer stands for a request that raised.
- Telegram I/O is not modelled: the command handlers other than `/setpool`, the menus, the deep-link base64 helpers, `main()` and the dispatcher. The leaderboard message's send and edit outcomes are parameters of `LeaderboardService`; the buy posts of `polling_loop` are assumed to succeed (see Bot.DeliverGroup below).
- `config.py` is not part of this model (environment variables and defaults).
- Concurrency and timers: `asyncio.gather` runs the two pool tasks one after the other, in list order. `LeaderboardService.start`/`_run`, the outer `polling_loop` loop and every `sleep` are not modelled.
- Clock reads (`time.time()`, the event-loop clock) are parameters: `now` per call, `times` per buy.
- SQLite internals (WAL, commits, SQL parsing) are left out. Tables are maps and a sequence, and the leaderboard query is a function. Ties in both volume and count keep their order of first appearance; SQLite leaves that order unspecified.
- Floating point: amounts are exact reals, with no rounding and no `inf`/`nan`. The `:,.2f`-style number formatting of the buy posts is not modelled, only their structure (headline prefix, meters, keyboard).
- Bot.DeliverGroup: send failures are not modelled. Every post is taken to succeed. In the source a raising `send_message` (main.py:537 or main.py:542) ends the whole round inside the `try`: the remaining buys of the group and all later groups are neither posted nor entered in `_channel_recent`, while their cursors and rows are already stored.
- Json.PyInt, Json.PyFloat, Trace.NumberCandidate: Python's `int()` and `float()` also accept digit underscores (`1_000`) and non-ASCII decimal digits, and `float()` also accepts exponents (`1e3`) and the `inf`/`nan` spellings. The model reads only ASCII digits with an optional sign and one dot, and gives `None` for these forms.
- Utils.NanoToTon, Utils.NanoToUnits: a string with digit underscores or non-ASCII decimal digits gives `None` here; Python's `int()` reads it.
- Trace.FindNumbers, Trace.JettonTransfer: a string whose digits are non-ASCII decimal digits passes `isdigit()` and `float()` in Python and is counted there; the model skips it, and `JettonTransfer` reads its raw amount with the restricted `PyFloat` above. Exponents and underscores fail `isdigit()` in the source too.
- Json.Lookup: a decoded JSON object holds each key once (`json.loads` keeps the last of repeated keys). The model takes the first pair for a key, which is the same for every object `json.loads` can produce.
- Text.Lower, Text.Upper: they act on ASCII letters only and keep the length. Python's `lower()`/`upper()` also map other letters and can change the length (`"İ".lower()` has two characters, `"ß".upper()` is `"SS"`). Elsewhere in the text handling, and `\d` in `parse_chat_id` matches ASCII digits only (Python's also matches other Unicode digits).
- Bot.DeliverGroup: `enrich_event` (main.py:376-389) is not modelled. As written it returns the event only when `jetton_address` is empty, and otherwise falls off the end and returns `None`, so the following post raises. The model posts the annotated event, which is what happens for groups without a jetton address.
- Bot.FingerprintKey: keys are structured values, not the f-string of main.py:539. Distinct payloads with the same text (for example `1` and `1.0`) are not merged.
- Bot.DeliverGroup: the channel target as written, `cfg.trending_channel_username_id or cfg.trending_channel_username_username` (main.py:541), names two attributes the config (config.py:13-27) does not have; it has `trending_channel_id` and `trending_channel_username`. As written, every cross-post therefore raises `AttributeError` after `_channel_seen` has recorded its key, and the round ends; no buy ever reaches the channel. `main()` evaluates the same expression when it builds the `LeaderboardService` (main.py:566), so as written it raises there, before `polling_loop` is started (main.py:594). DeliverGroup models the corrected target `cfg.trending_channel_id`; the written behaviour is DeliverAsWritten (see "## Findings").
- DexScreener.ExtractBestPair: with two or more pairs whose sort keys are not all numbers, the model reports an error. Python also sorts all-string keys; that case is not modelled.
- Metrics.FetchTokenMetrics: the cache is keyed by the jetton address only, as in the source. One injected `now` serves both the freshness test of `get` and the stamp of `set`; the source reads `time.time()` again in `set`, after the awaited requests, so the stored stamp is in fact a little later.
- Formatters: the links section and the holders/price/liquidity/market-cap lines of the buy posts are not modelled, because they depend on `enrich_event`.

## Findings

| source | as written | input that shows it | evidently intended | confidence | as-written member | corrected member |
|---|---|---|---|---|---|---|
| main.py:539 | the fallback fingerprint reads `ev.pool_address` and `ev.ts`, which `BuyEvent` (formatters.py:5-21) does not have | any buy whose `tx_hash` is `None` or `""`: the attribute lookup raises and the polling round is abandoned | fall back to the composite of dex, pool, buyer, TON amount, jetton amount and time | high (not executed) | Bot.FingerprintAsWritten, Bot.FingerprintAsWrittenRaises | Bot.FingerprintKey, Bot.FingerprintCorrected, Bot.DeliverGroup |
| main.py:530-531 | the rank lookup key is `token_symbol or jetton_address or "UNKNOWN"`, while the stored buys are keyed by `safe_symbol(token_symbol or "TOKEN")` (pool_watcher.py:86) | a group with no token symbol: its buys are keyed "TOKEN", but the lookup uses the jetton address or "UNKNOWN", so the group never gets its rank | look up the same key the buys are stored under | high (not executed) | Bot.RankKeyAsWritten, Bot.RankKeyAsWrittenMisses | Bot.RankKey, Bot.StoredRowsUnderRankKey, Bot.AnnotatedRankAndSymbol |
| main.py:541 | the channel target reads `cfg.trending_channel_username_id or cfg.trending_channel_username_username`; `Config` (config.py:13-27) has neither attribute, and main.py:566 reads the same expression in `main()` | any buy whose key `_channel_seen` finds new: the key is recorded, reading the attribute raises `AttributeError`, and the round ends with nothing cross-posted (and `main()` raises at line 566 before `polling_loop` starts) | cross-post to `cfg.trending_channel_id` | high (not executed) | Bot.DeliverAsWritten, Bot.DeliverAsWrittenStops, Bot.AsWrittenFirstNewBuyRaises | Bot.DeliverGroup, Bot.DeliveredOnce |
