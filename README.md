# Solana wallet leaderboard: a Dafny model of its trade pipeline

This project models the core of a Discord bot. The bot keeps a registry of users' Solana
wallets and shows a leaderboard of each wallet's net gain or loss over a day, a week or
30 days. The leaderboard comes from the wallets' recent transactions, fetched from an RPC
provider.

The model covers five parts:

- **Scan** (`scan.dfy`, from the first, HEAD side of `scan.py`). `get_transactions` makes one
  request and retries once only after a 429. `get_transaction_details` falls back to an
  empty record. `export_trades` is a loop. For each signature it fetches the detail record
  and skips the record when any of these is missing: the `transaction` or `meta` section,
  the `message`, a balance array, the wallet in `accountKeys`, an in-bounds index, or
  `blockTime`. For a kept record it appends the block time and `post[i] - pre[i]` to two
  growing columns. Replies from the provider are input values (`Reply`), and so is the
  detail reply for each signature (`detailOf`). A `"result": null` body reaches the caller
  as Python `None`. `export_trades` then raises `TypeError`, and the model shows that as
  `None`.
- **WalletRegistry** (`registry.dfy`). `wallet.json` is a class whose one field is the
  parsed mapping, or `None` when the file is missing or is not valid JSON. `set_wallet`
  reads the file, then inserts or overwrites one entry, then writes the file back.
  `load_wallets` reads a missing file, or one that is not valid JSON, as empty. Python dicts keep insertion order,
  and that order decides how leaderboard ties fall. So the registry is an ordered list of
  (user, address) pairs, and `AsMap` gives its dictionary view.
- **WalletStats** (`stats.dfy`). `get_wallet_stats` picks the window start: `now - 1 day`,
  `now - 7 days` or `now - 30 days`, or for any other period the earliest row. It then sums
  the deltas of the rows at or after that start. The percent change is always `"N/A"`. An
  exception or an empty frame gives `(0, "N/A")`. The checks for a missing `Time` or
  `Wallet Delta` column (bot.py:84-86, 111-113) can never fire on the frame `export_trades`
  builds, so the model has no path for them.
- **Leaderboard** (`leaderboard.dfy`). `generate_leaderboard_embed` builds one entry per
  registered wallet. A user whose display name cannot be found is shown as `UserID(<id>)`.
  The entries are sorted stably by net gain, highest first, as `sort(reverse=True)` does,
  and ranked from 1. The `leaderboard` command accepts a period only when its lower-case
  form is `daily`, `weekly` or `monthly`. `LeaderboardView` remembers the period shown; its
  refresh button and its period menu rebuild the board.
- **Wrappers** (`wrappers.dfy`): the `Option` type.

Amounts are integer lamports throughout. The clock is an integer `now` in Unix seconds.

Where the code's own comments and its statements disagree, the model follows the
statements. The docstring of `get_transaction_details` (scan.py:38-39) and its comment at
scan.py:64 promise an empty dict on failure, never None. But scan.py:59 returns
`data.get("result", {})`, and that is Python `None` when the body is `"result": null`.
`export_trades` then raises, so the wallet loses every row and `get_wallet_stats` returns
`(0, "N/A")`. The model keeps this behaviour (`Scan.FetchAll`, `Scan.Exported`).

## Model

| member | source | states |
|---|---|---|
| `Scan.FinalReply` | scan.py:22-25 | A 429 on the first request makes the retry's reply the one that counts. Any other first reply, an exception included, is final. |
| `Scan.Decoded` | scan.py:26-34 | A 200 reply carrying a result gives exactly that result. A non-200 reply, an exception, an unparseable body or a missing `result` gives the default. Only a 200 reply whose result is null gives Python None. |
| `Scan.GetTransactions` | scan.py:21-34 | At most two requests. A second request happens exactly when the first answered 429. The list is read from the final reply, and a non-200 final status or an exception gives `[]`. |
| `Scan.TransactionDetails` | scan.py:54-65 | A 200 reply carrying a record gives exactly that record. A non-200 reply, an exception, a 200 body that does not parse and a 200 body without `result` each give the empty record. The result is None only for a 200 reply whose result is null. |
| `Scan.IndexOf` | scan.py:95-100 | The result is None exactly when the wallet is not among the account keys. Otherwise it is the first position holding the wallet. |
| `Scan.ExtractDelta` | scan.py:81-116 | A record lacking `transaction`, `meta`, `message`, `preBalances` or `postBalances` gives no row. So does a record without `blockTime`. |
| `Scan.ExtractDeltaSkipsForeignWallet` | scan.py:91-100 | A record whose account keys lack the wallet gives no row. An absent `accountKeys` counts as `[]`. |
| `Scan.ExtractDeltaKeeps` | scan.py:102-116 | Take a record with every section and the wallet's first index i. It gives a row exactly when it has a block time and i is in bounds of both balance arrays. The row is then (blockTime, post[i] - pre[i]). |
| `Scan.ExampleDelta` | scan.py:103-116 | Keys ["A","B"], pre [1e9, 0], post [9e8, 0] and block time 1700000000 give the row (1700000000, -100000000) for "A". |
| `Scan.Extracted` | scan.py:78-116 | No more output rows than input records. |
| `Scan.ExtractedAppend` | scan.py:115-116 | The rows of a concatenation are the concatenation of the rows, so output follows input order. |
| `Scan.ExtractedMember` | scan.py:78-116 | A row is output exactly when some input record yields it. |
| `Scan.FetchAll` | scan.py:78-82 | The details are fetched exactly when no reply decodes to None. Then there is one detail per signature, in order. |
| `Scan.Exported` | scan.py:74-126 | A failed signature fetch gives an empty frame. Never more rows than signatures. |
| `Scan.ExportTrades` | scan.py:67-126 | The loop raises exactly when `Exported` is None, that is, when the signature reply or some detail reply decodes to Python None. Otherwise `Time` and `Wallet Delta` have equal length, and their rows are exactly the extracted rows in order. |
| `WalletRegistry.AsMap` | bot.py:45-57 | The dictionary's keys are exactly the registered users. |
| `WalletRegistry.AsMapValues` | bot.py:45-57 | In a registry with distinct users, each user maps to their own address. |
| `WalletRegistry.Put` | bot.py:36 | Overwriting a registered user keeps the size. A new user adds one entry. |
| `WalletRegistry.PutUpdates` | bot.py:36 | After `set_wallet(u, w)`, u maps to w and every other user is unchanged. |
| `WalletRegistry.PutTwice` | bot.py:36 | Setting the same user twice is the same as setting only the later address. |
| `WalletRegistry.PutKeys` | bot.py:36 | A registered user keeps its position in dict order. A new user goes last. |
| `WalletRegistry.PutDistinct` | bot.py:36 | An update never duplicates a user. |
| `WalletRegistry.Load` | bot.py:52-60 | A missing or unparseable file reads as the empty mapping. Otherwise it reads as the stored mapping. |
| `WalletRegistry.SetThenLoad` | bot.py:26-40 | Registering then loading returns exactly the registered address, whatever the file held before. |
| `WalletRegistry.WalletFile.LoadWallets` | bot.py:45-60 | `load_wallets` returns the stored mapping, or the empty one, with every user once. |
| `WalletRegistry.WalletFile.SetWallet` | bot.py:15-40 | The file then holds the old mapping, or `{}` if it was missing or not valid JSON, with the user set to the address. |
| `WalletStats.MinTime` | bot.py:105 | The earliest time, no later than any row's and equal to some row's. |
| `WalletStats.WindowStart` | bot.py:95-105 | Daily starts at now - 86400, weekly at now - 7·86400 and monthly at now - 30·86400. Any other period starts no later than every row. |
| `WalletStats.Kept` | bot.py:108 | The rows at or after the start, in their order. There are never more of them than rows. |
| `WalletStats.TotalDelta` | bot.py:116 | The sum of the rows' deltas in lamports, 0 for no rows. `TotalDeltaAppend` shows that it adds over concatenation. |
| `WalletStats.TotalDeltaAppend` | bot.py:116 | The sum over a concatenation is the sum of the two sums. |
| `WalletStats.KeptMembers` | bot.py:108 | The window keeps a row exactly when its time is at or after the start (inclusive). It leaves a row out exactly when the row is earlier. |
| `WalletStats.KeptAll` | bot.py:103-108 | A start no later than every row keeps every row. |
| `WalletStats.KeptNested` | bot.py:96-108 | Filtering by a later start after an earlier one equals filtering by the later start. |
| `WalletStats.WindowSplit` | bot.py:108-116 | Net gain plus the deltas the window leaves out equals the wallet's total. |
| `WalletStats.GetWalletStats` | bot.py:63-123 | The percent change is "N/A" on every path. An exception or an empty frame gives net gain 0. A non-window period sums every delta. Otherwise the net gain is the total minus the rows before the start. |
| `WalletStats.WindowsNest` | bot.py:96-108 | The daily rows are the weekly rows of the last day. The weekly rows are the monthly rows of the last week. Any other period keeps all rows. |
| `WalletStats.WindowedGain` | bot.py:96-116 | For a window period, the net gain is the sum over the rows at or after `now` minus the window's length. This holds for an empty frame too. |
| `WalletStats.OlderRowsIgnored` | bot.py:96-116 | Adding rows older than the window start leaves a windowed net gain unchanged. |
| `Leaderboard.DisplayName` | bot.py:146-149 | The display name if the lookup finds the user, otherwise `UserID(<id>)`. |
| `Leaderboard.EntryOf` | bot.py:136-155 | One wallet's entry: the display name, then the net gain and percent change of `get_wallet_stats` for the board's period. |
| `Leaderboard.EntriesOf` | bot.py:131-155 | One entry per registered wallet, in dict order, with that wallet's net gain and "N/A". The name is the display name, or `UserID(<id>)` when the lookup fails. |
| `Leaderboard.InsertByGain` | bot.py:158 | Inserting adds exactly the one entry. |
| `Leaderboard.InsertKeepsOrder` | bot.py:158 | Inserting into a board sorted by decreasing gain keeps it sorted. |
| `Leaderboard.SortByGain` | bot.py:158 | The result is a permutation of the entries, sorted by non-increasing net gain. |
| `Leaderboard.InsertKeepsTies` | bot.py:158 | Inserting puts the new entry before every entry of equal gain. |
| `Leaderboard.SortKeepsTies` | bot.py:158 | For every gain, the entries with that gain keep their original relative order (stability). |
| `Leaderboard.StableSortIsUnique` | bot.py:158 | Two sorted boards that order every tie alike are equal. So the model's sort yields what any stable descending sort yields. |
| `Leaderboard.Ranked` | bot.py:166 | The board keeps the sorted order, and line i has rank i + 1. |
| `Leaderboard.Board` | bot.py:131-166 | The board: the per-wallet entries, stably sorted by decreasing gain, then ranked from 1. `GenerateLeaderboard` computes it, and its contract states the board's properties. |
| `Leaderboard.GenerateLeaderboard` | bot.py:126-174 | One line per registered wallet, ranked 1..n, with net gain non-increasing. The lines are a permutation of the per-wallet entries, and ties stay in registration order. |
| `Leaderboard.Lower` | bot.py:223 | `str.lower`, character by character: ASCII capitals and the KELVIN SIGN become lower-case letters, and every other character is unchanged. |
| `Leaderboard.IsValidPeriod` | bot.py:223 | The command accepts a period when its lower-case form is daily, weekly or monthly. |
| `Leaderboard.LowerIdempotent` | bot.py:223 | Lower-casing twice is lower-casing once. |
| `Leaderboard.ValidPeriodIsWindow` | bot.py:223-229 | The period check ignores case. It accepts exactly the periods whose lower-case form is a window of `get_wallet_stats`. |
| `Leaderboard.ExampleValidPeriod` | bot.py:223-225 | The check accepts "Weekly". |
| `Leaderboard.ExampleInvalidPeriod` | bot.py:223-225 | The check rejects "yearly". |
| `Leaderboard.LeaderboardCommand` | bot.py:214-230 | The command rejects exactly the periods whose lower-case form is not daily, weekly or monthly, and the default is daily. Otherwise it shows the board for the lower-cased period, with a fresh view set to it. |
| `Leaderboard.LeaderboardView.constructor` | bot.py:182-184 | A new view shows the daily period. |
| `Leaderboard.LeaderboardView.Refresh` | bot.py:186-193 | Refresh rebuilds the board for the remembered period. |
| `Leaderboard.LeaderboardView.SelectPeriod` | bot.py:195-211 | Choosing a period remembers it and rebuilds the board for it. |

## Left out

- Network I/O: `requests.post`, the Helius endpoint and API key, and the 2-second sleep before the retry. Replies are input values.
- The signature limit `n` (100 by default, 20 from `get_wallet_stats`): it only travels in the request payload, and the reply stands for whatever the provider returned.
- `Scan.ExportTrades` takes the provider's detail reply as a function of the signature, so a signature listed twice gets the same reply both times.
- JSON nulls inside a detail record, other than `blockTime`. `"transaction": null` makes `export_trades` raise `TypeError` at scan.py:89. `"message": null` raises `AttributeError` at scan.py:91. Once those checks pass, `"meta": null` raises `TypeError` at scan.py:92 and `"accountKeys": null` raises `AttributeError` at scan.py:97. A null balance array raises `TypeError` at scan.py:105, but only when the wallet is among `accountKeys`; otherwise scan.py:97-100 skips the record before the balances are touched. The model's fields are either absent or well-typed. A top-level `"result": null` is modelled. So is `"blockTime": null`, which scan.py:110-113 skips like an absent key.
- Errors other than invalid JSON when `wallet.json` is read or written: undecodable bytes (`UnicodeDecodeError`) and OS errors such as permission denied. Only `json.JSONDecodeError` is caught (bot.py:28-31, 53-59), so these propagate out of `set_wallet` and `load_wallets`. The model has no path for them.
- `Leaderboard.GenerateLeaderboard`: one `now` and one export result per address serve the whole board. The source reads `pd.Timestamp.now()` again in each `get_wallet_stats` call (bot.py:96, called per wallet at bot.py:136). It also fetches again for every registered user. So the model does not capture windows that shift while the board is built, or two users with the same address getting different results from the provider.
- A `wallet.json` that is valid JSON but not an object of strings, and a registry key that is not a decimal user id (on which `int()` raises an uncaught `ValueError`): the model assumes the file holds what `set_wallet` writes.
- Concurrent `set_wallet` calls, which can lose updates: file writes are modelled as atomic.
- Floating point: the division of lamports by 1e9 and the float sum of `get_wallet_stats`. Net gains are exact integer lamports, so the model does not show float rounding in the sums or in the sort's comparisons.
- pandas: `to_datetime` raises for times outside pandas' datetime range (about the years 1677 to 2262), and `get_wallet_stats` would then return `(0, "N/A")`. The model assumes block times lie in that range.
- `WalletStats.WindowStart`: `now` is whole seconds, so the model leaves out the sub-second part of `pd.Timestamp.now()` and the local-time versus UTC offset between it and `to_datetime(unit='s')`.
- `Leaderboard.LowerChar`: `str.lower` is modelled for ASCII capitals and the KELVIN SIGN. No other character lower-cases to a string of plain ASCII letters, so the period check is exact. The model leaves every other character unchanged.
- The Discord layer: the embed's title, field text and colour; `ctx.send` messages; the button and menu callbacks' message edits; `bot.run`; and the async event loop. `get_user` and `fetch_user` become the `nameOf` lookup.
- The older, conflicting side of `scan.py` (lines 128-230), including the empty `is_radium_swap` stub. The bot relies on the HEAD side.
- Diagnostic `print` calls.
