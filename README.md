# Fortune Ninja and the Monad counter page, modelled in Dafny

This project models the logic of a small Monad web app:

- **Fortune Ninja** (`game.dfy`, `constants.dfy`): the coin-slicing round.
  - Phases `idle → playing → gameover`.
  - Per-click scoring: a good coin adds 10; a bad coin takes 15 off, never below zero.
  - A spawn `while` loop fed by an accumulating timer and capped at `MAX_COINS`.
  - The 10-second window of click timestamps and the countdown display.
  - The refs the component mutates are the fields of the class `Game.Round`.
  - Its methods change those fields and state their new values exactly.
  - An invariant `Valid()` is required and kept by every public method of `Game.Round`. `Game.Round.CollectHits`, the loop inside `Game.Round.PointerDown`, states its results instead, and `PointerDown` re-establishes `Valid()`. The invariant says:
    - total clicks = good + bad;
    - 0 ≤ score ≤ 10 × good;
    - at most 14 coins, and no coins outside a round;
    - coin ids increase, and every coin's type agrees with the coin table.
- **Leaderboard and wallet chip** (`leaderboard.dfy`, `wallet_chip.dfy`): pure functions.
  - The player's rank, found by an address comparison that ignores case.
  - Each row: its medal or `#n` label, its shortened address and its "you" flag.
  - The "Rank #k of n" line and the empty-board placeholder.
  - The chip's `first6...last4` address text.
- **Counter test page** (`counter_page.dfy`): the React page that talks to the counter contract.
  - The class `CounterPage.Page` performs the handlers one state setter at a time.
  - It keeps a ghost trace of every state update and request since mounting. Its fields are always that trace replayed on the initial state.
  - Each handler is proved to append exactly the effects of a pure trace function. The lemmas state what those effects do:
    - which statuses appear, and in what order;
    - which requests are made;
    - that `loading` brackets every submission;
    - how the `incBy` amount is checked.
- **App shell** (`app.dfy`): the six-page navigation.
  - `App.AppState` holds `page`, `wallet`, `leaderboard` and `myScore`. Its callbacks are proved against the pure step function `App.Handle`.
  - Two pure functions: the `privateKey`/`address` fallbacks and the render switch.
- **JavaScript semantics the pages rely on** (`js_text.dfy`, `common.dfy`):
  - `String.prototype.slice` with negative indices;
  - `toLowerCase` on ASCII letters;
  - `parseInt` on decimal text;
  - `Number.prototype.toString`;
  - `Array.prototype.filter`.

Inputs of the model:
- **Times:** integer milliseconds. `performance.now()` and `Date.now()` are parameters (`now`, `wallNow`).
- **Canvas geometry:** whether a pointer event hits a coin and whether a coin is still on screen are predicates passed in.
- **Randomness:** the two random draws of `makeCoin` are a function from coin id to draw.
- **Chain replies:** each reply from the wallet or the contract (a value or a thrown error) is an argument.
- **Local storage:** a map from keys to stored strings.

## Model

| member | source | states |
|---|---|---|
| Common.Filter | src/components/Game/Game.jsx:761-765 | `Array.prototype.filter`: the kept elements are those that pass, in their original order; never more elements than the input |
| Common.FilterMembers | src/components/Game/Game.jsx:859-877 | every element `filter` keeps is in the input and passes, and every element of the input that passes is kept |
| JsText.Slice | src/components/WalletChip.tsx:7 | `s.slice(start, end)` is never longer than `s`, and for in-range indices it is exactly `s[start..end]` |
| JsText.SliceFrom | src/pages/Leaderboard.tsx:139 | `s.slice(-k)` is the last `k` characters of `s`, or all of `s` when it is shorter than `k` |
| JsText.ToLower | src/pages/Leaderboard.tsx:20 | lower-casing keeps the length and maps every character through the ASCII lower-case mapping |
| JsText.ToLowerIdempotent | src/pages/Leaderboard.tsx:140 | lower-casing twice is lower-casing once |
| JsText.ParseInt | src/Test.tsx:128 | `parseInt(s)` with no radix: skip leading white space and line terminators, read an optional sign, then the longest run of decimal digits; `None` (NaN) when there is no digit |
| JsText.LeadingDigits | src/Test.tsx:128 | the length of the leading digit run: all digits before it, and no digit right after it |
| JsText.ParseIntNaN | src/Test.tsx:128 | `parseInt` gives NaN when no digit follows the optional sign, once white space is skipped; the white space is the full ECMAScript set: tab, vertical tab, form feed, the byte order mark, the four line terminators and every Unicode space separator |
| JsText.ParseIntLeadingDigits | src/Test.tsx:128 | `parseInt(digits + rest)` is the value of the digits whenever `rest` does not start with a digit |
| JsText.ParseIntThreeAbc | src/Test.tsx:128 | `parseInt("3abc")` is 3 |
| JsText.ParseIntSkipsSpace | src/Test.tsx:128 | any run of white space, Unicode space separators included, before the digits is skipped: `parseInt(spaces + digits)` is the value of the digits |
| JsText.ParseIntIdeographicSpace | src/Test.tsx:128 | `parseInt("\u30005")` is 5: an ideographic space before the digits is skipped |
| JsText.DecimalString | src/Test.tsx:28 | `n.toString()` is a non-empty string of digits without a leading zero |
| JsText.DecimalStringValue | src/Test.tsx:28 | the digits of `n.toString()` are worth `n` |
| JsText.ParseIntDecimalString | src/Test.tsx:134 | `parseInt(String(n)) == n` for every non-negative `n` |
| Constants.GoodTypesAreGood | src/components/Game/constants.js:1-10 | every name in `GOOD_TYPES` has a `COIN_CONFIG` entry with `isGood: true` |
| Constants.BadTypesAreBad | src/components/Game/constants.js:1-11 | every name in `BAD_TYPES` has a `COIN_CONFIG` entry with `isGood: false` |
| Constants.PoolsPartitionTable | src/components/Game/constants.js:1-11 | the two pools share no name and together are exactly the six `COIN_CONFIG` keys |
| Constants.TuningConstants | src/components/Game/constants.js:15-21 | the spawn interval and the coin cap are positive; the window and the round last 10000 ms; a good coin is worth 10 and a bad one costs 15 |
| Game.MakeCoin | src/components/Game/Game.jsx:514-537 | a new coin has the given id and hand; its type comes from the pool drawn, and it is good exactly when that pool is the good one, in agreement with `COIN_CONFIG` |
| Game.Spawned | src/components/Game/Game.jsx:740-752 | `k` runs of the spawn loop push exactly `k` coins |
| Game.SpawnedCoins | src/components/Game/Game.jsx:742-751 | the `i`-th coin of a burst has id `firstId + i`, is thrown by the left hand exactly when that id is even, and uses that id's draw |
| Game.AppendSpawned | src/components/Game/Game.jsx:741-751 | one more run of the loop appends the next coin after the burst so far |
| Game.SpawnedAlternateHands | src/components/Game/Game.jsx:742 | consecutive coins of a burst come from alternating hands |
| Game.SpawnCount | src/components/Game/Game.jsx:740-741 | the number of loop runs never fills the board past `MAX_COINS` and never takes more than the timer holds; afterwards the timer holds less than one interval or the board is full |
| Game.SpawnCountUnique | src/components/Game/Game.jsx:740-741 | any run count consistent with the loop's exit condition and bookkeeping is the closed-form count |
| Game.SpawnLoop | src/components/Game/Game.jsx:740-752 | the spawn loop terminates; it appends the closed-form burst, takes one interval per coin off the timer and advances the id counter by the same count; at exit the timer holds less than one interval or the board is full |
| Game.SpawnedKeepsBoard | src/components/Game/Game.jsx:740-752 | a burst appended to a well-formed board whose ids are all below the next id leaves a well-formed board with increasing ids |
| Game.FilterKeepsIdsIncreasing | src/components/Game/Game.jsx:761-765 | dropping the coins that left the screen keeps the ids in increasing order |
| Game.FilterStaysValid | src/components/Game/Game.jsx:761-765 | every coin the filter keeps stays well formed and below the next id |
| Game.ScoreHit | src/components/Game/Game.jsx:862-876 | a hit counts one more click; a good coin counts a good click and adds exactly `GOOD_SCORE`; a bad coin counts a bad click and leaves `max(0, score - BAD_PENALTY)`; the counter invariant is kept |
| Game.ScoreAll | src/components/Game/Game.jsx:859-879 | scoring the hits in order keeps the phase, adds one click per hit and keeps the counter invariant |
| Game.ScoreAllSnoc | src/components/Game/Game.jsx:859-879 | scoring one more hit applies the single-hit rule to the tally so far |
| Game.ScoreAllCounts | src/components/Game/Game.jsx:862-875 | the good and bad counters grow by the number of good and of bad coins hit |
| Game.ScoreAllAppend | src/components/Game/Game.jsx:859-879 | scoring two batches of hits in turn is scoring them together |
| Game.ScoresFromStart | src/components/Game/Game.jsx:669 | from a fresh round, any sequence of hits leaves total = good + bad = number of hits and `0 <= score <= GOOD_SCORE * good` |
| Game.PointerStep | src/components/Game/Game.jsx:859-877 | one more coin examined by the pointer filter is either hit and scored, or kept, in board order |
| Game.WindowKeepsRecent | src/components/Game/Game.jsx:644-651 | the click window keeps exactly the timestamps less than `WINDOW_MS` old, and pruning twice changes nothing |
| Game.FrameDt | src/components/Game/Game.jsx:701 | the frame time is the elapsed time capped at 50 ms |
| Game.Timer | src/components/Game/Game.jsx:582-587 | the time left is zero exactly when the round is over and otherwise `GAME_DURATION - elapsed`; the seconds shown are the time left rounded up; the ring is red exactly when under 3000 ms are left, and then at most 3 seconds show |
| Game.TimerCountsDown | src/components/Game/Game.jsx:583-584 | as time passes, the time left and the seconds shown never go up |
| Game.Round.constructor | src/components/Game/Game.jsx:616-639 | a mounted game starts idle with zero counters, no coins and no clicks |
| Game.Round.SyncUI | src/components/Game/Game.jsx:641-645 | the displayed counters become a copy of the live ones, and the window count is the number of recent clicks |
| Game.Round.PruneClicks | src/components/Game/Game.jsx:647-654 | the click list keeps only the recent clicks, and the displayed count is its length |
| Game.Round.StartGame | src/components/Game/Game.jsx:656-671 | starting a round resets the id counter, the coins, the clicks, the spawn timer and the counters, enters `playing` and refreshes the display |
| Game.Round.SpawnCoins | src/components/Game/Game.jsx:739-752 | the spawn loop on the component's refs: the burst is appended, the timer is debited and the ids advance; the invariant is kept |
| Game.Round.Advance | src/components/Game/Game.jsx:739-765 | a frame of play feeds the timer, spawns the closed-form burst and then keeps only the coins still on screen |
| Game.Round.Frame | src/components/Game/Game.jsx:695-766 | outside a round a frame only records its timestamp; when time is up the phase becomes `gameover` and the coins are cleared; otherwise the frame advances as above; the invariant is kept |
| Game.Round.CollectHits | src/components/Game/Game.jsx:859-879 | the pointer loop keeps the missed coins in order, scores the hit coins in order, records one timestamp per hit, and reports whether anything was hit |
| Game.Round.PointerDown | src/components/Game/Game.jsx:851-881 | outside a round a click changes nothing; during one, the hit coins are scored and removed and the missed ones kept in order, and the display refreshes only if something was hit; the invariant is kept |
| Leaderboard.MyRank | src/pages/Leaderboard.tsx:20 | `myRank` is one past the index `findIndex` returns for the player's address, compared in lower case, so 0 when the address is not on the board |
| Leaderboard.FindMe | src/pages/Leaderboard.tsx:20 | `findIndex` returns the first entry whose address matches the player's ignoring case, or -1 when none does |
| Leaderboard.MyRankIsFirstMatch | src/pages/Leaderboard.tsx:20 | the rank is the 1-based position of the first matching entry, and 0 exactly when no entry matches |
| Leaderboard.MyRankIgnoresCase | src/pages/Leaderboard.tsx:20 | lower-casing the player's address does not change the rank |
| Leaderboard.FindMeRespects | src/pages/Leaderboard.tsx:20 | two addresses that match the same entries find the same index |
| Leaderboard.RankLabel | src/pages/Leaderboard.tsx:13-17 | the rank cell of row `i`: the medal of `RANK_STYLES[i]` when that entry exists (rows 0 to 2), otherwise `#` followed by `i + 1` |
| Leaderboard.RankLabels | src/pages/Leaderboard.tsx:141-163 | rows 0, 1 and 2 show the gold, silver and bronze medals; every later row `i` shows `#` and a number that parses back to `i + 1` |
| Leaderboard.NumberedLabel | src/pages/Leaderboard.tsx:163 | a row past the third shows `#` followed by its 1-based position |
| Leaderboard.MedalLabel | src/pages/Leaderboard.tsx:13-17 | the first three rows show a single medal character, one per place |
| Leaderboard.RankLabelsDistinct | src/pages/Leaderboard.tsx:141-163 | no two rows share a rank label |
| Leaderboard.ShortAddress | src/pages/Leaderboard.tsx:139 | the short address is the first six characters, `...` and the last four |
| Leaderboard.ShortAddressShape | src/pages/Leaderboard.tsx:139 | an address of ten characters or more shortens to 13 characters that start with its first six and end with its last four |
| Leaderboard.Rows | src/pages/Leaderboard.tsx:138-171 | one row per entry, in board order, with its rank label, short address, "you" flag and score |
| Leaderboard.RowsHighlight | src/pages/Leaderboard.tsx:140 | a row is flagged as the player's exactly when its address matches ignoring case |
| Leaderboard.Render | src/pages/Leaderboard.tsx:106-188 | the board-dependent parts of the page: the "Rank #k of n" line when `myRank > 0`, one row per entry, and the "No scores yet" placeholder when the board is empty |
| Leaderboard.RankLineMatchesRows | src/pages/Leaderboard.tsx:20-140 | the "Rank #k of n" line appears exactly when some row is the player's; `n` is the board size, and `k` is the first such row, with no earlier row flagged |
| Leaderboard.PlaceholderIffEmpty | src/pages/Leaderboard.tsx:186-188 | "No scores yet" shows exactly when there are no rows, and then there is no rank line |
| WalletChip.ChipText | src/components/WalletChip.tsx:7 | the chip text: `...` for the empty (falsy) address, otherwise the first six characters, `...` and the last four |
| WalletChip.ChipTextEmpty | src/components/WalletChip.tsx:7 | no address shows exactly `...` |
| WalletChip.ChipMatchesLeaderboard | src/components/WalletChip.tsx:7 | a non-empty address is shortened exactly as a leaderboard row shortens it |
| WalletChip.ChipTextShape | src/components/WalletChip.tsx:7 | an address of ten characters or more shows as 13 characters: its first six, `...`, its last four |
| WalletChip.ChipTextDotsOnlyWhenEmpty | src/components/WalletChip.tsx:7 | the chip shows bare dots if and only if there is no address |
| CounterPage.StatusText | src/Test.tsx:31-145 | the exact text of each status the page sets: the no-wallet, connection-failed, read-failed, invalid-amount, sending, waiting, confirmed and failed messages, with the amount and the error text interpolated |
| CounterPage.StageTextsDiffer | src/Test.tsx:109-145 | the sending, waiting, confirmed and failed texts of one call are pairwise different |
| CounterPage.SendingTextCarriesAmount | src/Test.tsx:134 | the `incBy` sending text holds the amount's decimal digits, which parse back to the amount |
| CounterPage.IncByAmount | src/Test.tsx:128-132 | `parseInt(incByValue)` followed by the `!val \|\| val <= 0` guard: NaN, zero and negative values are refused, any other value is the amount |
| CounterPage.IncByAmountIsPositiveParse | src/Test.tsx:128-132 | an amount is accepted if and only if `parseInt` reads a number of at least 1, and then it is that number |
| CounterPage.IncByAcceptsLeadingDigits | src/Test.tsx:128-132 | leading digits worth at least 1 are accepted as their value, whatever follows them |
| CounterPage.IncByThreeAbc | src/Test.tsx:128-132 | `"3abc"` is accepted as 3 |
| CounterPage.IncByRefusesNegative | src/Test.tsx:128-132 | a minus sign before the digits is refused |
| CounterPage.IncByRefusesNaN | src/Test.tsx:128-132 | text with no digit after the optional sign is refused |
| CounterPage.IncByDecimal | src/Test.tsx:128-132 | every positive amount typed in decimal is accepted as itself |
| CounterPage.ReplayAppend | src/Test.tsx:16-20 | replaying two runs of state updates in turn is replaying them together |
| CounterPage.ReplayKeepsLoading | src/Test.tsx:18 | updates that do not set `loading` leave it as it was |
| CounterPage.FetchTrace | src/Test.tsx:22-33 | `fetchCount`: nothing without a wallet; otherwise the `x()` read, then the count as decimal text, or the read-failed status |
| CounterPage.ReceiptTrace | src/Test.tsx:115-118 | after sending: the waiting status, the receipt wait, then the confirmed status and a count refresh, or the failed status when the wait throws |
| CounterPage.AttemptTrace | src/Test.tsx:110-121 | the `try` block of a call: get the signer, send, and await the receipt, stopping at the first thrown error with the failed status |
| CounterPage.SubmitTrace | src/Test.tsx:107-123 | `setLoading(true)`, the sending status, the attempt, and `setLoading(false)` in `finally` |
| CounterPage.CallIncTrace | src/Test.tsx:106-124 | `callInc`: nothing without a wallet, otherwise the submission of `inc()` |
| CounterPage.CallIncByTrace | src/Test.tsx:126-149 | `callIncBy`: nothing without a wallet; the invalid-amount status for a refused amount; otherwise the submission of `incBy(n)` |
| CounterPage.ConnectTrace | src/Test.tsx:72-104 | `connect`: the no-wallet status without a wallet; otherwise the accounts request, and the connection-failed status if it throws |
| CounterPage.JoinTrace | src/Test.tsx:81-99 | the chain switch, the add-chain request only when the switch throws (its failure reported as a failed connection), then the first account and a count read |
| CounterPage.AccountsChangedTrace | src/Test.tsx:50-59 | `handleAccountsChanged`: an empty list clears the account and the count; otherwise the first account is set and the count read |
| CounterPage.DetectTrace | src/Test.tsx:36-47 | the mount effect: nothing without a wallet; otherwise the `eth_accounts` request, and for a non-empty answer the first account and a count read |
| CounterPage.FetchOutcome | src/Test.tsx:22-33 | with a wallet, reading the counter makes one request and then shows the value read or puts the read failure in the status; without one it does nothing; it never touches `loading` |
| CounterPage.FetchRead | src/Test.tsx:27-28 | a successful read shows the value as decimal text and adds no status |
| CounterPage.FetchRequests | src/Test.tsx:22-33 | a read makes exactly one request, whatever its outcome |
| CounterPage.ReceiptShape | src/Test.tsx:115-118 | the wait-and-confirm stage never sets `loading` |
| CounterPage.AttemptShape | src/Test.tsx:110-120 | the `try` block never sets `loading` |
| CounterPage.SubmitBracketsLoading | src/Test.tsx:106-124 | a submission sets `loading` first and clears it last; `loading` is on after every effect in between and off at the end, whatever the chain replies |
| CounterPage.LoadingOnThroughout | src/Test.tsx:108-122 | once `loading` is on, effects that do not set it keep it on |
| CounterPage.ReceiptSuccess | src/Test.tsx:115-118 | a receipt that arrives shows waiting and then confirmed, and the counter is re-read |
| CounterPage.AttemptSuccess | src/Test.tsx:110-118 | when the signer, the send and the wait succeed, the page requests them in that order, confirms and re-reads the counter |
| CounterPage.SubmitSuccess | src/Test.tsx:106-124 | on success the statuses run sending, waiting, confirmed; the call is sent once; the new count is shown; `loading` ends off |
| CounterPage.AttemptFailure | src/Test.tsx:110-120 | a failed attempt ends on the failure status for the first error, and shows waiting first only if the send went through |
| CounterPage.SubmitFailure | src/Test.tsx:106-148 | on any failure the statuses run sending, waiting only if the send went through, and then the failure text; the count is untouched and `loading` ends off |
| CounterPage.InvalidAmountSubmitsNothing | src/Test.tsx:126-132 | a refused amount only sets the "positive number" status: no request is made and `loading` is not touched |
| CounterPage.NoWalletCases | src/Test.tsx:73-76 | without a wallet `callInc` and `callIncBy` do nothing, while `connect` only sets the no-wallet status |
| CounterPage.ConnectRequests | src/Test.tsx:77-99 | `connect` requests the accounts, then switches to chain `0x27AF`; it adds Monad Testnet (MON, 18 decimals) exactly when the switch throws, and reads the counter exactly when the chain is in place |
| CounterPage.ConnectSuccess | src/Test.tsx:77-99 | when the accounts arrive and the chain is in place, the first account is connected and the count shown |
| CounterPage.AccountsChangedCases | src/Test.tsx:50-59 | an empty account list clears both the account and the count; otherwise the first account is set and `loading` is untouched |
| CounterPage.Page.constructor | src/Test.tsx:16-20 | the page starts with no count, no account, `loading` off, amount `"1"` and an empty status |
| CounterPage.Page.SetIncByValue | src/Test.tsx:180 | typing in the amount box records the new text |
| CounterPage.Page.FetchCount | src/Test.tsx:22-33 | `fetchCount` performs exactly the read effects |
| CounterPage.Page.Submit | src/Test.tsx:108-123 | the submission sets `loading`, the sending status, runs the attempt and clears `loading` |
| CounterPage.Page.Attempt | src/Test.tsx:110-120 | the `try` block stops at the first thrown error and reports it |
| CounterPage.Page.CallInc | src/Test.tsx:106-124 | `callInc` performs exactly the `inc()` submission, or nothing without a wallet |
| CounterPage.Page.CallIncBy | src/Test.tsx:126-149 | `callIncBy` checks the typed amount, then performs the `incBy(n)` submission or only the refusal status; the typed text is kept |
| CounterPage.Page.Connect | src/Test.tsx:72-104 | `connect` performs exactly the connect effects, stopping at the first error |
| CounterPage.Page.AccountsChanged | src/Test.tsx:50-59 | the account-change listener performs exactly its effects |
| CounterPage.Page.ChainChanged | src/Test.tsx:60-62 | the chain-change listener re-reads the counter |
| CounterPage.Page.DetectAccounts | src/Test.tsx:36-47 | on mount the page asks for the connected accounts and takes the first one if any |
| App.Handle | src/App.tsx:25-50 | the state after one callback: each callback sets its page; `handleGameStart` also stores the wallet and `handleGameEnd` the board and the score |
| App.PrivateKey | src/App.tsx:52 | `wallet?.privateKey ?? localStorage.getItem(STORAGE_KEY) ?? ''` |
| App.Address | src/App.tsx:53 | `wallet?.address ?? ''` |
| App.Render | src/App.tsx:55-89 | the render switch: the page for each value of `page`, with the props each receives, and `null` for the game page without a wallet |
| App.PrivateKeyFallback | src/App.tsx:52-53 | the key is the wallet's key when a wallet is set (whatever is stored), else the stored burner key, else `''`; the address is the wallet's or `''` |
| App.HandleChangesOnly | src/App.tsx:25-50 | each callback moves to its own page; only `handleGameStart` changes the wallet, and only `handleGameEnd` the board and score |
| App.WalletPersists | src/App.tsx:29-50 | once set, the wallet is kept by every later callback except another game start |
| App.ExportAfterStart | src/App.tsx:29-86 | exporting at any point after a game start shows that wallet's own key and address, whatever is stored |
| App.GameNeverWithoutWallet | src/App.tsx:29-61 | starting from a state where the game page has a wallet, no sequence of callbacks reaches the game page without one, so the `null` branch is never rendered |
| App.InitialRendersLanding | src/App.tsx:20-23 | the app starts on the landing page, and that state meets the wallet condition |
| App.GameWithoutWalletIsNull | src/App.tsx:61 | the game page without a wallet renders nothing |
| App.RoundScreens | src/App.tsx:25-86 | a whole round (play, start, end, claim, export, done) shows the lobby, the game with the wallet, the board with the wallet's address, the reward, and the export with the wallet's key; it ends on the landing page with the wallet, board and score kept |
| App.AppState.constructor | src/App.tsx:20-23 | the app starts on the landing page with no wallet, an empty board and score 0 |
| App.AppState.HandlePlay | src/App.tsx:25-27 | `handlePlay` opens the lobby and changes nothing but the page |
| App.AppState.HandleGameStart | src/App.tsx:29-32 | `handleGameStart(w)` stores `w` and opens the game page, keeping the board and score |
| App.AppState.HandleGameEnd | src/App.tsx:34-38 | `handleGameEnd(lb, score)` stores the board and the score and opens the leaderboard, keeping the wallet |
| App.AppState.HandleClaimPrize | src/App.tsx:40-42 | `handleClaimPrize` opens the reward page and changes nothing but the page |
| App.AppState.HandleExportWallet | src/App.tsx:44-46 | `handleExportWallet` opens the wallet page and changes nothing but the page |
| App.AppState.HandleDone | src/App.tsx:48-50 | `handleDone` returns to the landing page and changes nothing but the page |

## Left out

- Canvas drawing and animation are not modelled: the god figure, the arms, coins, particles, popups, the red flash and the timer ring. They are floating-point pixel output.
- Coin kinematics are not modelled: gravity, velocity and rotation. Whether a coin is still on screen is a predicate handed to `Game.Round.Frame`.
- Pointer geometry is not modelled: `Math.hypot` against the coin radius is the `hit` predicate handed to `Game.Round.PointerDown`.
- `Math.random` is an input. `BAD_COIN_CHANCE` (a floating-point threshold) and the pool index become a draw per coin id, and a draw's index is constrained to its pool. The speech-bubble texts and throw angles are not modelled.
- The module-level `_coinId` counter is the field `nextCoinId` of `Game.Round`, since one mounted game is modelled.
- `Game.SpawnLoop` runs the spawn `while` loop on values (the coin list, the timer and the id). `Game.Round.SpawnCoins` assigns its results to the fields. The loop's `push` into the ref's array in place is not modelled separately.
- Browser plumbing is not modelled: `requestAnimationFrame`, the 500 ms `setInterval`, `ResizeObserver` and listener registration. The frame callback and the interval are the methods `Game.Round.Frame` and `Game.Round.PruneClicks`, which a caller may run in any order.
- The JSX overlays of the game (idle and game-over screens) are not modelled; they only read `uiStats`.
- `JsText.ToLower` lower-cases ASCII letters only. JavaScript's full Unicode case mapping is not modelled; addresses are hexadecimal ASCII.
- Strings are sequences of Unicode code points, while JavaScript strings are sequences of UTF-16 code units. The two agree on the ASCII addresses and digits the pages measure and cut. They differ on text outside the Basic Multilingual Plane.
- Leaderboard.MedalLabel: each medal is one character here; in JavaScript each medal emoji has `length` 2. Nothing in the pages measures the medal.
- JsText.Slice: on text outside the Basic Multilingual Plane, JavaScript's `slice` counts UTF-16 code units and can split a surrogate pair; the model counts code points.
- `JsText.ParseInt` reads decimal digits only. `0x` prefixes and values beyond 2^53 (where JavaScript numbers lose precision) are not modelled.
- Chain I/O is not modelled: `ethers` providers and contracts, `window.ethereum.request` and `tx.wait()`. Each awaited request is recorded as a `Request`, and its outcome is a `Reply` argument.
- `console.error` logging is left out.
- Game.Round.PointerDown: one wall-clock reading `wallNow` stands for every `Date.now()` call of one event: the per-hit timestamps and the one inside `syncUI`. The model does not capture those readings differing within one event.
- The async handlers are modelled as running to completion one at a time. Interleavings of overlapping handlers (a listener firing while `connect` awaits) are not modelled.
- The un-awaited `fetchCount()` calls of the mount effect and of the account listener are modelled as completing before the handler ends.
- The status line is a `Status` value. `CounterPage.StatusText` gives the exact text each value shows; an error's `${err}` text is an input string.
- The rendered counter page (the connect button, the `disabled={loading}` attributes and the shortened account) is not modelled beyond the state it reads.
- Styles, medal colours and the `RANK_STYLES` background and border colours are kept only as data.
- Ballpit, WalletExport, Landing, the router in `App.jsx`, the Hardhat configuration and the type declarations are not part of this model.
- Lobby and Reward are not part of this model. Burner-key generation and storage, the signer-mode choice and the transaction timing they hold appear here only as the `App.Wallet` value and the stored key read under `STORAGE_KEY`.
- `App.tsx` passes `wallet` and `onGameEnd` to a `Game` component that, as written, takes no props. In this model the game's result reaches the app only as the arguments of `handleGameEnd`, and nothing links them to a `Game.Round`.
- The render switch's `default` branch is not modelled: the page type is closed, so no value reaches it.
