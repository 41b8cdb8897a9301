# RSI alert engine of AlertaCripto, in Dafny

This project models the engine of `script.js`, a browser page that keeps a
Relative Strength Index (RSI) for a fixed set of trading symbols and flags
threshold crosses. The engine consists of the following parts.

- The `state` table holds one record per symbol. Each record has the committed price
  window, Wilder's smoothed average gain and loss, the current RSI (`rsi`) and the
  previous one (`lastRsi`).
- `initState` creates a blank record for every configured symbol.
- `calculateInitialRsi` seeds the averages from historical closes. It takes the mean of the
  first 14 gains and losses, applies Wilder's smoothing
  `avg = (avg * 13 + x) / 14` to the rest, and stores the RSI as both `rsi` and
  `lastRsi`.
- `updateRsi` folds one live price into a record. It always computes a candidate RSI
  against the last committed close and the committed averages. It stores anything
  only when the candle is final: then it shifts `lastRsi ← rsi`, stores the
  candidate averages and RSI, and pushes the price into a window of at most 100
  closes, evicting the oldest one.
- `checkAlert` classifies a committed step as a bearish cross (down through 70), a
  bullish cross (up through 30), or nothing.

The files are:

- `config.dfy` (module `Config`): the configured symbols, the period 14 and the window
  limit 100.
- `indicator.dfy` (module `Indicator`): the pure arithmetic. It holds the gain/loss split,
  one step of Wilder's smoothing, the seed mean, the averages over a history and the
  RSI formula, with lemmas about them.
- `alerts.dfy` (module `Alerts`): the threshold classification of `checkAlert`.
- `engine.dfy` (module `Engine`): the record datatype and the class `Monitor`. The class
  holds the `state` table as a `map` field, and its methods `InitState`,
  `CalculateInitialRsi`, `LoadHistory` and `UpdateRsi` change it. Two read-only
  methods hold the loops of `calculateInitialRsi`. The pure functions `Preview`,
  `Commit` and `Push` state what `UpdateRsi` computes and stores.

Arithmetic uses Dafny's exact `real` type in place of JavaScript doubles.

The code has no guard for the division `avgGain / avgLoss` (script.js:52 and
script.js:76). The model does not invent one. Instead, the RSI type is
`Value(v) | Undefined`:
- a positive average gain over a zero average loss is JavaScript's `Infinity`. For
  that value the formula gives exactly 100, so the model returns `Value(100)`.
- zero over zero is `NaN`. The model returns `Undefined`, and every comparison with
  it is false, as comparisons with `NaN` are. So an undefined RSI never raises an
  alert (`Alerts.UndefinedIsSilent`).

Some behaviours of the code are worth stating outright, and the model keeps each
of them:
- For no movement at all, the code computes 0/0 and yields NaN. It has no neutral
  value such as 50.
- There is no check for a short history. With two to fourteen closes, the code
  divides the sum of the fewer-than-14 gains by 14. Only zero or one close makes
  `reduce` throw on an empty array, modelled as `ReduceOfEmpty`.
- The window is set to the fetched closes as they are (script.js:165). It is not
  trimmed, so the bound of 100 holds when the history provider returns at most 100
  closes, as the request asks.
- No alert state is stored: `alertActive` is never written.
- The test `!lastPrice` also skips an update when the last committed close is exactly
  0. Such a symbol then never commits again until a reconnection reloads its
  history (script.js:188-190 re-runs `start`, which re-runs `initState` and refetches).

A central result is `Engine.CommitContinuesHistory`. Once a record tracks a history of
more than 14 closes, a committed update stores exactly the averages and RSI that
`calculateInitialRsi` would compute on that history extended by the new close.
Live updates therefore continue the Wilder series of the initial computation.

## Model

| member | source | states |
|---|---|---|
| `Engine.Monitor.constructor` | script.js:10 | the table starts empty |
| `Engine.Monitor.InitState` | script.js:15-26 | every configured symbol gets the blank record: no prices, both RSIs 0, both averages 0. Entries of other symbols are untouched, and the record invariant is kept |
| `Engine.Differences` | script.js:33-40 | the loop yields exactly `Gains(closes)` and `Losses(closes)`, of length `closes.length - 1` (0 for an empty history) |
| `Engine.Averages` | script.js:42-50 | the seed sums and the smoothing loop yield exactly `InitialAverage` of the gains and of the losses |
| `Engine.Monitor.CalculateInitialRsi` | script.js:31-59 | with fewer than 2 closes it fails as `ReduceOfEmpty` and changes nothing. For an unknown symbol it fails as `NotRegistered` and changes nothing. Otherwise it stores the non-negative initial averages, and the RSI of those averages in both `rsi` and `lastRsi`. The window and the other symbols are untouched |
| `Engine.Monitor.LoadHistory` | script.js:165-166 | the window becomes the fetched closes, and stays so even when the initial computation fails. On success the record tracks the history (`Tracks`) with `lastRsi == rsi`. The window bound holds when at most 100 closes are fetched |
| `Engine.Monitor.UpdateRsi` | script.js:64-93 | an unknown symbol, an empty window or a last close of 0 changes nothing. A non-final price changes nothing and shows the candidate RSI. A final price shows the same candidate and replaces only this symbol's record by `Commit` (`lastRsi` ← old `rsi`, candidate RSI and averages, pushed window). It returns the alert of (candidate, old `rsi`), keeps every record sound and keeps every window within 100 |
| `Engine.HasReference` | script.js:65-66 | an update goes ahead only when there is a last committed close; an empty window or a last close of 0 stops it |
| `Engine.Preview` | script.js:65-77 | the candidate's averages are non-negative and its RSI is in [0, 100] or undefined |
| `Engine.PreviewDependsOnCommitted` | script.js:65-77 | two entries with the same last close and the same averages give the same candidate for any price: older closes and stored RSIs play no part |
| `Engine.Commit` | script.js:83-89 | the committed record is sound again: non-negative averages, both RSIs in range |
| `Engine.Push` | script.js:88-89 | after a push the new price is the last element. A window within 100 stays within 100. A full window loses exactly its oldest entry |
| `Engine.CommitContinuesHistory` | script.js:47-50 | for a history longer than 14, committing a close gives the averages and RSI of the initial computation over the extended history |
| `Engine.ProvisionalThenFinal` | script.js:72-92 | a final update at the same price as a preceding provisional one commits and stores exactly the RSI that was shown, and shifts the old `rsi` into `lastRsi` |
| `Indicator.Gain` | script.js:38 | the gain of a difference (also taken at script.js:69) is never negative |
| `Indicator.Loss` | script.js:39 | the loss of a difference (also taken at script.js:70) is never negative |
| `Indicator.GainLossSplit` | script.js:37-39 | gain and loss are both ≥ 0, at most one is non-zero, and gain − loss is the difference |
| `Indicator.Smooth` | script.js:48-49 | one Wilder step lies between the old average and the new value, and stays positive from a positive average and a non-negative value |
| `Indicator.RsiOf` | script.js:52-53 | the RSI is in [0, 100] when defined. It is undefined (NaN) exactly when both averages are 0, 100 exactly when only the gain is positive, and 0 exactly when only the loss is positive |
| `Indicator.RatioBounds` | script.js:52-53 | over a positive average loss the formula lies in [0, 100) and is 0 exactly when there is no gain |
| `Indicator.RsiShare` | script.js:76-77 | over a positive average loss the RSI equals 100 · avgGain / (avgGain + avgLoss) |
| `Indicator.Wilder` | script.js:47-50 | smoothing a non-negative average with non-negative values keeps it non-negative |
| `Indicator.WilderStep` | script.js:47-50 | smoothing a run one value longer is one more Wilder step on the shorter run's result |
| `Indicator.WilderAtLeast` | script.js:47-50 | smoothing never goes below a lower bound shared by the start and all the values |
| `Indicator.WilderAtMost` | script.js:47-50 | smoothing never goes above an upper bound shared by the start and all the values |
| `Indicator.WilderPositive` | script.js:47-50 | smoothing non-negative values from a positive start stays positive |
| `Indicator.Sum` | script.js:43-44 | the reduce-sum of non-negative values is non-negative |
| `Indicator.Seed` | script.js:43-44 | the seed of non-negative values is non-negative; with fewer than 14 values it is their whole sum divided by 14 |
| `Indicator.SumAtMost` | script.js:43-44 | the reduce-sum of n values each at most hi is at most n · hi |
| `Indicator.SumPositive` | script.js:43-44 | the reduce-sum of a non-empty run of positive values is positive |
| `Indicator.InitialAverage` | script.js:42-50 | with at most 14 values no smoothing step is taken and the average is the seed |
| `Indicator.InitialAverageNonNegative` | script.js:42-50 | the seeded and smoothed average of non-negative values is non-negative |
| `Indicator.InitialAverageWithin` | script.js:42-50 | the seeded and smoothed average of values in [0, hi] lies in [0, hi] |
| `Indicator.InitialAveragePositive` | script.js:42-50 | the seeded and smoothed average of positive values is positive |
| `Indicator.InitialAverageExtend` | script.js:46-50 | with at least 14 values, one more value is one more Wilder step on the average |
| `Indicator.Gains` | script.js:36-40 | n ≥ 1 closes give n − 1 gains (none for an empty history), each ≥ 0 |
| `Indicator.Losses` | script.js:36-40 | n ≥ 1 closes give n − 1 losses (none for an empty history), each ≥ 0 |
| `Indicator.SplitHistory` | script.js:36-40 | n closes give n − 1 gains and losses, the i-th split from `closes[i+1] - closes[i]` |
| `Indicator.HistoryExtend` | script.js:36-40 | appending a close appends the gain and the loss of its difference from the previous last close |
| `Indicator.HistoryAveragesNonNegative` | script.js:36-50 | every gain and loss of a history is ≥ 0, and so are both initial averages |
| `Indicator.RisingHistory` | script.js:31-58 | a strictly rising history gives average loss 0, a positive average gain and RSI 100 |
| `Indicator.FallingHistory` | script.js:31-58 | a strictly falling history gives average gain 0, a positive average loss and RSI 0 |
| `Indicator.FlatHistory` | script.js:31-58 | a history of two or more closes without movement gives both averages 0 and the undefined (NaN) RSI |
| `Alerts.CheckAlert` | script.js:98-113 | bearish exactly when previous ≥ 70 and current < 70. Bullish exactly when previous ≤ 30 and current > 30. Nothing otherwise, so at most one alert per commit, and the neutral-range branch has no effect |
| `Alerts.UndefinedIsSilent` | script.js:102-106 | an undefined (NaN) RSI on either side of a step raises no alert |
| `Alerts.InsideBandIsSilent` | script.js:101-112 | a step that stays strictly between 30 and 70 raises no alert |
| `Alerts.NoRepeatedAlert` | script.js:101-108 | a bearish (bullish) step cannot be followed directly by another bearish (bullish) step |

## Left out

- Fetching historical klines, `resp.json()`, `JSON.parse` and `parseFloat` (script.js:32, 162-165, 178-182) are network I/O and decoding. Closes enter the model as `seq<real>`, so a `NaN` produced by a failed parse is not modelled.
- The WebSocket subscription, `onmessage` dispatch, `onerror`, and the `onclose` reconnection after 5 seconds (script.js:174-191) are I/O and timers. Only their effect on the table is modelled: each message is one `UpdateRsi` call, and a reconnection re-runs `InitState` and `LoadHistory`.
- `start`'s per-symbol loop and its `try`/`catch` (script.js:157-171) are I/O sequencing. A thrown `TypeError` appears as the `ReduceOfEmpty`, `NotRegistered` and `NotTracked` outcomes, each of which leaves the table as the exception would.
- `updateUI` and the DOM side of `setAlert` (script.js:115-155) are presentation only: text, gauge offset, colours and the 2-second border reset. The model returns the values they would show (`Tick`, `Alert`).
- `alertActive` (script.js:23) is initialised but never written or read, so it carries no behaviour.
- IEEE-754 rounding, signed zeros, and `NaN`/`Infinity` are not modelled beyond the explicit division-by-zero convention above.
- Records are values in a `map`, so in-place mutation of a shared record object is not modelled. No record is ever shared: `initState` creates each one fresh.
- The record invariant `Valid()` (non-negative averages, RSIs in range) is required by the class methods. Every operation of the model establishes and keeps it, so this excludes no reachable state.
