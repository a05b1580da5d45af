# Trade journal accounting core, in Dafny

This project models the accounting engine of a personal trading journal. A
user logs trades through a form. The ledger keeps the ordered trade list and the
account balances. The dashboard derives win/loss statistics, a profit factor
and an equity curve. Two stand-alone calculators give Forex pips and options
profit/loss.

Modules, one per source file:

- `Types` (types.dfy): the enumerations `AssetClass`, `TradeDirection` and
  `TradeStatus`, and the records `Trade`, `TradeDraft` (a trade without its id)
  and `AccountState`. It also holds the left-fold `SumPnL` that the ledger and
  the dashboard share.
- `TradeLog` (trade_log.dfy): `calculatePnL` as `CalculatePnL`, and the form
  record `FormData`. The form state is a class `TradeForm` whose
  `InputChange` and `Submit` update it. The record it builds is `BuildRecord`,
  and the reset after a submit is `ResetAfterSubmit`.
- `App` (app.dfy): the class `Ledger` with fields `trades: seq<Trade>` and
  `account: AccountState`. `AddTrade`, `DeleteTrade` and `SetInitialBalance`
  change one field each. `RecomputeBalance` is the effect that follows them and
  establishes `Settled()`: currentBalance = initialBalance + Σ pnl.
- `Dashboard` (dashboard.dfy): `ComputeStats` over the closed trades. The stable
  date sort is `SortByDate`. The equity-curve loop is the method
  `BuildEquityCurve`.
- `Calculators` (calculators.dfy): `CalculatePips` and `CalculateOptionsProfit`.

Modelling choices:

- Prices and money are exact `real`s.
- A trade's date is an `int` day number (`Day`). The journal's dates are ISO
  `YYYY-MM-DD` strings, and their parsed times are ordered the same way.
- A numeric input holding `''` or a number is `NumInput = Blank | Number(real)`.
- The trade id, which the source takes from the clock, is a parameter of
  `AddTrade`.
- The form's date default, which the source takes from the clock, is a
  parameter of the `TradeForm` constructor.
- JavaScript division by zero in the profit factor is a datatype:
  `Ratio(real) | PosInfinity | NegInfinity | NotANumber`. The display shows
  the symbol ∞ for every non-ratio.
- The inputs marked `required` (date, symbol, quantity and entry price) stop
  the browser from submitting when they are empty. `BuildRecord` then returns
  `None` and `Submit` leaves the form as it was.
- The symbol is stored as typed; only a CSS `uppercase` class styles it
  (components/TradeLog.tsx:105).
- In the pips calculator the lot size is a `real`. Its state type allows `''`,
  but it starts at 1 and every edit stores `Number(value)`.
- In the pips calculator, entry and exit are `Blank` only before their first
  edit. Every edit stores `Number(value)`, so clearing a field gives 0, not `''`.
- React runs the balance effect after the state change has been committed, so
  `AddTrade`, `DeleteTrade` and `SetInitialBalance` leave currentBalance stale.
  `RecomputeBalance`, which depends on the trades and initialBalance
  (App.tsx:42), then makes it consistent.

## Model

| member | source | states |
|---|---|---|
| Types.AllAssetClasses | types.ts:1-9 | the asset classes are seven pairwise different values |
| Types.AssetClassListed | types.ts:1-9 | every asset class is among those seven |
| Types.TwoDirectionsTwoStatuses | types.ts:11-19 | a direction is Long or Short and a status Open or Closed, and the two values differ |
| Types.StatusNameClosed | components/Dashboard.tsx:16 | comparing the status's string value with 'Closed' selects exactly the Closed status |
| Types.TradeDraft.WithId | App.tsx:44-45 | the stored trade carries the given id and otherwise exactly the draft's fields |
| Types.SumPnL | App.tsx:37 | the `reduce` total of the pnl values, also used at components/Dashboard.tsx:21; its behaviour on concatenations is given by SumPnLAppend, SumPnLSnoc and SumPnLCons |
| Types.SumPnLAppend | App.tsx:37 | the summed pnl of a concatenation is the sum of the two sums |
| Types.SumPnLSnoc | App.tsx:37 | appending a trade adds exactly its pnl to the sum |
| Types.SumPnLCons | components/Dashboard.tsx:21 | the sum equals the first pnl plus the sum of the rest |
| TradeLog.CalculatePnL | components/TradeLog.tsx:32-54 | `calculatePnL`; its branches are stated by ForexPnL and NonForexPnL, its symmetry by DirectionFlipNegates and its sign by PnLSign |
| TradeLog.ForexPnL | components/TradeLog.tsx:47-49 | Forex pnl is the directional move × quantity × 100000 |
| TradeLog.NonForexPnL | components/TradeLog.tsx:50-53 | every other class, Index and Futures included, gives move × quantity |
| TradeLog.DirectionFlipNegates | components/TradeLog.tsx:37-53 | Short pnl is the negation of Long pnl for the same prices, size and class |
| TradeLog.FlatTradeZeroPnL | components/TradeLog.tsx:37-53 | exit equal to entry gives pnl 0 for every class and direction |
| TradeLog.PnLSign | components/TradeLog.tsx:32-54 | for a positive size, pnl > 0 exactly when the price moved the trade's way and pnl < 0 exactly when it moved against it |
| TradeLog.ForexLotExample | components/TradeLog.tsx:45-48 | one Forex lot from 1.1000 to 1.1050 makes 500 Long and −500 Short |
| TradeLog.Set | components/TradeLog.tsx:27-30 | the named form field takes the new value and every other field keeps its old one |
| TradeLog.ResetAfterSubmit | components/TradeLog.tsx:74-75 | symbol, prices, quantity and notes become empty; date, class, direction and status are kept |
| TradeLog.ResetRestoresDefaults | components/TradeLog.tsx:15-25 | the reset gives the cleared fields exactly their initial values, so a fresh form is left as it was |
| TradeLog.EffectiveExit | components/TradeLog.tsx:59 | an empty or zero exit price becomes the entry price; any other exit price is kept |
| TradeLog.BuildRecord | components/TradeLog.tsx:56-72 | a record exists exactly when the required inputs are filled; it copies date, class, symbol, direction, status and notes unchanged; pnl is 0 when Open and calculatePnL on the parsed prices when Closed |
| TradeLog.OpenTradeHasZeroPnL | components/TradeLog.tsx:62-64 | an Open trade gets pnl 0 whatever its prices |
| TradeLog.MissingExitHasZeroPnL | components/TradeLog.tsx:59-64 | an empty or zero exit makes the exit equal the entry, so the pnl is 0 |
| TradeLog.TradeForm.constructor | components/TradeLog.tsx:15-25 | the form opens on the given date with Forex, Long, Closed and empty text and number inputs |
| TradeLog.TradeForm.InputChange | components/TradeLog.tsx:27-30 | the form becomes Set(old form, name, value); every other field is unchanged |
| TradeLog.TradeForm.Submit | components/TradeLog.tsx:56-76 | returns BuildRecord of the form; after a submit the form is the partial reset of the old form, otherwise unchanged |
| App.WithoutId | App.tsx:49-51 | the result holds exactly the trades whose id differs from the given one and is no longer than the list |
| App.WithoutIdAppend | App.tsx:49-51 | deleting from a concatenation deletes from each part, so the survivors keep their order |
| App.WithoutAbsentId | App.tsx:49-51 | deleting an id no trade carries leaves the list as it is |
| App.AddThenDeleteRestores | App.tsx:36-51 | appending a trade with a fresh id and deleting that id restores the previous list and so the previous pnl total |
| App.Ledger.constructor | App.tsx:13-18 | the ledger starts with no trades and 10000 as both balances, which is settled |
| App.Ledger.AddTrade | App.tsx:44-47 | the trade list becomes the old list plus the draft, with the given id, at the end; the account is untouched |
| App.Ledger.DeleteTrade | App.tsx:49-51 | the trade list becomes WithoutId of the old list, unchanged when the id is absent; the account is untouched |
| App.Ledger.SetInitialBalance | App.tsx:53-59 | only initialBalance changes; the trades are untouched |
| App.Ledger.RecomputeBalance | App.tsx:36-42 | afterwards currentBalance = initialBalance + Σ pnl over all trades, open ones included; the trades and initialBalance are unchanged |
| Dashboard.ClosedTrades | components/Dashboard.tsx:16 | the result holds exactly the closed trades of the list |
| Dashboard.CountWins | components/Dashboard.tsx:18 | the number of trades with pnl > 0; WinsPlusLosses and GrossProfitSign relate it to the other figures |
| Dashboard.CountLosses | components/Dashboard.tsx:19 | the number of trades with pnl ≤ 0; WinsPlusLosses and NoLossesIffAllWin state what it counts |
| Dashboard.GrossProfit | components/Dashboard.tsx:22 | the sum of the positive pnl values; GrossProfitSign and GrossSplit state its sign and its share of the total |
| Dashboard.GrossLoss | components/Dashboard.tsx:22 | the sum of the negative pnl values; GrossLossSign and GrossSplit state its sign and its share of the total |
| Dashboard.ClosedAppend | components/Dashboard.tsx:16 | filtering a concatenation filters each part |
| Dashboard.OpenTradeIgnored | components/Dashboard.tsx:16-24 | appending an Open trade changes neither the closed trades nor any statistic |
| Dashboard.WinsPlusLosses | components/Dashboard.tsx:17-19 | wins + losses = number of closed trades |
| Dashboard.NoLossesIffAllWin | components/Dashboard.tsx:18-19 | there are no losses exactly when every pnl is positive, so a breakeven trade is a loss |
| Dashboard.GrossProfitSign | components/Dashboard.tsx:22 | gross profit is at least 0, and positive exactly when some trade won |
| Dashboard.GrossLossSign | components/Dashboard.tsx:22 | gross loss is at most 0, and 0 exactly when no trade has pnl < 0 |
| Dashboard.GrossSplit | components/Dashboard.tsx:21-22 | the total pnl is gross profit plus gross loss |
| Dashboard.TotalIsProfitPlusLoss | components/Dashboard.tsx:21-22 | the statistics' total pnl equals gross profit plus gross loss of the closed trades |
| Dashboard.Divide | components/Dashboard.tsx:22 | the quotient is finite exactly when the denominator is positive, and then times the denominator gives the numerator |
| Dashboard.WinRate | components/Dashboard.tsx:20 | 0 when there are no trades, otherwise the percentage of wins; always within [0, 100] |
| Dashboard.ProfitFactorOf | components/Dashboard.tsx:22 | with no losses the profit factor is the count of wins |
| Dashboard.ProfitFactorWithLosses | components/Dashboard.tsx:22 | with losses, a trade with negative pnl makes the factor a ratio ≥ 0 with factor × abs(gross loss) = gross profit, and no such trade makes it non-finite |
| Dashboard.ComputeStats | components/Dashboard.tsx:15-25 | the counts are over closed trades only and add up; the win rate is WinRate of wins and total, so wins × 100 / total, 0 with no closed trades and in [0, 100]; the total is the closed pnl sum; the profit factor is ProfitFactorOf the closed trades, so the win count with no losses and gross profit divided by the size of the gross loss otherwise (ProfitFactorWithLosses) |
| Dashboard.BreakevenMakesProfitFactorInfinite | components/Dashboard.tsx:19-22 | one winner alone has profit factor 1; adding a breakeven closed trade makes it +∞ |
| Dashboard.WinnerAndLoserExample | components/Dashboard.tsx:15-24 | a +500 and a −200 trade give 2 trades, 1 win, 1 loss, 50%, total 300 and profit factor 2.5 |
| Dashboard.InsertByDate | components/Dashboard.tsx:32-34 | inserting lengthens the sequence by one |
| Dashboard.InsertedMembers | components/Dashboard.tsx:32-34 | inserting brings in no trade other than the new one |
| Dashboard.InsertKeepsSorted | components/Dashboard.tsx:32-34 | inserting into a date-sorted sequence keeps it sorted |
| Dashboard.InsertMultiset | components/Dashboard.tsx:32-34 | inserting adds exactly the new trade to the multiset |
| Dashboard.InsertSum | components/Dashboard.tsx:32-34 | inserting adds exactly the new trade's pnl to the sum |
| Dashboard.InsertOnDate | components/Dashboard.tsx:32-34 | per date, the inserted trade comes after the earlier trades of that date |
| Dashboard.OnDateAppend | components/Dashboard.tsx:32-34 | the trades of one date in a concatenation are those of each part |
| Dashboard.NoneOnEarlierDate | components/Dashboard.tsx:32-34 | a sorted sequence that starts after a date holds no trade of that date |
| Dashboard.SortByDate | components/Dashboard.tsx:32-34 | the sorted copy has as many trades as the input |
| Dashboard.SortByDateSorted | components/Dashboard.tsx:32-34 | the sorted copy is in ascending date order |
| Dashboard.SortByDatePermutes | components/Dashboard.tsx:32-34 | the sorted copy is a permutation of the input |
| Dashboard.SortByDateKeepsSum | components/Dashboard.tsx:32-34 | sorting keeps the total pnl |
| Dashboard.SortByDateStable | components/Dashboard.tsx:32-34 | trades of equal date keep their input order |
| Dashboard.DigitChar | components/Dashboard.tsx:39 | a digit prints as a character '0' to '9' |
| Dashboard.NatToString | components/Dashboard.tsx:39 | a numeral has at least one digit, and at least two from 10 on |
| Dashboard.NatToStringInjective | components/Dashboard.tsx:39 | different numbers print differently |
| Dashboard.PointLabelsDistinct | components/Dashboard.tsx:29-39 | the labels T1, T2, … differ pairwise and none is "Start" |
| Dashboard.CurveNamesDistinct | components/Dashboard.tsx:29-43 | the points of a curve have pairwise different names |
| Dashboard.CurveExtend | components/Dashboard.tsx:36-43 | processing one more trade appends the point labelled by its position, holding its pnl and the previous balance plus that pnl, and keeps the curve well formed |
| Dashboard.CurveLastBalance | components/Dashboard.tsx:29-43 | the last point of a curve holds the initial balance plus the total pnl of the trades it was built from |
| Dashboard.BuildEquityCurve | components/Dashboard.tsx:27-45 | the point names differ pairwise; the result is the curve (IsCurveOf) of the closed trades in stable date order: one point more than there are closed trades; first point "Start" with the initial balance and pnl 0; point k is T k with the k-th date-sorted closed trade's pnl and the previous balance plus that pnl; the last balance is the initial balance plus the closed pnl total |
| Calculators.IsJpy | components/Calculators.tsx:47 | `pair.includes('JPY')`; OfferedPairs states its value for each pair on offer |
| Calculators.PipMultiplier | components/Calculators.tsx:48 | 100 for a yen pair, 10000 otherwise, as OfferedPairs states for the pairs on offer |
| Calculators.PipValue | components/Calculators.tsx:53 | 9 dollars per pip for a yen pair, 10 otherwise, as OfferedPairs states for the pairs on offer |
| Calculators.ContainsFrom | components/Calculators.tsx:47 | an occurrence of the substring at any position makes the includes test true |
| Calculators.OfferedPairs | components/Calculators.tsx:47-53 | of the offered pairs only USDJPY is a yen pair (100 and 9); EURUSD, GBPUSD and XAUUSD use 10000 and 10 |
| Calculators.CalculatePips | components/Calculators.tsx:44-56 | pips and profit are 0 until both prices are entered; then pips = (exit − entry) × multiplier and profit = pips × lot size × per-pip rate |
| Calculators.PipsMatchForexTrade | components/Calculators.tsx:44-56 | for a pair other than the yen pair, the profit equals the journal pnl of a Long Forex trade of that many lots |
| Calculators.PipsSign | components/Calculators.tsx:49-53 | pips have the sign of exit − entry, and for a positive lot size so does the profit |
| Calculators.PipsNoMove | components/Calculators.tsx:49-53 | equal entry and exit give 0 pips and 0 profit |
| Calculators.CalculateOptionsProfit | components/Calculators.tsx:133-137 | 0 until both premiums are entered; then (sell − buy) × 100 × contracts |
| Calculators.OptionsMatchStockTrade | components/Calculators.tsx:133-137 | the options profit equals the journal pnl of a Long stock trade of 100 shares per contract from the buy to the sell premium |
| Calculators.OptionTypeIgnored | components/Calculators.tsx:128-137 | Call and Put give the same result |
| Calculators.OptionsNoMove | components/Calculators.tsx:133-137 | equal premiums give 0 |

## Left out

- Rendering, navigation, icons, charts and number formatting (`toFixed`, `toLocaleString`), including `chartData.slice(1)` for the pnl chart: presentation only.
- The form's date is always a day in this model: the browser's refusal to submit a cleared date input (components/TradeLog.tsx:96-97) is not modelled.
- The `showForm` flag of the journal form: it only decides whether the form is drawn.
- Loading and saving through `localStorage` (App.tsx:21-33): input/output against the browser's store.
- Id generation from `Date.now()` and the form's default date from `new Date()`: clocks, taken as parameters instead.
- Date parsing in the sort comparator and invalid dates: a date is an already-ordered day number.
- JavaScript floating point: rounding, `NaN` from `parseFloat` on malformed text, the `|| 0` guard against a `NaN` pnl (App.tsx:37) and `isFinite`. Numbers are exact reals; only the profit factor's division by zero is modelled.
- The `fees` field: stored and optional, but no computation reads it.
- The unused `multiplier` local of `calculatePnL` (components/TradeLog.tsx:40-41): dead code.
- The AI mentor (components/AIAnalysis.tsx, services/geminiService.ts): an asynchronous call to an external language-model service.
