# Elder transitions strategy: the per-bar decision step

`main.py` configures an "Elder triple screen" style trading strategy for the
backtrader engine. The engine computes the indicators (weekly EMA, MACD
histogram and ADX; daily ATR, RSI and EMA200), feeds the bars and fills the
orders. The one piece of logic the repository writes itself is
`ImprovedElderStrategy.next`, called once per daily bar. This project models
that step and proves its properties:

- the weekly trend classifier (1 up, -1 down, 0 flat) for the current and the previous weekly bar;
- the entry gate, which fires only when flat and when momentum "just faded to flat", with ADX, RSI and EMA200 filters;
- the position sizer: risk fraction of equity divided by ATR, truncated toward zero like Python's `int()`;
- the exit logic: a take-profit limit order and a stop-loss stop order at the remembered entry price ± ATR × multiplier on every open bar, plus a full close when the weekly state flips against the position.

Layout:

- `orders.dfy` (`Orders`): order intents (`buy`, `sell`, `close` calls), sides, signed quantities.
- `signals.dfy` (`Signals`): the parameters with their defaults, the indicator snapshot, `Classify` and the two entry gates.
- `sizing.dfy` (`Sizing`): Python `int()` truncation and the position size.
- `exits.dfy` (`Exits`): bracket prices and the orders placed while a position is open.
- `strategy.dfy` (`Strategy`): `Step`, the whole decision for one bar as a function; the class `ImprovedElderStrategy` whose `Next` method appends to its order list and updates `orderTargetPrice` exactly as `Step` says; the lemmas about `Step`.
- `symmetry.dfy` (`Symmetry`): long/short symmetry of the whole step.
- `trace.dfy` (`Trace`): a run of many bars, and what stays true across it.

Inputs that come from outside `next` are parameters: the indicator values of
the bar (`Snapshot`, including the lagged weekly values at index -1 and -2),
the broker's total value (`equity` / `brokerValue`) and the signed position
size. The outputs are the order intents and the new `order_target_price`.

Python exceptions are modelled, not assumed away. On a flat bar the size is
computed before any gate is checked, so an ATR of exactly zero raises
`ZeroDivisionError` on every flat bar after the warm-up (`FlatRaisesOnZeroAtr`).
An open position with `order_target_price` never assigned would raise
`AttributeError`. A run that starts with a remembered price never raises it
(`Trace.TargetIsAnEntryClose`). A run from a fresh strategy raises it only on
a bar whose position is open although no earlier bar placed an entry
(`Trace.AttributeErrorNeedsForeignPosition`). Both exceptions are raised
before any order is placed, so `Next` leaves the object unchanged when one
occurs.

A long entry follows a weekly *fall* that fades to flat (`main.py:49` tests
`prev == -1`). A rise that fades to flat can only trigger a short, and only
below EMA200. `Strategy.RiseThenFlatAboveTrendStaysOut` and
`Strategy.FallThenFlatAboveTrendEntersLong` show both cases on concrete values.

## Model

| member | source | states |
|---|---|---|
| `Signals.Defaults` | main.py:9-16 | The shipped parameters: take-profit multiple above stop-loss multiple, RSI thresholds 30/70 symmetric about 50, fast MACD period below slow |
| `Signals.Classify` | main.py:41-44 | The weekly state is exactly one of 1, -1, 0; 1 iff EMA and histogram both rose strictly, -1 iff both fell strictly, 0 iff neither |
| `Signals.ClassifyTieIsFlat` | main.py:41-44 | A tie in the EMA or in the histogram always gives the flat state |
| `Signals.ClassifyNegate` | main.py:41-44 | Negating both weekly lines negates the state |
| `Signals.Curr` | main.py:41-42 | The current weekly state is 1, 0 or -1, and directional only when both weekly lines moved since the previous weekly bar |
| `Signals.Prev` | main.py:43-44 | The previous weekly state is the current-bar rule applied one weekly bar earlier |
| `Signals.LongEntry` | main.py:49 | The long gate implies a weekly fall on the previous bar in both lines and a close above EMA200 |
| `Signals.ShortEntry` | main.py:52 | The short gate implies a weekly rise on the previous bar in both lines and a close below EMA200 |
| `Signals.LongEntryMeans` | main.py:43-49 | The long gate holds iff the previous weekly bar fell in both lines, the current bar is flat, ADX > threshold, RSI > low threshold and close > EMA200 |
| `Signals.ShortEntryMeans` | main.py:43-52 | The short gate holds iff the previous weekly bar rose in both lines, the current bar is flat, ADX > threshold, RSI < high threshold and close < EMA200 |
| `Signals.EntriesExclusive` | main.py:49-54 | The long and short gates never hold on the same bar |
| `Orders.ClosingSide` | main.py:56-71 | An order for the whole position on the closing side brings the position back to zero |
| `Sizing.Truncate` | main.py:47-48 | Python `int()`: the result has the sign of its input and lies less than 1 from it, toward zero |
| `Sizing.TruncateNegate` | main.py:47-48 | Truncation of a negated value is the negated truncation |
| `Sizing.RiskBudget` | main.py:47 | With non-negative equity and a risk percentage between 0 and 100, the amount at risk lies between 0 and the equity |
| `Sizing.PositionSize` | main.py:47-48 | The size is zero exactly when the risk budget covers less than one ATR move in either direction |
| `Sizing.PositionSizeBounds` | main.py:47-48 | With ATR > 0 the size is the largest whole count whose ATR move fits in equity × risk% / 100 (non-negative budget), or the matching count toward zero for a negative budget |
| `Sizing.PositionSizeNonNegative` | main.py:47-48 | Non-negative equity and risk with ATR > 0 never give a negative size |
| `Sizing.PositionSizeExample` | main.py:47-48 | 100000 equity at 1% risk gives 500 shares at ATR 2 and 333 at ATR 3 |
| `Exits.BracketFor` | main.py:56-67 | Long: SL < ref < TP; short: TP < ref < SL (ATR and multiples positive); TP lies ATR × tp_mult from ref in the position's favour, SL ATR × sl_mult against it |
| `Exits.BracketMirror` | main.py:57-67 | The short bracket is the long bracket reflected about the reference price |
| `Exits.RewardToRisk` | main.py:13 | With the default multiples the take-profit distance is 1.5 times the stop-loss distance, long or short |
| `Exits.Flipped` | main.py:63-72 | A flip means the weekly state has the opposite sign to the position; a directional state of opposite sign is always a flip |
| `Exits.ExitOrders` | main.py:55-73 | An open bar places a limit at TP then a stop at SL, and a close as third order iff the weekly state flipped against the position; every order is for the whole position in the closing direction, so each one alone would flatten it |
| `Exits.ExitOrdersAllFilled` | main.py:59-73 | The bracket legs are not one-cancels-other: if all orders of one bar filled, the position would end at minus one or minus two times itself |
| `Strategy.Step` | main.py:36-73 | One bar never fails during the warm-up, places at most three orders, and changes `order_target_price` only on a flat bar, to that bar's close |
| `Strategy.WarmupDoesNothing` | main.py:38-39 | With fewer than two weekly EMA values the step places no order and keeps `order_target_price` |
| `Strategy.NoEntryWhileOpen` | main.py:46-73 | With a position open no entry is placed and `order_target_price` is not rewritten; the only possible error is an unset `order_target_price` |
| `Strategy.FlatRaisesOnZeroAtr` | main.py:46-48 | A flat bar after the warm-up raises ZeroDivisionError iff ATR is zero, whatever the gates say |
| `Strategy.LongEntryIff` | main.py:46-51 | A market buy is placed iff the position is flat, the warm-up is over, ATR ≠ 0 and the long gate holds; it is the only order, sized by the risk rule, and the close becomes `order_target_price` |
| `Strategy.ShortEntryIff` | main.py:46-54 | A market sell is placed iff the position is flat, the warm-up is over, ATR ≠ 0 and the short gate holds; it is the only order, sized by the risk rule, and the close becomes `order_target_price` |
| `Strategy.FlatBarAtMostOneEntry` | main.py:46-54 | A flat bar places at most one order; it places one iff a gate holds, and then `order_target_price` becomes the close; otherwise it is unchanged |
| `Strategy.OpenBarBrackets` | main.py:55-73 | An open bar with a known entry price places limit and stop orders on the correct sides of that price for the whole position, a close iff the trend flipped, and keeps the price |
| `Strategy.EntryNeedsFreshFlat` | main.py:41-54 | Any entry needs a directional previous weekly state and a flat current one |
| `Strategy.RiseThenFlatAboveTrendStaysOut` | main.py:49-54 | A rise fading to flat above EMA200 with ADX 20 and RSI 45 places no order |
| `Strategy.FallThenFlatAboveTrendEntersLong` | main.py:47-51 | The same bar after a fall buys 500 shares at market and remembers the close |
| `Strategy.ImprovedElderStrategy.constructor` | main.py:8-16 | A new strategy holds its parameters, no orders and no remembered price |
| `Strategy.ImprovedElderStrategy.Next` | main.py:36-73 | One bar appends exactly the orders `Step` places and sets `orderTargetPrice` as `Step` does, or returns the exception and changes nothing |
| `Symmetry.GatesMirror` | main.py:41-54 | Reflecting prices and RSI negates both weekly states and swaps the long and short gates, when the RSI thresholds sum to 100 |
| `Symmetry.ExitOrdersMirror` | main.py:56-73 | The exit orders of the reflected position are the reflected exit orders |
| `Symmetry.MirrorOrdersNet` | main.py:50-73 | Reflected orders, filled in full, change the position by exactly the opposite amount |
| `Symmetry.MirrorOrdersInvolution` | main.py:50-73 | Reflecting a list of orders twice gives it back |
| `Symmetry.StepMirror` | main.py:36-73 | With RSI thresholds summing to 100, the step on the reflected market and position is the reflection of the step: no long or short bias |
| `Symmetry.DefaultsSymmetric` | main.py:14 | The default RSI thresholds make the shipped strategy symmetric between long and short |
| `Trace.TargetIsAnEntryClose` | main.py:46-73 | Across any run, `order_target_price` is the starting value or the close of a bar that placed an entry; once set it is never unset, so a run that starts with a remembered price never raises AttributeError |
| `Trace.NoPriceMeansNoEntry` | main.py:46-54 | A run from a fresh strategy that still has no remembered price has placed no entry on any bar |
| `Trace.AttributeErrorNeedsForeignPosition` | main.py:55-57 | A run from a fresh strategy raises AttributeError only on a bar past the warm-up whose position is open although no earlier bar placed an entry |
| `Trace.HoldingRun` | main.py:55-73 | While a position stays open with a known entry price, a run never fails, never enters and keeps the price; it places between 2n and 3n orders over n bars, each a non-market order that would exactly close the whole position of one of the bars |

## Left out

- Indicator computation (main.py:23-34): EMA, MACD, ADX, ATR, RSI and EMA200 are computed by backtrader; their current and lagged values are opaque snapshot inputs. What `emaW[-2]` holds when only two weekly values exist is whatever the engine's line buffer returns.
- `run_backtest` and the module-level call (main.py:76-112): market-data download, timezone and column reshaping, engine setup, the Sharpe analyzer and printing are I/O and library plumbing.
- Order execution: fills, rejections, broker cash and equity, and whether the re-sent brackets fill or stay pending belong to the engine. The model emits order intents only. The engine drops an order of size zero; the model still records the `buy`/`sell` call.
- `Close` intents carry the side and size that backtrader's `close()` derives from the position when it is called.
- IEEE floating point: values are exact reals, so rounding, NaN and infinite inputs (for which `int()` raises) are not modelled. Python's `int()` truncation toward zero is modelled exactly.
- Position sizes are whole numbers, as every order this strategy places is.
