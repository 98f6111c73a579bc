# Bollinger mean-reversion expert advisor — a Dafny model

This project models the decision and order-management core of an MQL5 expert
advisor (`bot.cpp`). The advisor trades one instrument. It reads three
Bollinger band lines once per new bar. When the last closed bar pierced a band
and the price has come back inside it, it reverses exposure: it closes every
position of the opposite side that carries its magic number, then opens one
fill-or-kill market deal on its own side unless it already holds such a
position.

The modules follow the program's structure:

- `Market` (market.dfy) holds the shared vocabulary: position sides, order types, the trade request record, the quote, the input parameters, the band snapshot, the buy/sell order-type mapping and the position an accepted opening deal creates.
- `Signals` (signals.dfy) holds the two entry rules and the long-before-short priority, as pure functions.
- `Orders` (orders.dfy) holds the entry price, stop-loss and take-profit formulas and the opening and closing requests, as pure functions.
- `Positions` (positions.dfy) specifies what one descending close-all pass over the broker's position list submits and leaves behind, with the lemmas about it.
- `Broker` (broker.dfy) holds the `Gateway` class. It stands for the trading account: the open positions, the record of every submitted request, and an oracle giving the broker's answer to each submission.
- `Expert` (expert.dfy) holds the `Advisor` class. Its methods are the start-up, shutdown and tick handlers, and the three position routines. Each is proved against the functions above.

Modelling choices:

- Prices are exact reals. The point size is a constant of the advisor. One `Quote` stands for the bid and ask for the whole of a tick.
- Whether `OrderSend` succeeds is the gateway's `verdict`, indexed by the number of submissions made before it. Every request is appended to the gateway's `journal`.
- An accepted closing deal removes the position at the index being visited, so the entries above it shift down. Only entries the descending loop has already visited move, so it still visits every original entry exactly once. An accepted opening deal adds its position at the top of the list, as on a hedging account (see "## Left out" for how this sits with the ticketless closing deal). The broker numbers that position's ticket by the submission.
- The host-supplied values of one tick form a `MarketData` record: the open time of the bar in progress, the values each band read delivers, the quote and the last close. The indicator handle and the current bar time at start-up are parameters of `OnInit`.
- The program's globals start at zero or empty.

Behaviour of the code worth noting:

- Start-up seeds the bar gate with the open time of the bar in progress (bot.cpp:47). It does not start from "no bar seen", so the bar open at start-up is never processed (`Expert.StartupBarIsSkipped`).
- The band guard rejects any count other than 3 (`!= 3`, bot.cpp:75-77), not only "fewer than 3". A failed read still overwrites the band buffers read up to that point. The reads after the short one are skipped.
- Start-up obtains the indicator handle before it validates the parameters, and checks the handle first.
- The close-all routine returns no count of closed or failed positions, and the opening routine returns no result. Outcomes are visible only through the gateway's journal and positions.
- "No short position is held after a long signal" holds only when the broker accepts every closing deal (`Positions.AcceptedClosesClearSide`, `Expert.TickClearsClosedSide`). A rejected close leaves its position in place, and the loop carries on.
- Shutdown releases the handle whenever it is valid. Nothing resets it afterwards, so a repeated shutdown would release it again.

## Model

| member | source | states |
|---|---|---|
| Market.OpeningOrderType | bot.cpp:92-100 | a buy position is opened by a buy order and a sell position by a sell order |
| Market.ClosingOrderType | bot.cpp:173 | the offsetting order type always differs from the opening one |
| Market.OpenedPositionType | bot.cpp:92-100 | an opening order creates the side that order type opens (the inverse of `OpeningOrderType`) |
| Market.NewPosition | bot.cpp:127 | the position an accepted opening deal creates has the deal's instrument, magic number and volume, on the side its order type opens |
| Signals.Decide | bot.cpp:89-101 | with the two rules as `LongSignal` (bot.cpp:89) and `ShortSignal` (bot.cpp:96): long exactly when the close is at or below the lower band and the bid above it; short exactly when the long test fails and the close is at or above the upper band with the ask below it; otherwise nothing |
| Signals.SignalsExclusive | bot.cpp:89-96 | with the upper band not below the lower one and the ask not below the bid, the long and short rules never hold together |
| Signals.DecideIgnoresMiddle | bot.cpp:75-96 | replacing the middle line never changes the decision |
| Signals.BounceScenario | bot.cpp:89 | a close below the lower band followed by a bid back above it is a long entry; with the bid still at the close nothing fires |
| Orders.OpenRequest | bot.cpp:109-125 | the opening deal is a fill-or-kill market deal on this symbol, of the requested type, for the configured lot size, deviation and magic number |
| Orders.ProtectiveLevelsBracketEntry | bot.cpp:109-111 | for the request built from `EntryPrice`, `StopLossPrice` and `TakeProfitPrice`, with positive point size and distances: a buy is priced at the ask with sl < price < tp, a sell at the bid with tp < price < sl, each level exactly its configured number of points away |
| Orders.LevelsExample | bot.cpp:110-111 | with point 0.0001, SL 10 and TP 15, a buy at 1.2000 gets levels 1.1990/1.2015 and a sell at 1.2000 gets 1.2010/1.1985 |
| Orders.CloseRequest | bot.cpp:167-177 | the closing deal has the opposite order type, the position's whole volume, the bid when a buy is closed and the ask when a sell is closed, zero levels, and the configured deviation, magic number and fill-or-kill |
| Positions.MatchIndices | bot.cpp:160-165 | every listed index is below the bound and its entry passes `Matches`, the symbol, magic number and side test of bot.cpp:163-165 |
| Positions.MatchIndicesComplete | bot.cpp:160-165 | every matching index below the bound is listed |
| Positions.MatchIndicesDescending | bot.cpp:160 | the listed indices strictly decrease, so each is visited once, highest first |
| Positions.CloseRequestsPerMatch | bot.cpp:160-188 | `CloseRequests`, the requests of the pass: the pass submits exactly one closing deal per matching entry, in descending index order, and none for other entries, whatever the broker answers |
| Positions.CloseRequestsOffsetSide | bot.cpp:170-177 | every closing deal of a pass for side t has the offsetting order type and price, this symbol, the configured deviation and magic number, and fill-or-kill |
| Positions.SurvivorsKeepOtherSide | bot.cpp:163-165 | a pass for side t never changes whether a position of the other side is held |
| Positions.SurvivorsKeepUntouched | bot.cpp:160-188 | of `Survivors`, the list the pass leaves under the broker's answers: every entry that does not match survives the pass, in its original order |
| Positions.AcceptedClosesClearSide | bot.cpp:179-186 | when the broker accepts every closing deal of the pass, no matching entry of side t remains |
| Positions.RejectedClosesKeepAll | bot.cpp:179-182 | when the broker rejects every closing deal, the list is left exactly as it was |
| Positions.SurvivorsLength | bot.cpp:179-186 | under any mix of answers the pass removes exactly one entry per accepted closing deal |
| Broker.Gateway.SendOpen | bot.cpp:127 | the request is recorded; the outcome is the broker's verdict on that submission; on acceptance exactly the new position is added at the top of the list, otherwise the list is unchanged |
| Broker.Gateway.SendClose | bot.cpp:179 | the request is recorded; the outcome is the broker's verdict; on acceptance exactly the selected entry leaves the list |
| Expert.TickOpensAtMostOnce | bot.cpp:89-101 | of `TickRequests`, the requests of one processed tick: a reaction closes the side opposite to the one it may open; all closing deals come first, followed by at most one opening deal, which is sent exactly when the opened side was not held |
| Expert.TickClearsClosedSide | bot.cpp:91-100 | of `TickPositions`, the list one processed tick leaves: the close pass never changes whether the opened side is held, so afterwards that side is held exactly when it was held before or the opening deal was accepted; with every close accepted the closed side is gone |
| Expert.NextSignalDoesNotReopen | bot.cpp:92-100 | once a reaction's opening deal is accepted, a later bar with the same signal sends only closing deals, no second opening deal |
| Expert.ReactionOutcome | bot.cpp:91-100 | closing the opposite side, testing the list it left, then opening when the test fails yields exactly the tick's requests and list |
| Expert.Advisor.OnInit | bot.cpp:28-50 | start-up succeeds exactly when the handle is valid and lot size, take-profit and stop-loss are positive (`ParametersValid`, bot.cpp:40); an invalid handle is reported before bad parameters; on success the gate holds the bar in progress |
| Expert.Advisor.OnDeinit | bot.cpp:55-60 | the handle is released exactly when it is valid |
| Expert.Advisor.HasOpenPosition | bot.cpp:140-153 | true exactly when some position matches symbol, magic number and side (so false on an empty list), and nothing is changed |
| Expert.Advisor.CloseAllPositions | bot.cpp:158-189 | the journal grows by exactly the closing deals of the pass, and the list becomes the pass's survivors under the broker's verdicts; a rejection does not stop the loop |
| Expert.Advisor.OpenPosition | bot.cpp:107-135 | exactly the opening deal of the requested type at the current quote is submitted; the list gains its position exactly when the broker accepts it |
| Expert.Advisor.OnTick | bot.cpp:65-102 | a tick on the bar already seen changes nothing; any other bar time is stored first; a short band read aborts before the broker is touched and leaves the buffers read so far overwritten; otherwise the long-then-short decision runs, and the tick submits exactly that reaction's requests and leaves exactly its survivors |
| Expert.StartupBarIsSkipped | bot.cpp:47-70 | after a successful start-up, a tick on the bar then in progress submits nothing |
| Expert.RepeatedTickIsIgnored | bot.cpp:68-72 | a second tick on a bar already processed returns at once: together the two ticks change the account exactly as the first tick alone does (nothing on the same bar or a short band read, otherwise exactly that bar's reaction requests and surviving list) |

## Left out

- main.py is not part of this model. It only downloads price history and writes it to a CSV file.
- The Bollinger band computation (`iBands`, bot.cpp:31) is the host's indicator. The band values and the handle are inputs.
- The broker's execution is modelled only as an accept/reject oracle. Slippage enforcement and partial fills are not modelled. An accepted opening deal adds a full position as on a hedging account; a netting account, where a deal offsets or merges with an existing position, is not modelled. The closing deal carries no position ticket in the source (bot.cpp:167-177), and the model records it exactly as built.
- Changes to the account between ticks are not modelled: stop-loss and take-profit hits, other strategies' and manual trades. The list changes only through the advisor's own deals.
- Expert.Advisor.HasOpenPosition: a failure of `PositionGetTicket` to select an entry is not modelled; every index is assumed readable.
- Expert.Advisor.CloseAllPositions: same assumption about `PositionGetTicket`. An accepted close is assumed to remove the visited entry at once; because the loop runs from the top index down, that removal shifts only entries already visited, so every original entry is still visited exactly once.
- Expert.Advisor.CloseAllPositions: the closing deal carries no position ticket (bot.cpp:167-177). On the hedging account assumed for opening deals, such a deal would open a new opposite position instead of closing the selected one. The model instead treats an accepted close as offsetting the visited entry, so `Positions.AcceptedClosesClearSide`, `Positions.SurvivorsLength` and the second promise of `Expert.TickClearsClosedSide` describe that behaviour, not what a hedging account would do with the source's request.
- Expert.Advisor.OnTick: the source re-reads the bid and ask inside each routine. The model uses one quote for the whole tick, so it does not capture the price moving between the band test and a submission.
- Prices and the point size are exact reals, not IEEE doubles. Rounding in `StopLoss * _Point` and in the band comparisons is not modelled.
- The integer parameters are unbounded. Conversions such as `Slippage` to the request's unsigned deviation field, or `MagicNumber` to its 64-bit field, are not modelled.
- `Print` and `GetLastError` (bot.cpp:35, 42, 79, 129-133, 181-185) are diagnostics only. Success or failure is visible through the journal instead.
- `RiskPercent` (bot.cpp:18) is declared but never read. It is a field of the configuration and nothing uses it.
- Host scheduling: ticks are delivered one at a time. The model has no concurrency.
