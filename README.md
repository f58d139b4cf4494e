# Trading-control core of the Amarktai backend, in Dafny

This project models the rules that decide when the Amarktai trading backend may trade, and what an
order or a monitoring pass does to its state. It also proves properties of those rules. The modules
follow the backend's files:

- `RateLimiting` (`rate_limiter.dfy`): order admission. It keeps per-exchange counts for a
  10-second burst window, a 60-second window and the UTC day, plus a per-bot daily count. The
  `RateLimiter` class updates these counters in place.
- `CircuitBreaking` (`circuit_breaker.dfy`): the per-bot and global drawdown checks, the bot pause,
  the emergency stop, and the monitoring pass over a user's active bots.
- `Autopilot` (`autopilot_basic.dfy`): `check_and_reinvest`. At the bot cap it shares the profit
  into the top five bots. Below the cap it requests a new bot and resets the user's profits.
- `TradingEngine` (`trading_engine_production.dfy`): one cycle of the live engine. It manages open
  live positions (exit checks and the exit order), then opens positions for eligible live bots.
- `Scheduling` (`trading_scheduler.dfy`): `execute_bot_trades` of the paper scheduler. It covers
  the user filter, activation, the 30-minute spacing map kept by the `TradingScheduler` class, and
  the per-user profit sums.
- `DecisionEngine` (`ai_decision_engine.dfy`): the post-processing around the LLM calls. That is the
  0.7 confidence gate on trade decisions, the promotion approval and the 5% AI exit rule.
- `ModelRouter` (`ai_model_router.dfy`): the mode-to-model table, which client answers a chat
  completion, reading BUY/SELL/HOLD off free text, and the health status rule.
- `Exchange` (`ccxt_service.dfy`): the paper balance table, held in place by the `CcxtService`
  class, and the paper branch of `create_market_order`.
- Shared modules:
  - `Store` (`store.dfy`): the Mongo collections as one value `Db`, with `update_one({"id": x})`
    acting on the first matching document.
  - `Wrappers` and `Json` (`wrappers.dfy`): `Option`, the `Call` outcome of a collaborator, and
    decoded JSON values with Python truthiness and `float()`.
  - `Text` (`text.dfy`): ASCII `upper`, substring search, `str(int)` and a decimal `float(str)`.

Collaborators are inputs:
- the exchange, risk engine, trade limiter, key store, data processor and LLM replies (the
  `TradingEngine.Env` record and the `Call` parameters of the decision functions);
- the exchange limits;
- the `config` constants (`Autopilot.Config`);
- the clock: one reading per call, as a real number of seconds.

An exception that the source does not catch is modelled explicitly. It ends the engine cycle, shown as
`Pass.aborted`. There are three such exceptions:
- `get_bot_data` raising in the AI exit check, which calls it outside any `try`;
- a zero entry price in that check (ZeroDivisionError);
- a zero quote in a live entry (ZeroDivisionError).

Caught exceptions become the source's fallback values.

Worth knowing about the code:
- The global drawdown check sums the capital of all of a user's bots, whatever their status, not
  only the active ones (`backend/engines/circuit_breaker.py:50-56`).
- The at-cap reinvestment does not reset any profit field, so the next run shares the same profit
  again (`backend/engines/autopilot_basic.py:37-50`).
- Net profit/loss on exit is `(exit - entry) * qty - fees` for both sides. A short position that
  gains is therefore booked as a loss (`backend/engines/trading_engine_production.py:233-235`).
- The AI exit rule's loss fraction ignores the side as well (`backend/engines/ai_decision_engine.py:135-138`).
- The scheduler's halt gate reads `system_modes.find_one({})`, the first modes document of any user
  (`backend/trading_scheduler_old.py:87-90`), while `trigger_emergency_stop` writes the stopping user's
  own record (`backend/engines/circuit_breaker.py:115-137`). So one user's emergency stop can halt
  every user's dispatch, or fail to halt even that user's. The model takes that first document as a
  parameter and leaves its link to the stored modes open.
- The router never gets an OpenAI client. The assignment runs only when the emergent package
  imported, and `openai` is imported only when that package did not; the NameError raised is caught
  (`backend/engines/ai_model_router.py:17-24,51-58`).

## Model

| member | source | states |
|---|---|---|
| RateLimiting.Touch | backend/rate_limiter.py:11-14 | a defaultdict read stores a zero entry for a missing key, keeps every other entry, and reads the old count |
| RateLimiting.ResetDaily | backend/rate_limiter.py:17-24 | on a later UTC day both daily tables are cleared and `last_reset` moves to today; otherwise nothing changes; the minute and burst windows are never touched |
| RateLimiting.ResetWindow | backend/rate_limiter.py:26-40 | the exchange's window is zeroed with reset time `now` exactly when at least the span has passed since its reset time; a missing window is created at `now`; other exchanges are unchanged |
| RateLimiting.RolloverWindows | backend/rate_limiter.py:44-46 | after the three resets of `can_trade`, the minute window resets only after 60 s and the burst window only after 10 s, and other exchanges' windows are unchanged |
| RateLimiting.Rollover | backend/rate_limiter.py:44-46 | both of the exchange's windows exist afterwards, and apart from them the counters are those of the daily reset; `RolloverWindows` states when each window resets |
| RateLimiting.Decide | backend/rate_limiter.py:50-66 | allowed iff all four counts are below their limits; otherwise the rejection names the first budget breached, in the order burst, exchange day, minute, bot day; the burst limit defaults to 10 |
| RateLimiting.CanTrade | backend/rate_limiter.py:42-66 | the windows and `last_reset` are those of the resets; an admission leaves zero-or-more entries for the exchange and the bot in the daily tables; `CanTradeDecides` and `CanTradeCountsNothing` state the verdict and that nothing is counted |
| RateLimiting.CanTradeDecides | backend/rate_limiter.py:42-66 | the verdict of `can_trade` is `Decide` on the counts left after the resets |
| RateLimiting.CanTradeCountsNothing | backend/rate_limiter.py:42-66 | `can_trade` increments no counter: after the resets, every count reads the same, and the only new keys are the exchange's and the bot's zero entries |
| RateLimiting.Record | backend/rate_limiter.py:68-73 | the exchange's and the bot's day counts rise by one and `last_reset` is kept; `RecordCountsOne` states every count and reset time |
| RateLimiting.RecordCountsOne | backend/rate_limiter.py:68-73 | `record_trade` adds one to the exchange's day, minute and burst counts and to the bot's day count, and to nothing else; reset times and `last_reset` are kept |
| RateLimiting.Rounds | backend/rate_limiter.py:42-73 | a run of check-then-record rounds gives exactly one verdict per attempt |
| RateLimiting.RoundsInOneWindow | backend/rate_limiter.py:42-73 | inside one burst window holding k orders, with the other budgets large enough, check-then-record rounds are allowed until the burst limit and rejected for the burst after it |
| RateLimiting.ElevenOrdersInOneBurstWindow | backend/rate_limiter.py:42-73 | from a fresh limiter with burst limit 10, eleven rounds within 10 s give ten admissions, then a burst rejection |
| RateLimiting.RecordAddsOneToTotal | backend/rate_limiter.py:68-91 | each recorded trade raises `total_orders_today` by exactly one |
| RateLimiting.TouchKeepsTotal | backend/rate_limiter.py:82-90 | the zero entry stored by a read leaves `total_orders_today` unchanged |
| RateLimiting.RateLimiter.constructor | backend/rate_limiter.py:10-15 | all tables start empty, and `last_reset` is today's date |
| RateLimiting.RateLimiter.ResetIfNeeded | backend/rate_limiter.py:17-24 | the counters become `ResetDaily` of the old ones |
| RateLimiting.RateLimiter.ResetMinuteIfNeeded | backend/rate_limiter.py:26-32 | only the minute table changes, to `ResetWindow` with the 60 s span |
| RateLimiting.RateLimiter.Reset10SecondsIfNeeded | backend/rate_limiter.py:34-40 | only the burst table changes, to `ResetWindow` with the 10 s span |
| RateLimiting.RateLimiter.CanTradeNow | backend/rate_limiter.py:42-66 | the new counters and the verdict equal `CanTrade` of the old counters |
| RateLimiting.RateLimiter.RecordTrade | backend/rate_limiter.py:68-73 | the new counters equal `Record` of the old ones |
| RateLimiting.RateLimiter.GetStats | backend/rate_limiter.py:76-91 | for an exchange: its day count, minute count and limits, with the zero entries the reads store; without one: the day table and the sum of its counts, with nothing changed |
| CircuitBreaking.CheckBotDrawdown | backend/engines/circuit_breaker.py:22-41 | with positive initial capital, a breach iff more than the limit's share of it was lost; otherwise the drawdown is 0, which breaches only a negative limit; missing capital counts as 1000; the reason carries the drawdown and the limit |
| CircuitBreaking.MissingCapitalNeverBreaches | backend/engines/circuit_breaker.py:25-29 | a bot without capital fields never breaches a non-negative limit |
| CircuitBreaking.QuarterLossBreachesTwentyPercent | backend/engines/circuit_breaker.py:29-32 | 1000 down to 750 breaches the default 20% limit, with a drawdown of 0.25 |
| CircuitBreaking.AtThresholdNoBreach | backend/engines/circuit_breaker.py:31 | a loss of exactly the limit's share is not a breach |
| CircuitBreaking.GlobalVerdict | backend/engines/circuit_breaker.py:58-66 | a zero initial total never breaches; a positive one breaches iff the aggregate loss exceeds 15% of it; a negative one, whose division flips the comparison, breaches iff the loss is below 15% of it; a breach reports the quotient and the limit |
| CircuitBreaking.CheckGlobalDrawdown | backend/engines/circuit_breaker.py:47-66 | over the summed initial and current capital (missing counts 0) of the user's first 1000 bots: a zero initial total never breaches; a positive one breaches iff the loss exceeds 15% of it; a negative one iff the loss is below 15% of it; a breach reports (initial - current) / initial and the limit |
| CircuitBreaking.GlobalCheckIgnoresStatus | backend/engines/circuit_breaker.py:50-56 | the global verdict depends only on owners and capitals, so a pause cannot change it |
| CircuitBreaking.Paused | backend/engines/circuit_breaker.py:80-87 | a paused bot has status "paused" and the reason and time set, and is otherwise the same bot |
| CircuitBreaking.TriggerBotPause | backend/engines/circuit_breaker.py:72-108 | an unknown id changes nothing; otherwise the first bot with the id is paused, one rogue record and one critical alert naming it are appended, and nothing else changes |
| CircuitBreaking.TriggerEmergencyStop | backend/engines/circuit_breaker.py:115-137 | the user's modes record gets the stop flag, reason and time; a missing record is created with only those; other users' records are kept; one critical alert is appended; nothing else changes |
| CircuitBreaking.ActiveUserBots | backend/engines/circuit_breaker.py:155-158 | the query returns exactly the user's bots whose status is "active" |
| CircuitBreaking.PauseAll | backend/engines/circuit_breaker.py:160-164 | the pauses over the fetched bots keep the number of bots, and the positions, trades and modes; `PauseAllEffect` states which bots are paused |
| CircuitBreaking.Monitor | backend/engines/circuit_breaker.py:144-164 | positions, trades and the number of bots are kept; a global breach sets the user's stop flag, and no global breach leaves every modes record as it was; `GlobalBreachSkipsBotChecks` and `MonitorPausesExactlyBreachingActiveBots` state the rest |
| CircuitBreaking.MonitorAllBots | backend/engines/circuit_breaker.py:144-164 | the loop yields `Monitor`: an emergency stop on a global breach, otherwise the pauses folded over the fetched active bots in order |
| CircuitBreaking.GlobalBreachSkipsBotChecks | backend/engines/circuit_breaker.py:148-152 | on a global breach no bot or rogue record changes, the user's stop flag is set, and exactly one alert is added |
| CircuitBreaking.PauseAllEffect | backend/engines/circuit_breaker.py:160-164 | over bots of a store with unique ids, exactly the breaching ones are paused and every other bot is kept, with one rogue record and one alert per breaching bot |
| CircuitBreaking.MonitorPausesExactlyBreachingActiveBots | backend/engines/circuit_breaker.py:154-164 | without a global breach, exactly the user's fetched active bots that breach are paused, and every other bot is unchanged |
| CircuitBreaking.ListedActiveBots | backend/engines/circuit_breaker.py:155-158 | with at most 1000 active bots, the pass reaches every active bot of the user |
| Autopilot.Insert | backend/engines/autopilot_basic.py:39 | insertion into the descending order keeps the multiset of bots and adds the new one |
| Autopilot.SortByProfit | backend/engines/autopilot_basic.py:39 | the sort is a permutation of its input |
| Autopilot.InsertSorted | backend/engines/autopilot_basic.py:39 | insertion keeps the descending profit order |
| Autopilot.SortByProfitSorted | backend/engines/autopilot_basic.py:39 | the sort orders by profit, highest first, with a missing profit counting 0 |
| Autopilot.SortNoDup | backend/engines/autopilot_basic.py:39 | sorting distinct bots keeps them distinct |
| Autopilot.TopBots | backend/engines/autopilot_basic.py:39 | `[:5]` keeps min(5, n) bots, all taken from the input |
| Autopilot.TopBotsAreTheBest | backend/engines/autopilot_basic.py:39 | the chosen bots are in descending order, and no bot left out has a higher profit than a chosen one |
| Autopilot.SetCapital | backend/engines/autopilot_basic.py:45-48 | the first bot with the id gets the new capital; an unknown id changes nothing |
| Autopilot.ShareOut | backend/engines/autopilot_basic.py:43-48 | sharing out keeps the collection's length |
| Autopilot.ShareOutLoop | backend/engines/autopilot_basic.py:43-48 | the at-cap loop yields the share-out over the top bots, in order |
| Autopilot.ShareOutEffect | backend/engines/autopilot_basic.py:41-48 | with unique ids, a chosen bot's capital becomes its fetched capital plus the share, and every other bot is kept |
| Autopilot.ShareOutTotal | backend/engines/autopilot_basic.py:41-48 | over distinct chosen bots, the capital total rises by one share per bot |
| Autopilot.FiveFifths | backend/engines/autopilot_basic.py:41 | five shares of `total_profit / 5` make up the total profit |
| Autopilot.FirstWithCapacity | backend/engines/autopilot_basic.py:56-58 | the index of the first exchange, in its item order, whose bot count is below its cap; none when every exchange is full |
| Autopilot.FindExchange | backend/engines/autopilot_basic.py:56-76 | the scan, which breaks at the first exchange with room, finds `FirstWithCapacity` |
| Autopilot.FirstIsUnique | backend/engines/autopilot_basic.py:56-58 | the first place with room is fixed by the places before it |
| Autopilot.ResetProfits | backend/engines/autopilot_basic.py:72-75 | every bot of the user gets profit 0, and every other bot is unchanged |
| Autopilot.Reinvestment | backend/engines/autopilot_basic.py:18-76 | only the bot collection changes and it keeps its size; a creation request is made only below the cap, for the user, at risk 'safe' with the configured capital; the lemmas below state each branch |
| Autopilot.CheckAndReinvest | backend/engines/autopilot_basic.py:18-76 | the method gives the store and the creation request of `Reinvestment` |
| Autopilot.AutopilotOffChangesNothing | backend/engines/autopilot_basic.py:22-25 | no modes record, or autopilot off: no change and no request |
| Autopilot.BelowThresholdChangesNothing | backend/engines/autopilot_basic.py:31-34 | total profit below the threshold: no change and no request |
| Autopilot.AtCapBranch | backend/engines/autopilot_basic.py:37-48 | at or above the cap, the store gets the share-out over the top bots and no bot is requested |
| Autopilot.FetchedBots | backend/engines/autopilot_basic.py:28 | the fetched bots are distinct bots of the user from the collection |
| Autopilot.TopBotsInStore | backend/engines/autopilot_basic.py:28-39 | the top fetched bots are bots of the collection |
| Autopilot.AtCapSharesIntoTopBots | backend/engines/autopilot_basic.py:37-48 | each of the top bots gains a fifth of the total profit; other bots, all profit fields and other collections are kept; no request is made |
| Autopilot.AtCapSharesExactlyTheProfit | backend/engines/autopilot_basic.py:39-48 | with at least five bots fetched, the capital added sums to exactly the total profit |
| Autopilot.AgreeTotalProfit | backend/engines/autopilot_basic.py:31 | the profit total depends only on the profit fields |
| Autopilot.AtCapKeepsTheProfit | backend/engines/autopilot_basic.py:37-50 | the at-cap branch leaves the total profit and the bot count as they were, so the next run shares out again |
| Autopilot.BelowCapCreatesOneBot | backend/engines/autopilot_basic.py:52-76 | below the cap with enough profit: one "Auto-Bot-(n+1)" request at risk 'safe' with the configured capital, on the first exchange with room; profits are reset iff the creation succeeded; no exchange with room means no request and no reset |
| Autopilot.BelowCapShortOfCapitalChangesNothing | backend/engines/autopilot_basic.py:53-54 | below the cap with profit under a new bot's capital: no change |
| Autopilot.ResetZeroesTheUsersProfit | backend/engines/autopilot_basic.py:72-75 | after the reset the user's fetched bots have total profit 0 |
| Autopilot.ZeroProfits | backend/engines/autopilot_basic.py:31 | bots whose profits are all 0 sum to 0 |
| Autopilot.FifthBotName | backend/engines/autopilot_basic.py:60-63 | the fifth bot is named "Auto-Bot-5" |
| TradingEngine.ExitSide | backend/engines/trading_engine_production.py:217 | the exit side is "sell" iff the position side is "buy", and "buy" otherwise |
| TradingEngine.ExitSideReverses | backend/engines/trading_engine_production.py:217 | for the two sides the engine opens, the exit side differs from the side, and exiting it gives the side back |
| TradingEngine.FeeCost | backend/engines/trading_engine_production.py:234 | a missing fee, or a fee without cost, costs 0.0; a fee object with a cost costs `float(cost)`, raising when that does; a fee that is not an object raises |
| TradingEngine.NetPnl | backend/engines/trading_engine_production.py:233-235 | net plus fees equals (exit price - entry price) * quantity, whatever the side |
| TradingEngine.FallingPriceIsALoss | backend/engines/trading_engine_production.py:233-235 | a falling price with positive quantity and non-negative fees is booked as a loss, even for a short |
| TradingEngine.ExitRecord | backend/engines/trading_engine_production.py:230-254 | the trade record carries the position's ids, side, entry price, entry time and reasoning; quantity and price come from the order or else the position or quote; profit is `NetPnl`; no record iff a number cannot be read |
| TradingEngine.BareOrderUsesTheQuote | backend/engines/trading_engine_production.py:230-235 | an order reporting nothing is booked at the quote, for the entry quantity, free of fees |
| TradingEngine.Settled | backend/engines/trading_engine_production.py:259-267 | profit gains the net result (from 0 when missing); trades +1; wins +1 iff net > 0, else losses +1; last trade time is set; nothing else changes |
| TradingEngine.SettleBot | backend/engines/trading_engine_production.py:260-268 | the first bot with the id is settled, every other bot is kept, and an unknown id changes nothing |
| TradingEngine.Closed | backend/engines/trading_engine_production.py:271-274 | the first position with the id gets status "closed" and every other position is kept; an unknown id changes nothing |
| TradingEngine.LiveExit | backend/engines/trading_engine_production.py:197-290 | missing keys, a failing client or order, or an unreadable number change nothing; otherwise one trade record is appended, the bot is settled, the position closed, and the other collections are kept |
| TradingEngine.CombinedExit | backend/engines/trading_engine_production.py:82-83 | an exit fires iff the risk signal or the AI signal is set; the reason is the risk reason when risk fired, otherwise the AI reasoning |
| TradingEngine.OpenLive | backend/engines/trading_engine_production.py:63-64 | the query returns exactly the positions that are live and open |
| TradingEngine.ManageOne | backend/engines/trading_engine_production.py:66-84 | a fallback price skips the position with no change; otherwise the cycle ends, with the store unchanged, iff the AI exit check raised; if not, an exit fires by `CombinedExit` and performs `LiveExit`; no trade is recorded with the limiter |
| TradingEngine.ManageAll | backend/engines/trading_engine_production.py:61-84 | the loop over the positions records nothing with the limiter and keeps alerts, rogue records and modes; once ended it changes nothing |
| TradingEngine.ManageAbortsIffSomeCheckRaises | backend/engines/trading_engine_production.py:61-84 | the loop ends the cycle iff the AI exit check of some position raises |
| TradingEngine.ManageOpenPositions | backend/engines/trading_engine_production.py:61-84 | the loop yields `ManageAll` over the open live positions, stopped by the first AI exit check that raises (from `get_bot_data` or a zero entry price) |
| TradingEngine.Eligible | backend/engines/trading_engine_production.py:88-102 | exactly the live bots with status "live" and no open position |
| TradingEngine.EligibleUnique | backend/engines/trading_engine_production.py:88-102 | the eligible bots of a store with unique ids have unique ids |
| TradingEngine.EntryPosition | backend/engines/trading_engine_production.py:165-176 | the new position is open and live, for the bot, on `side.lower()`, with the decision's reasoning; its price and quantity come from the order or else the quote and amount, and its order id is the order's 'id' (null or absent as none); none iff a number or the id cannot be read |
| TradingEngine.BareEntryUsesTheAmount | backend/engines/trading_engine_production.py:171-173 | an order reporting nothing opens the computed amount at the quote, without an id |
| TradingEngine.LiveEntry | backend/engines/trading_engine_production.py:120-195 | missing keys, a failing client or a fallback quote change nothing; the cycle aborts iff the quote is 0, with nothing changed; when keys, client, a non-zero quote, the limits, the order and the new Position all go through, exactly that Position is appended and the bot's trade recorded; in every other case store and limiter are unchanged |
| TradingEngine.EntryOne | backend/engines/trading_engine_production.py:107-118 | a bot the limiter refuses, or an ended cycle, changes nothing; an allowed bot whose decision is BUY or SELL performs `LiveEntry`, and any other decision changes nothing; only the positions change, by at most one |
| TradingEngine.EntryNeedsAConfidentDecision | backend/engines/trading_engine_production.py:107-118 | any change to the pass (a position, a recorded trade or an abort) needs the limiter's permission and a BUY or SELL at confidence at least 0.7; a new position or recorded trade comes as exactly one position with the bot's trade recorded, open, live, on the decided side, with the decision's reasoning |
| TradingEngine.EntryOpensForAConfidentDecision | backend/engines/trading_engine_production.py:107-179 | conversely, an allowed bot's BUY or SELL (so at confidence at least 0.7) whose entry goes through appends exactly its Position and records its trade |
| TradingEngine.EntryAll | backend/engines/trading_engine_production.py:86-118 | the entry loop changes only the positions, and nothing once the cycle has ended; `EntryAllKeepsOneOpen` states what it keeps |
| TradingEngine.ExecuteNewTrades | backend/engines/trading_engine_production.py:86-118 | the loop yields `EntryAll` over the eligible bots, stopped by the first zero quote |
| TradingEngine.Cycle | backend/engines/trading_engine_production.py:50-118 | alerts, rogue records and modes are kept; when some open live position's AI exit check raises, the cycle ends there, before any entry; `CycleKeepsOneOpenPositionPerBot` states what it keeps |
| TradingEngine.EnterBot | backend/engines/trading_engine_production.py:107-118 | one pass of the entry loop yields `EntryOne` for the bot |
| TradingEngine.TradingCycle | backend/engines/trading_engine_production.py:50-118 | the method yields `Cycle`: positions are managed, then new trades entered unless an uncaught error ended the cycle |
| TradingEngine.ManageKeepsOneOpen | backend/engines/trading_engine_production.py:61-84 | managing positions only closes them, so at most one open position per bot is kept |
| TradingEngine.EntryAllKeepsOneOpen | backend/engines/trading_engine_production.py:86-118 | entries to distinct bots without an open position keep at most one open position per bot |
| TradingEngine.CycleKeepsOneOpenPositionPerBot | backend/engines/trading_engine_production.py:61-195 | a cycle over a store with unique bot ids and at most one open position per bot keeps at most one open position per bot |
| Scheduling.PaperActive | backend/trading_scheduler_old.py:33-36 | the query returns exactly the paper bots whose status is "active" |
| Scheduling.EnabledUsers | backend/trading_scheduler_old.py:42-55 | one entry per owner of a listed bot, true iff the owner's modes record has autopilot and paperTrading on |
| Scheduling.EnabledBots | backend/trading_scheduler_old.py:58 | exactly the listed bots whose owner is enabled |
| Scheduling.KeepEnabledIsEnabledBots | backend/trading_scheduler_old.py:42-58 | the comprehension over the built map keeps exactly the enabled owners' bots |
| Scheduling.ConsideredBots | backend/trading_scheduler_old.py:33-58 | a considered bot is an active paper bot of an enabled owner, and with at most 1000 such bots every one is considered |
| Scheduling.ActivateAll | backend/trading_scheduler_old.py:64-68 | the activation loop keeps the collection's length |
| Scheduling.Activate | backend/trading_scheduler_old.py:64-68 | the method yields `ActivateAll` |
| Scheduling.ActivateChangesNothing | backend/trading_scheduler_old.py:64-68 | over unique ids, re-activating already active bots changes nothing |
| Scheduling.DispatchAll | backend/trading_scheduler_old.py:74-123 | at most one dispatch per listed bot, and the spacing map keeps every key it had; `DispatchEffect` states exactly which bots are sent |
| Scheduling.DispatchEffect | backend/trading_scheduler_old.py:74-123 | exactly the listed bots that are due (1800 s since the last dispatch, missing counts 0) are sent, once each, unless the emergency stop is set; sent bots get the call's time, and other entries are kept |
| Scheduling.HaltedDispatchesNothing | backend/trading_scheduler_old.py:86-90 | with the emergency stop set, nothing is dispatched and the spacing map is unchanged |
| Scheduling.AtMost48PerDay | backend/trading_scheduler_old.py:1-24 | dispatch times at least 1800 s apart fit at most 48 times into a day |
| Scheduling.ProfitTotals | backend/trading_scheduler_old.py:143-148 | one entry per owner of a considered bot, holding the sum of its bots' profits, missing as 0 |
| Scheduling.NoneOwnedNoProfit | backend/trading_scheduler_old.py:143-148 | a user owning none of the bots has profit 0 |
| Scheduling.TradingScheduler.constructor | backend/trading_scheduler_old.py:21-25 | the spacing map and the dispatch history start empty |
| Scheduling.TradingScheduler.Dispatch | backend/trading_scheduler_old.py:74-123 | the spacing map becomes `DispatchAll`'s; the dispatched ids are its sent ids; the history gains one time per sent bot; `Valid` is kept |
| Scheduling.TradingScheduler.ExecuteBotTrades | backend/trading_scheduler_old.py:27-148 | the considered bots are activated; the due ones are dispatched and stamped; profits are summed per owner; the spacing invariant is kept |
| Scheduling.ValidBotAtMost48PerDay | backend/trading_scheduler_old.py:74-123 | under the scheduler's invariant, one bot's dispatches within any 24 h are at most 48 |
| Scheduling.RedispatchIsSpaced | backend/trading_scheduler_old.py:74-123 | a bot dispatched by two successive calls is dispatched again at least 1800 s after the first time |
| DecisionEngine.GetTradeDecision | backend/engines/ai_decision_engine.py:38-84 | a decision other than HOLD has confidence at least 0.7 and is the reply's upper-cased decision with its reasoning; a failed payload, missing prompt fields, a raising reply, a non-text decision or a confidence `float()` rejects give the internal-error HOLD at 0.0; an unsuccessful payload gives "Data acquisition failed." |
| DecisionEngine.LowConfidenceHolds | backend/engines/ai_decision_engine.py:71-74 | a readable BUY/SELL below 0.7 becomes HOLD with the "too low" reasoning and keeps its confidence |
| DecisionEngine.ReadableReplyPasses | backend/engines/ai_decision_engine.py:66-80 | otherwise the reply's own decision, confidence and reasoning come back |
| DecisionEngine.EmptyReplyDefaults | backend/engines/ai_decision_engine.py:67-69 | an empty reply gives HOLD, confidence 0.0, "No reasoning provided." |
| DecisionEngine.ConfidenceFromDigits | backend/engines/ai_decision_engine.py:68 | a confidence sent as decimal digits reads as their value |
| DecisionEngine.GetPromotionApproval | backend/engines/ai_decision_engine.py:86-121 | a failed payload or reply, a missing total profit (which `:.2f` cannot format) or missing prompt fields give false; otherwise the reply's 'approved' is passed on unchecked (default false) with its 'reasoning' when present |
| DecisionEngine.ApprovalNeedsTheReply | backend/engines/ai_decision_engine.py:110-117 | a truthy approval needs a reply whose 'approved' value is truthy |
| DecisionEngine.GetExitDecision | backend/engines/ai_decision_engine.py:123-160 | it raises iff `get_bot_data` raised; no (or empty) bot data: stay; with bot data, a zero entry price raises; an exit iff the loss fraction is below -5% and the reply's 'exit_now' is truthy, with its reasoning (default "Market instability."); a raising reply stays |
| DecisionEngine.SmallLossNeverExits | backend/engines/ai_decision_engine.py:129-138 | at a positive entry price, a price of at least 95% of it never exits: the check stays unless `get_bot_data` raised |
| DecisionEngine.FallingPriceAsksEvenForShorts | backend/engines/ai_decision_engine.py:135-156 | a 10% fall is put to the model and exits whatever the side |
| ModelRouter.ModelFor | backend/engines/ai_model_router.py:28-33 | a known mode maps to its model, and an unknown one to the balanced model |
| ModelRouter.ModelTable | backend/engines/ai_model_router.py:28-33 | fast and fallback use gpt-4o; balanced, deep and unknown modes use gpt-5.1 |
| ModelRouter.InitClients | backend/engines/ai_model_router.py:35-58 | the OpenAI client is never set, and the emergent client only when its package imported; `InitSetsOnlyTheEmergentClient` states exactly when it exists |
| ModelRouter.InitSetsOnlyTheEmergentClient | backend/engines/ai_model_router.py:17-58 | the emergent client exists iff its package imported, its key is set and it constructed; the OpenAI client never exists |
| ModelRouter.ChatCompletion | backend/engines/ai_model_router.py:60-137 | the emergent answer first; otherwise the OpenAI answer, or its error re-raised and caught (model = mode); with no client, the "unavailable" answer; each carries its fields |
| ModelRouter.RouterAnswersFromEmergentOrNone | backend/engines/ai_model_router.py:35-127 | with the clients set up at start, an answer comes from the emergent client or from nowhere |
| ModelRouter.Recommendation | backend/engines/ai_model_router.py:174-178 | BUY iff the upper-cased text holds "BUY"; SELL iff it holds "SELL" and not "BUY"; otherwise HOLD |
| ModelRouter.RecommendationIgnoresCase | backend/engines/ai_model_router.py:175-177 | upper-casing the text first does not change the recommendation |
| ModelRouter.BuyWinsOverSell | backend/engines/ai_model_router.py:175-178 | a text naming both sides is read as BUY |
| ModelRouter.AnalyzeTradeOpportunity | backend/engines/ai_model_router.py:139-194 | a text answer gives its recommendation, the text, the model and confidence 0.7; a formatting failure or a null text gives HOLD, model "error", confidence 0.0 |
| ModelRouter.NoClientContentNamesNoSide | backend/engines/ai_model_router.py:121-127 | the "unavailable" text names neither BUY nor SELL |
| ModelRouter.NoClientContentHasNoBuy | backend/engines/ai_model_router.py:121-127 | the upper-cased "unavailable" text does not contain "BUY" |
| ModelRouter.NoClientContentHasNoSell | backend/engines/ai_model_router.py:121-127 | the upper-cased "unavailable" text does not contain "SELL" |
| ModelRouter.NoClientMeansHold | backend/engines/ai_model_router.py:121-185 | without a client the analysis recommends HOLD from model "none" at confidence 0.7 |
| ModelRouter.HealthCheck | backend/engines/ai_model_router.py:275-297 | healthy iff the text holds "OK" or carries no (or an empty) error; degraded otherwise; unhealthy iff the text is null |
| ModelRouter.AnsweredIsHealthy | backend/engines/ai_model_router.py:275-297 | any text answer from a client is healthy |
| ModelRouter.NoClientIsDegraded | backend/engines/ai_model_router.py:275-297 | without a client the status is degraded |
| ModelRouter.EmptyErrorCountsAsHealthy | backend/engines/ai_model_router.py:275-297 | an OpenAI failure with an empty message counts as healthy |
| Exchange.Initialized | backend/ccxt_service.py:98-102 | initialising adds the user to the table's keys and no other key |
| Exchange.Updated | backend/ccxt_service.py:108-113 | updating adds the user to the table's keys and no other key |
| Exchange.UnknownReadsZero | backend/ccxt_service.py:104-106 | an unknown user or currency reads 0.0 |
| Exchange.InitThenRead | backend/ccxt_service.py:98-106 | after initialising an entry, reading it gives the amount |
| Exchange.UpdateThenRead | backend/ccxt_service.py:104-113 | after an update, the entry reads its old value (0.0 when absent) plus the amount |
| Exchange.OtherEntriesUnchanged | backend/ccxt_service.py:98-113 | initialising or updating one entry keeps every other entry and every other user's wallet |
| Exchange.UpdatesCompose | backend/ccxt_service.py:108-113 | two updates of one entry equal one update by their sum |
| Exchange.InitThenUpdate | backend/ccxt_service.py:98-113 | an update after initialising starts from the amount |
| Exchange.CcxtService.constructor | backend/ccxt_service.py:98-113 | the table starts empty |
| Exchange.CcxtService.GetPaperBalance | backend/ccxt_service.py:104-106 | the stored balance, or 0.0 for a missing user or currency |
| Exchange.CcxtService.InitPaperBalance | backend/ccxt_service.py:98-102 | the table becomes `Initialized` of the old one, and the entry reads the amount |
| Exchange.CcxtService.UpdatePaperBalance | backend/ccxt_service.py:108-113 | the table becomes `Updated` of the old one, and the entry reads its old value plus the amount |
| Exchange.PriceFactor | backend/ccxt_service.py:82 | a number multiplies as itself and a boolean as 1 or 0; null, text, arrays and objects raise |
| Exchange.CreateMarketOrder | backend/ccxt_service.py:68-96 | paper: filled at the ticker's last price (0 when missing) and closed; cost = amount * price; it raises iff that price cannot multiply. Live: the exchange's own order, with a failure re-raised |
| Exchange.EmptyTickerCostsNothing | backend/ccxt_service.py:64-86 | a failed ticker fetch (an empty ticker) fills the paper order at 0, for nothing |
| Store.FindBot | backend/engines/circuit_breaker.py:75-81 | `update_one({"id": x})` acts on the first bot with the id, and on none when no bot has it |
| Store.FindPosition | backend/engines/trading_engine_production.py:271-274 | `update_one({"id": x})` on positions acts on the first position with the id, and on none when no position has it |
| Store.UserBots | backend/engines/circuit_breaker.py:50-53 | `find({"user_id": u})` returns exactly the user's bots |
| Store.Listed | backend/engines/circuit_breaker.py:53 | `to_list(1000)` returns exactly the first min(n, 1000) of the n matches, in order |
| Json.Get | backend/engines/ai_decision_engine.py:67-69 | `d.get(key, default)` gives the stored value, or the default when the key is missing |
| Json.ToFloat | backend/engines/ai_decision_engine.py:68 | `float()` of a number is itself and of a boolean 1.0 or 0.0; text is parsed as a decimal; null, arrays and objects raise |

## Left out

- Concurrency and I/O are not modelled: the async loops, `asyncio.gather`, the sleeps, logging, the
  websocket and real-time broadcasts, the `start`/`stop` methods and the engines' outer loops. Each
  modelled call is one atomic step with one clock reading.
- The paper engine's trading cycles, which the scheduler dispatches, are not part of this model. A
  dispatch is the bot id, and the results sent to users are not modelled.
- The risk engine, the trade limiter, `ccxt_service.get_current_price`, `is_fallback_price`,
  `init_auth_client`, `check_trade_limits` and `create_order` are not part of this model (the last
  five are not in the service file shown). Their answers are inputs.
- `ai_model_router.get_json_response` is not part of this model. Its reply, or its raising, is an
  input.
- `get_bot_data` is not part of this model: the data processor shown
  (`backend/engines/ai_data_processor.py`) defines no such method. Its outcome is an input, and it may
  raise, which ends the engine cycle. `get_ai_input_payload` is treated the same way.
- These calls are taken never to raise, and their answers are inputs:
  - the risk engine's `check_exit_conditions`;
  - `get_current_price` and `is_fallback_price`
    (`backend/engines/trading_engine_production.py:70-72`, `:140-141`);
  - `check_trade_limits` (`:150`) and `trade_limiter.can_trade` (`:108`), both outside any `try`,
    where a raise would end the cycle;
  - `trade_limiter.record_trade` (`:179`). It runs after `insert_one` inside the `try`, so a raise
    there would leave the inserted position without a recorded trade; the model always records.
- `get_exchange_limits` is not part of this model. The limits are a parameter.
- `bot_manager.create_bot` is not part of this model. The reinvestment returns the request it would
  make, and the outcome `success` is a parameter. The created bot's insertion is not modelled.
- `backend.models` (`Bot`, `Position`, `TradeHistory`) is not part of this model. The model takes a
  new position's status to default to "open" and its `entry_order_id` to be optional text. The
  validation errors `Bot(**data)` / `Position(**data)` could raise are not modelled.
- `generate_market_insight` and `deep_strategy_analysis` only pass text through to the LLM, so they
  are left out.
- Message texts and float formatting (`:.2f`, `round`, `isoformat`) are not modelled. Reasons and
  alerts are datatypes carrying their numbers, and timestamps are the clock reading.
- Floating point is exact real arithmetic. `float(str)` accepts only `[+-]digits[.digits]`, and
  exponents, underscores between digits, `inf`, `nan` and blanks are treated as raising.
- `str.upper()` is ASCII only.
- `CircuitBreaker.max_daily_drawdown_per_bot` and the day-start computation in
  `check_bot_drawdown` are never consulted by the source, so they are left out.
- Stored fields that are null or not numbers are not modelled. `Option` means only that a field is
  missing. In the source such a field raises TypeError, and the surrounding handler swallows it:
  - in `check_bot_drawdown`, which reads no database, a null or text capital makes the handler
    return `(False, str(e))`, so the bot is not paused (`backend/engines/circuit_breaker.py:22-44`);
  - in the global sums, the handler likewise reports no breach
    (`backend/engines/circuit_breaker.py:53-54`);
  - in the scheduler's profit sum, the handler ends the run after the dispatches, so no profit
    update is sent (`backend/trading_scheduler_old.py:148`).
- The handlers of `trigger_*`, `monitor_all_bots` and `check_and_reinvest` are reached otherwise
  only through database failures, and the database is never modelled as failing.
- DecisionEngine.GetTradeDecision: the 0.7 gate is proved for finite confidences only. Python's
  `float("nan")` gives NaN, and `nan < 0.7` is false, so a NaN confidence passes the source's gate
  and can open a live position. The model reads the text "nan" as raising.
- `Env.canTrade`: the limiter's verdict for a bot is one fixed answer for the whole cycle, so a
  `record_trade` earlier in the cycle cannot change a later `can_trade`. The limiter's own counters
  are modelled in `RateLimiting`.
- `_execute_new_trades` falls back to `'SKIP'` and `_execute_live_entry` to `'AI decision.'`. The
  modelled `get_trade_decision` always returns a decision and a reasoning, so neither default is
  reachable.
- Autopilot.SortByProfit: the sort is stable like Python's `sorted`, but only its order and its
  permutation property are proved, not the stability.
- Scheduling.ActivateAll: its own contract states only the length. What activation does is stated by
  `Scheduling.ActivateChangesNothing` for the considered bots, which are active bots of the store.
