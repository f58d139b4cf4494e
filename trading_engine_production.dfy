/**
 * One cycle of the live trading engine (backend/engines/trading_engine_production.py): managing
 * the open live positions, then opening positions for the eligible live bots. The exchange, the
 * risk engine, the trade limiter's verdict, the key store and the model's replies are inputs
 * (`Env`), read as functions of the position or bot they are asked about. The calls the engine
 * makes to `trade_limiter.record_trade` are collected in `Pass.recorded`.
 */
module TradingEngine {
  import opened Wrappers
  import Json
  import opened Store
  import Ai = DecisionEngine

  /** A quoted price, or the service's fallback price, which makes the engine skip. */
  datatype Quote = Fallback | Price(price: real)

  /** The 'fee' entry of an order: absent, an object (with or without 'cost'), or something else. */
  datatype Fee = NoFee | FeeDoc(cost: Option<Json.Value>) | FeeOther

  /** The fields of an order the engine reads. */
  datatype Order = Order(filled: Option<Json.Value>, price: Option<Json.Value>, id: Option<Json.Value>, fee: Fee)

  datatype Env = Env(
    positionQuote: Position -> Quote,                       // get_current_price for an open position
    risk: (Position, real) -> Option<string>,               // risk_engine.check_exit_conditions: the reason, when it fires
    botData: string -> Call<Option<Json.Doc>>,                // ai_data_processor.get_bot_data, which may raise
    exitReply: Position -> Call<Json.Doc>,                 // the model's reply about an emergency exit
    hasKeys: (string, string) -> bool,                      // an api_keys document for (user, exchange)
    clientOk: (string, string) -> bool,                     // init_auth_client succeeds
    exitOrder: (Position, string) -> Call<Order>,        // create_order(side, entry_qty, market)
    botQuote: Bot -> Quote,                                 // get_current_price for a bot's pair
    canTrade: Bot -> bool,                                  // trade_limiter.can_trade
    payload: Bot -> Call<Json.Doc>,                        // get_ai_input_payload
    tradeReply: Bot -> Call<Json.Doc>,                     // the model's trade-decision reply
    limitsOk: (Bot, real, real) -> bool,                    // check_trade_limits(amount, price)
    entryOrder: (Bot, string, real, real) -> Call<Order>, // create_order(side, amount, price)
    newPositionId: Bot -> string,                           // the id a new Position document gets
    now: real)                                              // the one clock reading of the cycle

  /** The store after a stretch of the cycle, the limiter calls made, and whether an uncaught error ended it. */
  datatype Pass = Pass(db: Db, recorded: seq<string>, aborted: bool)

  // ---- exits ----

  /** The side that closes a position. */
  function ExitSide(side: string): (r: string)
    ensures r == "sell" <==> side == "buy"
    ensures r == "buy" <==> side != "buy"
  {
    if side == "buy" then "sell" else "buy"
  }

  /** Exiting an exit undoes it, for the two sides the engine opens. */
  lemma ExitSideReverses(side: string)
    requires side == "buy" || side == "sell"
    ensures ExitSide(ExitSide(side)) == side && ExitSide(side) != side
  {
  }

  /** `float(order.get(key, fallback))`: None where `float()` raises. */
  function FloatField(field: Option<Json.Value>, fallback: real): Option<real> {
    match field
    case None => Some(fallback)
    case Some(v) => Json.ToFloat(v)
  }

  /** `float(order.get('fee', {}).get('cost', 0.0))`. */
  function FeeCost(fee: Fee): (r: Option<real>)
    ensures fee == NoFee || fee == FeeDoc(None) ==> r == Some(0.0)
    ensures fee == FeeOther ==> r == None
    ensures fee.FeeDoc? && fee.cost.Some? ==> r == Json.ToFloat(fee.cost.value)
  {
    match fee
    case NoFee => Some(0.0)
    case FeeDoc(cost) => FloatField(cost, 0.0)
    case FeeOther => None
  }

  /** The net result of a round trip, in the same formula for long and short positions. */
  function NetPnl(entryPrice: real, exitPrice: real, qty: real, fees: real): (r: real)
    ensures r + fees == (exitPrice - entryPrice) * qty
  {
    (exitPrice - entryPrice) * qty - fees
  }

  /** Since the formula ignores the side, a falling price is booked as a loss even for a short position. */
  lemma FallingPriceIsALoss(entryPrice: real, exitPrice: real, qty: real, fees: real)
    requires exitPrice < entryPrice && qty > 0.0 && fees >= 0.0
    ensures NetPnl(entryPrice, exitPrice, qty, fees) < 0.0
  {
    assert (exitPrice - entryPrice) * qty < 0.0 by {
      assert entryPrice - exitPrice > 0.0;
      assert (entryPrice - exitPrice) * qty > 0.0;
    }
  }

  /** The trade record of a filled exit order; None when one of its numbers cannot be read. */
  function ExitRecord(pos: Position, quoted: real, reason: ExitReason, order: Order): (r: Option<TradeRecord>)
    ensures r.Some? ==>
      var t := r.value;
      && t.positionId == pos.id && t.botId == pos.botId && t.userId == pos.userId
      && t.exchange == pos.exchange && t.pair == pos.pair && t.side == pos.side
      && t.entryPrice == pos.entryPrice && t.entryTime == pos.entryTime && t.aiReasoning == pos.aiReasoning
      && t.tradingMode == "live" && t.exitReason == reason
      && FloatField(order.filled, pos.entryQty) == Some(t.qty)
      && FloatField(order.price, quoted) == Some(t.exitPrice)
      && FeeCost(order.fee) == Some(t.fees)
      && t.profitLoss == NetPnl(pos.entryPrice, t.exitPrice, t.qty, t.fees)
    ensures r.None? <==>
      FloatField(order.filled, pos.entryQty).None? || FloatField(order.price, quoted).None? || FeeCost(order.fee).None?
  {
    match (FloatField(order.filled, pos.entryQty), FloatField(order.price, quoted), FeeCost(order.fee))
    case (Some(qty), Some(price), Some(fees)) =>
      Some(TradeRecord(pos.id, pos.botId, pos.userId, pos.exchange, pos.pair, pos.side, pos.entryPrice, price, qty,
                       pos.entryTime, NetPnl(pos.entryPrice, price, qty, fees), fees, "live", reason, pos.aiReasoning))
    case _ => None
  }

  /** An order that reports nothing is booked at the quoted price, for the position's quantity, free of fees. */
  lemma BareOrderUsesTheQuote(pos: Position, quoted: real, reason: ExitReason)
    ensures var t := ExitRecord(pos, quoted, reason, Order(None, None, None, NoFee));
      t.Some? && t.value.exitPrice == quoted && t.value.qty == pos.entryQty && t.value.fees == 0.0
      && t.value.profitLoss == (quoted - pos.entryPrice) * pos.entryQty
  {
  }

  /** The bot counters after settling a round trip (`$inc` on a missing profit starts from 0). */
  function Settled(b: Bot, pnl: real, now: real): (r: Bot)
    ensures r.totalProfit == Some(b.totalProfit.GetOr(0.0) + pnl)
    ensures r.tradesCount == b.tradesCount + 1
    ensures r.winCount + r.lossCount == b.winCount + b.lossCount + 1
    ensures r.winCount == b.winCount + 1 <==> pnl > 0.0
    ensures r.lossCount == b.lossCount + 1 <==> pnl <= 0.0
    ensures r.lastTradeTime == Some(now)
    ensures r.(totalProfit := b.totalProfit, winCount := b.winCount, lossCount := b.lossCount,
               tradesCount := b.tradesCount, lastTradeTime := b.lastTradeTime) == b
  {
    var win := pnl > 0.0;
    b.(totalProfit := Some(b.totalProfit.GetOr(0.0) + pnl),
       winCount := b.winCount + (if win then 1 else 0),
       lossCount := b.lossCount + (if win then 0 else 1),
       tradesCount := b.tradesCount + 1,
       lastTradeTime := Some(now))
  }

  /** `update_one({"id": bot_id}, {$inc ..., $set ...})` with the settlement. */
  function SettleBot(bots: seq<Bot>, botId: string, pnl: real, now: real): (r: seq<Bot>)
    ensures |r| == |bots| && SameIds(r, bots)
    ensures FindBot(bots, botId).None? ==> r == bots
    ensures FindBot(bots, botId).Some? ==>
      var j := FindBot(bots, botId).value;
      r[j] == Settled(bots[j], pnl, now) && forall k :: 0 <= k < |bots| && k != j ==> r[k] == bots[k]
  {
    match FindBot(bots, botId)
    case None => bots
    case Some(j) => bots[j := Settled(bots[j], pnl, now)]
  }

  /** `update_one({"id": position_id}, {"$set": {"status": "closed"}})`. */
  function Closed(positions: seq<Position>, id: string): (r: seq<Position>)
    ensures |r| == |positions|
    ensures forall k :: 0 <= k < |r| ==> r[k] == positions[k] || (positions[k].id == id && r[k] == positions[k].(status := "closed"))
    ensures FindPosition(positions, id).None? ==> r == positions
    ensures FindPosition(positions, id).Some? ==>
      var j := FindPosition(positions, id).value;
      r[j] == positions[j].(status := "closed") && forall k :: 0 <= k < |r| && k != j ==> r[k] == positions[k]
  {
    match FindPosition(positions, id)
    case None => positions
    case Some(j) => positions[j := positions[j].(status := "closed")]
  }

  /** What the exit order yields: None when keys, client, order or its numbers fail. */
  function ExitFill(pos: Position, quoted: real, reason: ExitReason, env: Env): Option<TradeRecord> {
    if !env.hasKeys(pos.userId, pos.exchange) || !env.clientOk(pos.userId, pos.exchange) then None
    else match env.exitOrder(pos, ExitSide(pos.side))
      case Failed => None
      case Returned(order) => ExitRecord(pos, quoted, reason, order)
  }

  /**
   * `_execute_live_exit(position, exit_price, exit_reason)`: when the order goes through, one trade
   * record is appended, the bot is settled with its net result and the position is closed; when
   * keys, client, order or its fields fail, nothing changes.
   */
  function LiveExit(db: Db, pos: Position, quoted: real, reason: ExitReason, env: Env): (r: Db)
    ensures ExitFill(pos, quoted, reason, env).None? ==> r == db
    ensures !env.hasKeys(pos.userId, pos.exchange) || !env.clientOk(pos.userId, pos.exchange) ==> r == db
    ensures ExitFill(pos, quoted, reason, env).Some? ==>
      var t := ExitFill(pos, quoted, reason, env).value;
      && r.trades == db.trades + [t]
      && r.bots == SettleBot(db.bots, pos.botId, t.profitLoss, env.now)
      && r.positions == Closed(db.positions, pos.id)
      && r.alerts == db.alerts && r.rogueDetections == db.rogueDetections && r.systemModes == db.systemModes
  {
    match ExitFill(pos, quoted, reason, env)
    case None => db
    case Some(t) =>
      db.(trades := db.trades + [t],
          bots := SettleBot(db.bots, pos.botId, t.profitLoss, env.now),
          positions := Closed(db.positions, pos.id))
  }

  /** `exit_reason if exit_signal else ai_reasoning`, when either fired. */
  function CombinedExit(risk: Option<string>, ai: Ai.ExitCheck): (r: Option<ExitReason>)
    ensures r.Some? <==> risk.Some? || ai.ExitNow?
    ensures risk.Some? ==> r == Some(RiskExit(risk.value))
    ensures risk.None? && ai.ExitNow? ==> r == Some(AiEmergencyExit(ai.reasoning))
  {
    if risk.Some? then Some(RiskExit(risk.value))
    else if ai.ExitNow? then Some(AiEmergencyExit(ai.reasoning))
    else None
  }

  /** `find({"trading_mode": "live", "status": "open"})`. */
  function OpenLive(positions: seq<Position>): (r: seq<Position>)
    ensures forall p :: p in r <==> p in positions && p.tradingMode == "live" && p.status == "open"
  {
    if positions == [] then []
    else (if positions[0].tradingMode == "live" && positions[0].status == "open" then [positions[0]] else [])
         + OpenLive(positions[1..])
  }

  /** The AI exit check for an open position at a quoted price. */
  function ExitCheckFor(pos: Position, price: real, env: Env): Ai.ExitCheck {
    Ai.GetExitDecision(env.botData(pos.botId), pos.entryPrice, price, env.exitReply(pos))
  }

  /**
   * One pass of the `_manage_open_positions` loop. The AI exit check runs even when the risk engine
   * fired, so an error it lets escape (from `get_bot_data`, or a zero entry price) ends the cycle
   * either way.
   */
  function ManageOne(p: Pass, pos: Position, env: Env): (r: Pass)
    ensures p.aborted || env.positionQuote(pos).Fallback? ==> r == p
    ensures !p.aborted && env.positionQuote(pos).Price? ==>
      var price := env.positionQuote(pos).price;
      && (r.aborted <==> ExitCheckFor(pos, price, env).Uncaught())
      && (r.aborted ==> r.db == p.db)
      && (!r.aborted ==> r.db == match CombinedExit(env.risk(pos, price), ExitCheckFor(pos, price, env))
                               case None => p.db
                               case Some(reason) => LiveExit(p.db, pos, price, reason, env))
    ensures r.recorded == p.recorded
  {
    if p.aborted then p
    else match env.positionQuote(pos)
      case Fallback => p
      case Price(price) =>
        var ai := ExitCheckFor(pos, price, env);
        if ai.Uncaught() then p.(aborted := true)
        else match CombinedExit(env.risk(pos, price), ai)
          case None => p
          case Some(reason) => p.(db := LiveExit(p.db, pos, price, reason, env))
  }

  /** The AI exit check for this position raises: the cycle ends there. */
  predicate Raises(pos: Position, env: Env) {
    env.positionQuote(pos).Price? && ExitCheckFor(pos, env.positionQuote(pos).price, env).Uncaught()
  }

  /** The `_manage_open_positions` loop over `ps`, in order. */
  function ManageAll(p: Pass, ps: seq<Position>, env: Env): (r: Pass)
    ensures p.aborted ==> r == p
    ensures r.recorded == p.recorded
    ensures r.db.alerts == p.db.alerts && r.db.rogueDetections == p.db.rogueDetections && r.db.systemModes == p.db.systemModes
    decreases |ps|
  {
    if ps == [] then p else ManageOne(ManageAll(p, ps[..|ps| - 1], env), ps[|ps| - 1], env)
  }

  /** Once aborted, the rest of a loop changes nothing. */
  lemma {:induction false} AbortedManageStays(p: Pass, ps: seq<Position>, env: Env)
    requires p.aborted
    ensures ManageAll(p, ps, env) == p
    decreases |ps|
  {
    if ps != [] {
      AbortedManageStays(p, ps[..|ps| - 1], env);
    }
  }

  lemma AbortedManageRest(p: Pass, ps: seq<Position>, i: nat, env: Env)
    requires i <= |ps| && ManageAll(p, ps[..i], env).aborted
    ensures ManageAll(p, ps, env) == ManageAll(p, ps[..i], env)
    decreases |ps| - i
  {
    if i < |ps| {
      assert ps[..i + 1][..i] == ps[..i];
      AbortedManageRest(p, ps, i + 1, env);
    } else {
      assert ps[..i] == ps;
    }
  }

  /** A pass that has not ended yet ends in the loop exactly when the check of some position raises. */
  lemma {:induction false} ManageAbortsIffSomeCheckRaises(p: Pass, ps: seq<Position>, env: Env)
    requires !p.aborted
    ensures ManageAll(p, ps, env).aborted <==> exists k :: 0 <= k < |ps| && Raises(ps[k], env)
    decreases |ps|
  {
    if ps != [] {
      var front := ps[..|ps| - 1];
      ManageAbortsIffSomeCheckRaises(p, front, env);
      if exists k :: 0 <= k < |ps| && Raises(ps[k], env) {
        var k :| 0 <= k < |ps| && Raises(ps[k], env);
        if k < |front| {
          assert front[k] == ps[k];
        }
      }
      if exists k :: 0 <= k < |front| && Raises(front[k], env) {
        var k :| 0 <= k < |front| && Raises(front[k], env);
        assert ps[k] == front[k];
      }
    }
  }

  /** `_manage_open_positions()`: the loop over the open live positions, stopped by an uncaught error. */
  method ManageOpenPositions(db: Db, env: Env) returns (r: Pass)
    ensures r == ManageAll(Pass(db, [], false), OpenLive(db.positions), env)
  {
    var start := Pass(db, [], false);
    var ps := OpenLive(db.positions);
    r := start;
    var i := 0;
    while i < |ps|
      invariant 0 <= i <= |ps|
      invariant r == ManageAll(start, ps[..i], env) && !r.aborted
    {
      assert ps[..i + 1][..i] == ps[..i];
      var pos := ps[i];
      assert ManageAll(start, ps[..i + 1], env) == ManageOne(r, pos, env);
      var quote := env.positionQuote(pos);
      if quote.Price? {
        var exitCheck := Ai.GetExitDecision(env.botData(pos.botId), pos.entryPrice, quote.price, env.exitReply(pos));
        if exitCheck.Uncaught() {
          r := r.(aborted := true);
          AbortedManageRest(start, ps, i + 1, env);
          return;
        }
        var reason := CombinedExit(env.risk(pos, quote.price), exitCheck);
        if reason.Some? {
          r := r.(db := LiveExit(r.db, pos, quote.price, reason.value, env));
        }
      }
      i := i + 1;
    }
    assert ps[..|ps|] == ps;
  }

  // ---- entries ----

  /** Some position of the bot is open (the `$lookup` matches status only, in any mode). */
  predicate HasOpen(positions: seq<Position>, botId: string) {
    exists k :: 0 <= k < |positions| && positions[k].botId == botId && positions[k].status == "open"
  }

  /** The aggregation of `_execute_new_trades`: live bots with status "live" and no open position. */
  function Eligible(bots: seq<Bot>, positions: seq<Position>): (r: seq<Bot>)
    ensures forall b :: b in r <==> b in bots && b.tradingMode == "live" && b.status == "live" && !HasOpen(positions, b.id)
    ensures |r| <= |bots|
  {
    if bots == [] then []
    else (if bots[0].tradingMode == "live" && bots[0].status == "live" && !HasOpen(positions, bots[0].id) then [bots[0]] else [])
         + Eligible(bots[1..], positions)
  }

  lemma {:induction false} EligibleUnique(bots: seq<Bot>, positions: seq<Position>)
    requires UniqueIds(bots)
    ensures UniqueIds(Eligible(bots, positions))
    decreases |bots|
  {
    if bots != [] {
      EligibleUnique(bots[1..], positions);
      var t := Eligible(bots[1..], positions);
      assert forall b :: b in t ==> b in bots[1..];
      assert forall b :: b in bots[1..] ==> b.id != bots[0].id;
    }
  }

  /** `side.lower()` for the two sides that open a position. */
  function SideOf(decision: string): string {
    if decision == "BUY" then "buy" else "sell"
  }

  /** `entry_order_id`: absent or null is no id, text is the id, anything else fails validation. */
  function OrderId(id: Option<Json.Value>): Option<Option<string>> {
    match id
    case None => Some(None)
    case Some(Null) => Some(None)
    case Some(Str(s)) => Some(Some(s))
    case Some(_) => None
  }

  /** The Position built from the entry order; None when one of its numbers or its id cannot be read. */
  function EntryPosition(b: Bot, ai: Ai.TradeDecision, order: Order, quoted: real, amount: real, env: Env): (r: Option<Position>)
    ensures r.Some? ==>
      && r.value.botId == b.id && r.value.userId == b.userId && r.value.exchange == b.exchange && r.value.pair == b.tradingPair
      && r.value.side == SideOf(ai.decision) && r.value.tradingMode == "live" && r.value.status == "open"
      && r.value.aiReasoning == ai.reasoning && r.value.id == env.newPositionId(b) && r.value.entryTime == env.now
      && FloatField(order.price, quoted) == Some(r.value.entryPrice)
      && FloatField(order.filled, amount) == Some(r.value.entryQty)
      && OrderId(order.id) == Some(r.value.entryOrderId)
    ensures r.None? <==> FloatField(order.price, quoted).None? || FloatField(order.filled, amount).None? || OrderId(order.id).None?
  {
    match (FloatField(order.price, quoted), FloatField(order.filled, amount), OrderId(order.id))
    case (Some(price), Some(qty), Some(id)) =>
      Some(Position(env.newPositionId(b), b.id, b.userId, b.exchange, b.tradingPair, SideOf(ai.decision), price, qty, id,
                    "live", "open", ai.reasoning, env.now))
    case _ => None
  }

  /** An order that reports no fill and no price opens the computed amount at the quoted price, without an id. */
  lemma BareEntryUsesTheAmount(b: Bot, ai: Ai.TradeDecision, quoted: real, amount: real, env: Env)
    ensures var pos := EntryPosition(b, ai, Order(None, None, None, NoFee), quoted, amount, env);
      pos.Some? && pos.value.entryPrice == quoted && pos.value.entryQty == amount && pos.value.entryOrderId == None
  {
  }

  /** A tenth of the bot's allocated capital, in units of the pair at the quoted price. */
  function Amount(b: Bot, price: real): real
    requires price != 0.0
  {
    b.totalCapitalAllocated * 0.1 / price
  }

  /** Keys, client, a non-zero price, the limits, the order and the new Position all go through. */
  predicate EntryGoesThrough(b: Bot, ai: Ai.TradeDecision, env: Env) {
    && env.hasKeys(b.userId, b.exchange) && env.clientOk(b.userId, b.exchange)
    && env.botQuote(b).Price? && env.botQuote(b).price != 0.0
    && var price := env.botQuote(b).price;
       && env.limitsOk(b, Amount(b, price), price)
       && env.entryOrder(b, SideOf(ai.decision), Amount(b, price), price).Returned?
       && EntryPosition(b, ai, env.entryOrder(b, SideOf(ai.decision), Amount(b, price), price).value, price, Amount(b, price), env).Some?
  }

  /** The Position an entry that goes through inserts. */
  function Made(b: Bot, ai: Ai.TradeDecision, env: Env): Position
    requires EntryGoesThrough(b, ai, env)
  {
    var price := env.botQuote(b).price;
    EntryPosition(b, ai, env.entryOrder(b, SideOf(ai.decision), Amount(b, price), price).value, price, Amount(b, price), env).value
  }

  /**
   * `_execute_live_entry(bot, side, ai_decision)`: a zero quote raises outside any handler and ends
   * the cycle; otherwise, when keys, client, quote, limits and order all go through, the position is
   * inserted and then the limiter records the trade; any failure before that changes nothing.
   */
  function LiveEntry(p: Pass, b: Bot, ai: Ai.TradeDecision, env: Env): (r: Pass)
    requires !p.aborted
    ensures !env.hasKeys(b.userId, b.exchange) || !env.clientOk(b.userId, b.exchange) || env.botQuote(b).Fallback? ==> r == p
    ensures r.aborted <==>
      env.hasKeys(b.userId, b.exchange) && env.clientOk(b.userId, b.exchange) && env.botQuote(b) == Price(0.0)
    ensures r.aborted ==> r.db == p.db && r.recorded == p.recorded
    ensures r.db.(positions := p.db.positions) == p.db
    ensures (r.db.positions == p.db.positions && r.recorded == p.recorded)
      || (exists pos: Position :: r.db.positions == p.db.positions + [pos] && r.recorded == p.recorded + [b.id])
    ensures r.recorded != p.recorded ==>
      var price := env.botQuote(b).price;
      && price != 0.0 && env.limitsOk(b, Amount(b, price), price)
      && env.entryOrder(b, SideOf(ai.decision), Amount(b, price), price).Returned?
      && var made := EntryPosition(b, ai, env.entryOrder(b, SideOf(ai.decision), Amount(b, price), price).value, price, Amount(b, price), env);
         made.Some? && r.db.positions == p.db.positions + [made.value]
    // an entry that goes through inserts its Position and records the trade; any other leaves store and limiter alone
    ensures EntryGoesThrough(b, ai, env) ==>
      r == p.(db := p.db.(positions := p.db.positions + [Made(b, ai, env)]), recorded := p.recorded + [b.id])
    ensures !EntryGoesThrough(b, ai, env) ==> r.db == p.db && r.recorded == p.recorded
  {
    if !env.hasKeys(b.userId, b.exchange) || !env.clientOk(b.userId, b.exchange) then p
    else match env.botQuote(b)
      case Fallback => p
      case Price(price) =>
        if price == 0.0 then p.(aborted := true)
        else
          var amount := Amount(b, price);
          if !env.limitsOk(b, amount, price) then p
          else match env.entryOrder(b, SideOf(ai.decision), amount, price)
            case Failed => p
            case Returned(order) =>
              match EntryPosition(b, ai, order, price, amount, env)
              case None => p
              case Some(pos) => p.(db := p.db.(positions := p.db.positions + [pos]), recorded := p.recorded + [b.id])
  }

  /** One pass of the `_execute_new_trades` loop. */
  function EntryOne(p: Pass, b: Bot, env: Env): (r: Pass)
    ensures p.aborted || !env.canTrade(b) ==> r == p
    ensures r.db.(positions := p.db.positions) == p.db
    ensures |p.db.positions| <= |r.db.positions| <= |p.db.positions| + 1
    // an allowed bot whose decision is BUY or SELL enters live
    ensures !p.aborted && env.canTrade(b) ==>
      var ai := Ai.GetTradeDecision(env.payload(b), env.tradeReply(b));
      (ai.decision == "BUY" || ai.decision == "SELL") ==> r == LiveEntry(p, b, ai, env)
    // any other decision opens nothing and ends nothing
    ensures !p.aborted && env.canTrade(b) ==>
      var ai := Ai.GetTradeDecision(env.payload(b), env.tradeReply(b));
      ai.decision != "BUY" && ai.decision != "SELL" ==> r == p
  {
    if p.aborted || !env.canTrade(b) then p
    else
      var ai := Ai.GetTradeDecision(env.payload(b), env.tradeReply(b));
      if ai.decision == "BUY" || ai.decision == "SELL" then LiveEntry(p, b, ai, env) else p
  }

  /**
   * A bot gets a position only when the limiter lets it trade and the decision engine answers BUY or
   * SELL, which it does only at a confidence of at least 0.7; the position is open, live, on the
   * decided side, and carries the decision's reasoning.
   */
  lemma EntryNeedsAConfidentDecision(p: Pass, b: Bot, env: Env)
    ensures var r := EntryOne(p, b, env);
      var ai := Ai.GetTradeDecision(env.payload(b), env.tradeReply(b));
      r != p ==>
        && !p.aborted && env.canTrade(b) && ai.confidence >= Ai.MinConfidence
        && (ai.decision == "BUY" || ai.decision == "SELL")
    ensures var r := EntryOne(p, b, env);
      var ai := Ai.GetTradeDecision(env.payload(b), env.tradeReply(b));
      r.db.positions != p.db.positions || r.recorded != p.recorded ==>
        && r.recorded == p.recorded + [b.id]
        && |r.db.positions| == |p.db.positions| + 1
        && var pos := r.db.positions[|p.db.positions|];
           pos.botId == b.id && pos.status == "open" && pos.tradingMode == "live"
           && pos.side == (if ai.decision == "BUY" then "buy" else "sell") && pos.aiReasoning == ai.reasoning
  {
    var r := EntryOne(p, b, env);
    var ai := Ai.GetTradeDecision(env.payload(b), env.tradeReply(b));
    if r != p {
      assert !p.aborted && env.canTrade(b) && (ai.decision == "BUY" || ai.decision == "SELL");
      assert r == LiveEntry(p, b, ai, env);
    }
  }

  /** The converse: an allowed bot's confident BUY or SELL whose order goes through opens its position and records it. */
  lemma EntryOpensForAConfidentDecision(p: Pass, b: Bot, env: Env)
    requires !p.aborted && env.canTrade(b)
    ensures var ai := Ai.GetTradeDecision(env.payload(b), env.tradeReply(b));
      (ai.decision == "BUY" || ai.decision == "SELL") && EntryGoesThrough(b, ai, env) ==>
        && ai.confidence >= Ai.MinConfidence
        && EntryOne(p, b, env) == p.(db := p.db.(positions := p.db.positions + [Made(b, ai, env)]), recorded := p.recorded + [b.id])
  {
  }

  function EntryAll(p: Pass, bs: seq<Bot>, env: Env): (r: Pass)
    ensures p.aborted ==> r == p
    ensures r.db.(positions := p.db.positions) == p.db
    decreases |bs|
  {
    if bs == [] then p else EntryOne(EntryAll(p, bs[..|bs| - 1], env), bs[|bs| - 1], env)
  }

  lemma AbortedEntryRest(p: Pass, bs: seq<Bot>, i: nat, env: Env)
    requires i <= |bs| && EntryAll(p, bs[..i], env).aborted
    ensures EntryAll(p, bs, env) == EntryAll(p, bs[..i], env)
    decreases |bs| - i
  {
    if i < |bs| {
      assert bs[..i + 1][..i] == bs[..i];
      AbortedEntryRest(p, bs, i + 1, env);
    } else {
      assert bs[..i] == bs;
    }
  }

  /** The loop over one more bot is one more entry. */
  lemma EntryAllStep(p: Pass, bs: seq<Bot>, i: nat, env: Env)
    requires i < |bs|
    ensures EntryAll(p, bs[..i + 1], env) == EntryOne(EntryAll(p, bs[..i], env), bs[i], env)
  {
    assert bs[..i + 1][..i] == bs[..i];
  }

  /** The body of the `_execute_new_trades` loop for one eligible bot. */
  method EnterBot(p: Pass, b: Bot, env: Env) returns (r: Pass)
    requires !p.aborted
    ensures r == EntryOne(p, b, env)
  {
    r := p;
    if env.canTrade(b) {
      var ai := Ai.GetTradeDecision(env.payload(b), env.tradeReply(b));
      if ai.decision == "BUY" || ai.decision == "SELL" {
        r := LiveEntry(p, b, ai, env);
      }
    }
  }

  /** `_execute_new_trades()`, continuing the pass `p` of this cycle. */
  method ExecuteNewTrades(p: Pass, env: Env) returns (r: Pass)
    requires !p.aborted
    ensures r == EntryAll(p, Eligible(p.db.bots, p.db.positions), env)
  {
    var bs := Eligible(p.db.bots, p.db.positions);
    r := p;
    var i := 0;
    while i < |bs|
      invariant 0 <= i <= |bs|
      invariant r == EntryAll(p, bs[..i], env) && !r.aborted
    {
      EntryAllStep(p, bs, i, env);
      r := EnterBot(r, bs[i], env);
      if r.aborted {
        AbortedEntryRest(p, bs, i + 1, env);
        return;
      }
      i := i + 1;
    }
    assert bs[..|bs|] == bs;
  }

  // ---- the cycle ----

  /** One iteration of `_trading_loop`: manage, then (unless an error ended the iteration) enter. */
  function Cycle(db: Db, env: Env): (r: Pass)
    ensures r.db.alerts == db.alerts && r.db.rogueDetections == db.rogueDetections && r.db.systemModes == db.systemModes
    // a raising exit check ends the cycle before any entry
    ensures (exists k :: 0 <= k < |OpenLive(db.positions)| && Raises(OpenLive(db.positions)[k], env)) ==>
      r.aborted && r == ManageAll(Pass(db, [], false), OpenLive(db.positions), env)
  {
    ManageAbortsIffSomeCheckRaises(Pass(db, [], false), OpenLive(db.positions), env);
    var m := ManageAll(Pass(db, [], false), OpenLive(db.positions), env);
    if m.aborted then m else EntryAll(m, Eligible(m.db.bots, m.db.positions), env)
  }

  method TradingCycle(db: Db, env: Env) returns (r: Pass)
    ensures r == Cycle(db, env)
  {
    r := ManageOpenPositions(db, env);
    if !r.aborted {
      r := ExecuteNewTrades(r, env);
    }
  }

  /** No bot has two open positions. */
  ghost predicate AtMostOneOpen(positions: seq<Position>) {
    forall i, j :: 0 <= i < j < |positions| && positions[i].status == "open" && positions[j].status == "open" ==>
      positions[i].botId != positions[j].botId
  }

  /** Closing positions keeps every bot id and opens none. */
  ghost predicate NoneOpened(a: seq<Position>, b: seq<Position>) {
    |a| == |b| && forall k :: 0 <= k < |a| ==> a[k].botId == b[k].botId && (a[k].status == "open" ==> b[k].status == "open")
  }

  lemma ManageOneOpensNothing(p: Pass, pos: Position, env: Env)
    ensures var r := ManageOne(p, pos, env);
      NoneOpened(r.db.positions, p.db.positions) && SameIds(r.db.bots, p.db.bots) && r.recorded == p.recorded
  {
  }

  lemma {:induction false} ManageAllOpensNothing(p: Pass, ps: seq<Position>, env: Env)
    ensures var r := ManageAll(p, ps, env);
      NoneOpened(r.db.positions, p.db.positions) && SameIds(r.db.bots, p.db.bots) && r.recorded == p.recorded
    decreases |ps|
  {
    if ps != [] {
      var q := ManageAll(p, ps[..|ps| - 1], env);
      ManageAllOpensNothing(p, ps[..|ps| - 1], env);
      ManageOneOpensNothing(q, ps[|ps| - 1], env);
    }
  }

  /** Managing positions only closes: it keeps at most one open position per bot. */
  lemma ManageKeepsOneOpen(db: Db, env: Env)
    requires AtMostOneOpen(db.positions)
    ensures var m := ManageAll(Pass(db, [], false), OpenLive(db.positions), env);
      AtMostOneOpen(m.db.positions) && SameIds(m.db.bots, db.bots)
  {
    ManageAllOpensNothing(Pass(db, [], false), OpenLive(db.positions), env);
  }

  /** None of the bots in `bs` has an open position. */
  ghost predicate NoneOpenFor(positions: seq<Position>, bs: seq<Bot>) {
    forall k :: 0 <= k < |bs| ==> !HasOpen(positions, bs[k].id)
  }

  /** An entry adds at most one position, for its own bot, and the store keeps its bots. */
  lemma EntryOneShape(p: Pass, b: Bot, env: Env)
    ensures var r := EntryOne(p, b, env);
      r.db.bots == p.db.bots &&
      (r.db.positions == p.db.positions || exists pos: Position :: pos.botId == b.id && r.db.positions == p.db.positions + [pos])
  {
    if !p.aborted && env.canTrade(b) {
      var ai := Ai.GetTradeDecision(env.payload(b), env.tradeReply(b));
      if ai.decision == "BUY" || ai.decision == "SELL" {
        var r := LiveEntry(p, b, ai, env);
        if r.recorded != p.recorded {
          EntryNeedsAConfidentDecision(p, b, env);
          var pos := r.db.positions[|p.db.positions|];
          assert r.db.positions == p.db.positions + [pos];
        }
      }
    }
  }

  /** Adding a position for bot `b` keeps the invariant when `b` had none open, and the other bots' state. */
  lemma AppendForBot(ps: seq<Position>, pos: Position, rest: seq<Bot>, id: string)
    requires AtMostOneOpen(ps) && !HasOpen(ps, pos.botId) && pos.botId == id
    requires NoneOpenFor(ps, rest) && forall k :: 0 <= k < |rest| ==> rest[k].id != id
    ensures AtMostOneOpen(ps + [pos]) && NoneOpenFor(ps + [pos], rest)
  {
    var qs := ps + [pos];
    forall i, j | 0 <= i < j < |qs| && qs[i].status == "open" && qs[j].status == "open"
      ensures qs[i].botId != qs[j].botId
    {
      if j == |ps| {
        assert qs[i] == ps[i];
      }
    }
    forall k, m | 0 <= k < |rest| && 0 <= m < |qs|
      ensures !(qs[m].botId == rest[k].id && qs[m].status == "open")
    {
      if m < |ps| {
        assert qs[m] == ps[m];
      }
    }
  }

  /**
   * The entry loop over bots with distinct ids, none of which has an open position, keeps at most
   * one open position per bot.
   */
  lemma {:induction false} EntryAllKeepsOneOpen(p: Pass, bs: seq<Bot>, env: Env)
    requires AtMostOneOpen(p.db.positions) && UniqueIds(bs) && NoneOpenFor(p.db.positions, bs)
    ensures AtMostOneOpen(EntryAll(p, bs, env).db.positions)
  {
    EntryAllInvariant(p, bs, |bs|, env);
    assert bs[..|bs|] == bs;
  }

  lemma {:induction false} EntryAllInvariant(p: Pass, bs: seq<Bot>, i: nat, env: Env)
    requires AtMostOneOpen(p.db.positions) && UniqueIds(bs) && NoneOpenFor(p.db.positions, bs)
    requires i <= |bs|
    ensures AtMostOneOpen(EntryAll(p, bs[..i], env).db.positions)
    ensures NoneOpenFor(EntryAll(p, bs[..i], env).db.positions, bs[i..])
    decreases i
  {
    if i == 0 {
      assert bs[..0] == [] && bs[0..] == bs;
    } else {
      EntryAllInvariant(p, bs, i - 1, env);
      EntryAllStep(p, bs, i - 1, env);
      var q := EntryAll(p, bs[..i - 1], env);
      TailFacts(q.db.positions, bs, i);
      EntryKeepsOneOpen(q, bs[i - 1], bs[i..], env);
    }
  }

  /** The bot at `i - 1` has no open position, nor has any bot after it, and none of those shares its id. */
  lemma TailFacts(ps: seq<Position>, bs: seq<Bot>, i: nat)
    requires 0 < i <= |bs| && UniqueIds(bs) && NoneOpenFor(ps, bs[i - 1..])
    ensures !HasOpen(ps, bs[i - 1].id) && NoneOpenFor(ps, bs[i..])
    ensures forall k :: 0 <= k < |bs[i..]| ==> bs[i..][k].id != bs[i - 1].id
  {
    assert bs[i - 1..][0] == bs[i - 1];
    forall k | 0 <= k < |bs[i..]|
      ensures !HasOpen(ps, bs[i..][k].id) && bs[i..][k].id != bs[i - 1].id
    {
      assert bs[i..][k] == bs[i - 1..][k + 1] == bs[i + k];
    }
  }

  /** One entry, for a bot without an open position, keeps the invariant for the bots still to come. */
  lemma EntryKeepsOneOpen(q: Pass, b: Bot, rest: seq<Bot>, env: Env)
    requires AtMostOneOpen(q.db.positions) && !HasOpen(q.db.positions, b.id) && NoneOpenFor(q.db.positions, rest)
    requires forall k :: 0 <= k < |rest| ==> rest[k].id != b.id
    ensures AtMostOneOpen(EntryOne(q, b, env).db.positions) && NoneOpenFor(EntryOne(q, b, env).db.positions, rest)
  {
    EntryOneShape(q, b, env);
    var r := EntryOne(q, b, env);
    if r.db.positions != q.db.positions {
      var pos: Position :| pos.botId == b.id && r.db.positions == q.db.positions + [pos];
      AppendForBot(q.db.positions, pos, rest, b.id);
    }
  }

  /**
   * A trading cycle over a store with unique bot ids keeps at most one open position per bot:
   * exits only close positions, and entries go only to bots without an open position, one each.
   */
  lemma CycleKeepsOneOpenPositionPerBot(db: Db, env: Env)
    requires UniqueIds(db.bots) && AtMostOneOpen(db.positions)
    ensures AtMostOneOpen(Cycle(db, env).db.positions)
  {
    var m := ManageAll(Pass(db, [], false), OpenLive(db.positions), env);
    ManageKeepsOneOpen(db, env);
    if !m.aborted {
      assert UniqueIds(m.db.bots);
      var es := Eligible(m.db.bots, m.db.positions);
      EligibleUnique(m.db.bots, m.db.positions);
      assert NoneOpenFor(m.db.positions, es) by {
        forall k | 0 <= k < |es|
          ensures !HasOpen(m.db.positions, es[k].id)
        {
          assert es[k] in es;
        }
      }
      EntryAllKeepsOneOpen(m, es, env);
    }
  }
}
