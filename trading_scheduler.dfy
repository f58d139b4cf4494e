/**
 * The paper-trading scheduler (backend/trading_scheduler_old.py): one call of
 * `execute_bot_trades` picks the active paper bots whose owner has autopilot and paper trading on,
 * dispatches a trading cycle for each bot whose last dispatch is at least 30 minutes old, and sums
 * the considered bots' profit per user. The paper engine's cycles themselves and the websocket
 * messages are outside the model: a dispatch is the bot id in `dispatched`, the profit update is
 * the `profits` map. `now` is the clock reading of the call; `firstModes` is what
 * `system_modes.find_one({})` hands back.
 */
module Scheduling {
  import opened Wrappers
  import opened Store

  /** Seconds between two dispatches of one bot. */
  const TradeInterval: real := 1800.0
  const Day: real := 86400.0

  /** `find({"trading_mode": "paper", "status": "active"})`, in collection order. */
  function PaperActive(bots: seq<Bot>): (r: seq<Bot>)
    ensures forall b :: b in r <==> b in bots && b.tradingMode == "paper" && b.status == "active"
  {
    if bots == [] then []
    else (if bots[0].tradingMode == "paper" && bots[0].status == "active" then [bots[0]] else []) + PaperActive(bots[1..])
  }

  /** A user trades only with a modes record whose autopilot and paperTrading flags are both on. */
  predicate Enabled(modes: map<string, Modes>, userId: string) {
    userId in modes && modes[userId].autopilot && modes[userId].paperTrading
  }

  /** Some bot of `bots` belongs to the user. */
  predicate Owns(bots: seq<Bot>, userId: string) {
    exists k :: 0 <= k < |bots| && bots[k].userId == userId
  }

  /** One more bot listed: one more possible owner. */
  lemma OwnsNext(bots: seq<Bot>, i: nat)
    requires i < |bots|
    ensures forall u :: Owns(bots[..i + 1], u) <==> Owns(bots[..i], u) || u == bots[i].userId
  {
    assert forall k :: 0 <= k < i ==> bots[..i + 1][k] == bots[..i][k];
    assert bots[..i + 1][i] == bots[i];
  }

  /** The `users_with_trading` loop: one entry per owner of a listed bot, true exactly when that owner is enabled. */
  method EnabledUsers(bots: seq<Bot>, modes: map<string, Modes>) returns (enabled: map<string, bool>)
    ensures forall u :: u in enabled <==> Owns(bots, u)
    ensures forall u :: u in enabled ==> enabled[u] == Enabled(modes, u)
  {
    enabled := map[];
    var i := 0;
    while i < |bots|
      invariant 0 <= i <= |bots|
      invariant forall u :: u in enabled <==> Owns(bots[..i], u)
      invariant forall u :: u in enabled ==> enabled[u] == Enabled(modes, u)
    {
      var userId := bots[i].userId;
      OwnsNext(bots, i);
      if userId !in enabled {
        enabled := enabled[userId := Enabled(modes, userId)];
      }
      i := i + 1;
    }
    assert bots[..|bots|] == bots;
  }

  /** `[bot for bot in active_bots if users_with_trading.get(bot['user_id'], False)]`. */
  function KeepEnabled(bots: seq<Bot>, enabled: map<string, bool>): seq<Bot> {
    if bots == [] then []
    else (if bots[0].userId in enabled && enabled[bots[0].userId] then [bots[0]] else []) + KeepEnabled(bots[1..], enabled)
  }

  /** The listed bots whose owners are enabled, in order. */
  function EnabledBots(bots: seq<Bot>, modes: map<string, Modes>): (r: seq<Bot>)
    ensures forall b :: b in r <==> b in bots && Enabled(modes, b.userId)
  {
    if bots == [] then []
    else (if Enabled(modes, bots[0].userId) then [bots[0]] else []) + EnabledBots(bots[1..], modes)
  }

  /** With the map the loop builds, the comprehension keeps exactly the enabled owners' bots. */
  lemma {:induction false} KeepEnabledIsEnabledBots(bots: seq<Bot>, all: seq<Bot>, modes: map<string, Modes>, enabled: map<string, bool>)
    requires forall b :: b in bots ==> b in all
    requires forall u :: u in enabled <==> Owns(all, u)
    requires forall u :: u in enabled ==> enabled[u] == Enabled(modes, u)
    ensures KeepEnabled(bots, enabled) == EnabledBots(bots, modes)
    decreases |bots|
  {
    if bots != [] {
      assert bots[0] in all;
      var k :| 0 <= k < |all| && all[k] == bots[0];
      assert Owns(all, bots[0].userId);
      assert forall b :: b in bots[1..] ==> b in bots;
      KeepEnabledIsEnabledBots(bots[1..], all, modes, enabled);
    }
  }

  /** The bots a call considers: the listed (at most 1000) active paper bots of enabled owners. */
  function Considered(db: Db): seq<Bot> {
    EnabledBots(Listed(PaperActive(db.bots)), db.systemModes)
  }

  /** A considered bot is an active paper bot of the store whose owner is enabled. */
  lemma ConsideredBots(db: Db, b: Bot)
    ensures b in Considered(db) ==>
      b in db.bots && b.tradingMode == "paper" && b.status == "active" && Enabled(db.systemModes, b.userId)
    ensures |PaperActive(db.bots)| <= ListCap ==>
      (b in Considered(db) <== b in db.bots && b.tradingMode == "paper" && b.status == "active" && Enabled(db.systemModes, b.userId))
  {
    if b in Considered(db) {
      assert b in Listed(PaperActive(db.bots));
      var j :| 0 <= j < |Listed(PaperActive(db.bots))| && Listed(PaperActive(db.bots))[j] == b;
      assert b in PaperActive(db.bots);
    }
  }

  // ---- activation ----

  /** The loop `update_one({"id": bot['id']}, {"$set": {"status": "active"}})` over the considered bots. */
  function ActivateAll(bots: seq<Bot>, bs: seq<Bot>): (r: seq<Bot>)
    ensures |r| == |bots|
    decreases |bs|
  {
    if bs == [] then bots
    else
      var front := ActivateAll(bots, bs[..|bs| - 1]);
      match FindBot(front, bs[|bs| - 1].id)
      case None => front
      case Some(j) => front[j := front[j].(status := "active")]
  }

  method Activate(bots: seq<Bot>, bs: seq<Bot>) returns (r: seq<Bot>)
    ensures r == ActivateAll(bots, bs)
  {
    r := bots;
    var i := 0;
    while i < |bs|
      invariant 0 <= i <= |bs|
      invariant r == ActivateAll(bots, bs[..i])
    {
      assert bs[..i + 1][..i] == bs[..i];
      var j := FindBot(r, bs[i].id);
      if j.Some? {
        r := r[j.value := r[j.value].(status := "active")];
      }
      i := i + 1;
    }
    assert bs[..|bs|] == bs;
  }

  /**
   * Over a store with unique ids, re-activating bots that are already active changes nothing: the
   * update finds each bot itself.
   */
  lemma {:induction false} ActivateChangesNothing(bots: seq<Bot>, bs: seq<Bot>)
    requires UniqueIds(bots)
    requires forall b :: b in bs ==> b in bots && b.status == "active"
    ensures ActivateAll(bots, bs) == bots
    decreases |bs|
  {
    if bs != [] {
      assert forall b :: b in bs[..|bs| - 1] ==> b in bs;
      ActivateChangesNothing(bots, bs[..|bs| - 1]);
      var b := bs[|bs| - 1];
      assert b in bs;
      var j :| 0 <= j < |bots| && bots[j] == b;
      FindUnique(bots, j);
      assert bots[j := bots[j].(status := "active")] == bots;
    }
  }

  // ---- spacing ----

  /** `last_trade_time.get(bot_id, 0)`. */
  function LastOf(last: map<string, real>, id: string): real {
    if id in last then last[id] else 0.0
  }

  /** At least the interval has passed since the bot's last dispatch. */
  predicate Due(last: map<string, real>, id: string, now: real) {
    now - LastOf(last, id) >= TradeInterval
  }

  /** Whether the first modes record sets the emergency stop. */
  predicate Halted(firstModes: Option<Modes>) {
    firstModes.Some? && firstModes.value.emergencyStop
  }

  /** The spacing map after the dispatch loop, and the ids dispatched in order. */
  datatype Round = Round(last: map<string, real>, sent: seq<string>)

  function DispatchAll(last: map<string, real>, bs: seq<Bot>, now: real, halted: bool): (r: Round)
    ensures |r.sent| <= |bs|
    ensures last.Keys <= r.last.Keys
    decreases |bs|
  {
    if bs == [] then Round(last, [])
    else
      var r := DispatchAll(last, bs[..|bs| - 1], now, halted);
      var id := bs[|bs| - 1].id;
      if Due(r.last, id, now) && !halted then Round(r.last[id := now], r.sent + [id]) else r
  }

  /** Some bot of `bs` has the id. */
  predicate Lists(bs: seq<Bot>, id: string) {
    exists k :: 0 <= k < |bs| && bs[k].id == id
  }

  /**
   * The dispatch loop sends exactly the listed bots that were due (once each, however often they
   * are listed) unless the emergency stop is set; sent bots get the call's time, every other
   * entry stays as it was.
   */
  lemma {:induction false} DispatchEffect(last: map<string, real>, bs: seq<Bot>, now: real, halted: bool)
    ensures var r := DispatchAll(last, bs, now, halted);
      && (forall id :: id in r.sent <==> !halted && Lists(bs, id) && Due(last, id, now))
      && (forall i, j :: 0 <= i < j < |r.sent| ==> r.sent[i] != r.sent[j])
      && (forall id :: id in r.sent ==> id in r.last && r.last[id] == now)
      && (forall id :: id !in r.sent ==> (id in r.last <==> id in last) && (id in last ==> r.last[id] == last[id]))
    decreases |bs|
  {
    if bs != [] {
      var front := bs[..|bs| - 1];
      var q := DispatchAll(last, front, now, halted);
      DispatchEffect(last, front, now, halted);
      var id := bs[|bs| - 1].id;
      assert forall x :: Lists(bs, x) <==> Lists(front, x) || x == id by {
        assert forall k :: 0 <= k < |front| ==> bs[k] == front[k];
      }
      if id in q.sent {
        assert !Due(q.last, id, now);
      }
    }
  }

  /** The loop's next step, and that a due bot has not been sent yet in this call. */
  lemma DispatchStep(last: map<string, real>, bs: seq<Bot>, i: nat, now: real, halted: bool)
    requires i < |bs|
    ensures var r := DispatchAll(last, bs[..i], now, halted);
      var id := bs[i].id;
      && DispatchAll(last, bs[..i + 1], now, halted) ==
           (if Due(r.last, id, now) && !halted then Round(r.last[id := now], r.sent + [id]) else r)
      && (Due(r.last, id, now) ==> id !in r.sent)
  {
    assert bs[..i + 1][..i] == bs[..i];
    DispatchEffect(last, bs[..i], now, halted);
  }

  /** With the emergency stop set, nothing is dispatched and the spacing map is unchanged. */
  lemma {:induction false} HaltedDispatchesNothing(last: map<string, real>, bs: seq<Bot>, now: real)
    ensures DispatchAll(last, bs, now, true) == Round(last, [])
    decreases |bs|
  {
    if bs != [] {
      HaltedDispatchesNothing(last, bs[..|bs| - 1], now);
    }
  }

  /** Consecutive times at least the interval apart. */
  ghost predicate Spaced(h: seq<real>) {
    forall k :: 0 < k < |h| ==> h[k] - h[k - 1] >= TradeInterval
  }

  lemma {:induction false} SpacedGrows(h: seq<real>, k: nat)
    requires Spaced(h) && k < |h|
    ensures h[k] >= h[0] + TradeInterval * (k as real)
    decreases k
  {
    if k > 0 {
      SpacedGrows(h, k - 1);
    }
  }

  /** Dispatch times at least 1800 s apart fit at most 48 times into any day. */
  lemma AtMost48PerDay(h: seq<real>, start: real)
    requires Spaced(h)
    requires forall k :: 0 <= k < |h| ==> start <= h[k] < start + Day
    ensures |h| <= 48
  {
    if |h| > 0 {
      var n := |h|;
      SpacedGrows(h, n - 1);
      assert TradeInterval * ((n - 1) as real) < Day;
      assert ((n - 1) as real) < 48.0;
    }
  }

  /** `user_profits`: the per-user sum of `total_profit` (missing counts 0) over the considered bots. */
  function UserProfit(bs: seq<Bot>, userId: string): real
    decreases |bs|
  {
    if bs == [] then 0.0
    else UserProfit(bs[..|bs| - 1], userId) + (if bs[|bs| - 1].userId == userId then bs[|bs| - 1].totalProfit.GetOr(0.0) else 0.0)
  }

  method ProfitTotals(bs: seq<Bot>) returns (profits: map<string, real>)
    ensures forall u :: u in profits <==> Owns(bs, u)
    ensures forall u :: u in profits ==> profits[u] == UserProfit(bs, u)
  {
    profits := map[];
    var i := 0;
    while i < |bs|
      invariant 0 <= i <= |bs|
      invariant forall u :: u in profits <==> Owns(bs[..i], u)
      invariant forall u :: u in profits ==> profits[u] == UserProfit(bs[..i], u)
    {
      var b := bs[i];
      assert bs[..i + 1][..i] == bs[..i];
      OwnsNext(bs, i);
      if b.userId !in profits {
        assert UserProfit(bs[..i], b.userId) == 0.0 by {
          NoneOwnedNoProfit(bs[..i], b.userId);
        }
        profits := profits[b.userId := 0.0];
      }
      profits := profits[b.userId := profits[b.userId] + b.totalProfit.GetOr(0.0)];
      i := i + 1;
    }
    assert bs[..|bs|] == bs;
  }

  lemma {:induction false} NoneOwnedNoProfit(bs: seq<Bot>, userId: string)
    requires !Owns(bs, userId)
    ensures UserProfit(bs, userId) == 0.0
    decreases |bs|
  {
    if bs != [] {
      assert !Owns(bs[..|bs| - 1], userId) by {
        assert forall k :: 0 <= k < |bs| - 1 ==> bs[..|bs| - 1][k] == bs[k];
      }
      NoneOwnedNoProfit(bs[..|bs| - 1], userId);
    }
  }

  /** The spacing map holds the latest of each bot's dispatch times, and each bot's dispatches are spaced. */
  ghost predicate Consistent(last: map<string, real>, history: map<string, seq<real>>) {
    && (forall id :: id in last <==> id in history)
    && (forall id :: id in history ==> |history[id]| > 0 && history[id][|history[id]| - 1] == last[id] && Spaced(history[id]))
  }

  /** Dispatching a due bot keeps the spacing map consistent with the history. */
  lemma ConsistentStep(last: map<string, real>, history: map<string, seq<real>>, id: string, now: real)
    requires Consistent(last, history) && now - LastOf(last, id) >= TradeInterval
    ensures Consistent(last[id := now], history[id := Prior(history, id) + [now]])
  {
    var before := Prior(history, id);
    assert Spaced(before + [now]) by {
      if before != [] {
        assert before[|before| - 1] == last[id];
      }
    }
  }

  /** A bot's dispatch times before this call. */
  ghost function Prior(history: map<string, seq<real>>, id: string): seq<real> {
    if id in history then history[id] else []
  }

  /** `history` is `h0` with one more dispatch at `now` for each id of `sent`, and nothing else. */
  ghost predicate Tracks(h0: map<string, seq<real>>, history: map<string, seq<real>>, sent: seq<string>, now: real) {
    && (forall id :: id in history <==> id in h0 || id in sent)
    && (forall id :: id in sent ==> history[id] == Prior(h0, id) + [now])
    && (forall id :: id in h0 && id !in sent ==> history[id] == h0[id])
  }

  lemma TracksStep(h0: map<string, seq<real>>, history: map<string, seq<real>>, sent: seq<string>, now: real, id: string)
    requires Tracks(h0, history, sent, now) && id !in sent
    ensures Prior(history, id) == Prior(h0, id)
    ensures Tracks(h0, history[id := Prior(history, id) + [now]], sent + [id], now)
  {
  }

  /** What the call hands on: the store after activation, the dispatched bot ids and the profit update. */
  datatype Outcome = Outcome(db: Db, dispatched: seq<string>, profits: map<string, real>)

  class TradingScheduler {
    /** `last_trade_time`: the time of each bot's latest dispatch. */
    var lastTradeTime: map<string, real>
    /** Every dispatch time of each bot so far, latest last. */
    ghost var history: map<string, seq<real>>

    /** The spacing map holds the latest dispatch of each bot, and each bot's dispatches are spaced. */
    ghost predicate Valid()
      reads this
    {
      Consistent(lastTradeTime, history)
    }

    constructor()
      ensures lastTradeTime == map[] && history == map[] && Valid()
    {
      lastTradeTime := map[];
      history := map[];
    }

    /** The dispatch loop of `execute_bot_trades` over the considered bots. */
    method Dispatch(bs: seq<Bot>, halted: bool, now: real) returns (dispatched: seq<string>)
      requires Valid()
      modifies this
      ensures Valid()
      ensures var r := DispatchAll(old(lastTradeTime), bs, now, halted); lastTradeTime == r.last && dispatched == r.sent
      ensures Tracks(old(history), history, dispatched, now)
    {
      dispatched := [];
      var i := 0;
      while i < |bs|
        invariant 0 <= i <= |bs|
        invariant Valid()
        invariant var r := DispatchAll(old(lastTradeTime), bs[..i], now, halted); lastTradeTime == r.last && dispatched == r.sent
        invariant Tracks(old(history), history, dispatched, now)
      {
        DispatchStep(old(lastTradeTime), bs, i, now, halted);
        var id := bs[i].id;
        if now - LastOf(lastTradeTime, id) >= TradeInterval && !halted {
          ConsistentStep(lastTradeTime, history, id, now);
          TracksStep(old(history), history, dispatched, now, id);
          history := history[id := Prior(history, id) + [now]];
          lastTradeTime := lastTradeTime[id := now];
          dispatched := dispatched + [id];
        }
        i := i + 1;
      }
      assert bs[..|bs|] == bs;
    }

    /**
     * `execute_bot_trades()`: the considered bots are re-activated, each due bot is dispatched (none
     * while the emergency stop is set) and stamped with the call's time, and the considered bots'
     * profits are summed per owner.
     */
    method ExecuteBotTrades(db: Db, firstModes: Option<Modes>, now: real) returns (r: Outcome)
      requires Valid()
      modifies this
      ensures Valid()
      ensures var bs := Considered(db);
        var round := DispatchAll(old(lastTradeTime), bs, now, Halted(firstModes));
        && lastTradeTime == round.last && r.dispatched == round.sent
        && r.db == db.(bots := ActivateAll(db.bots, bs))
        && (forall u :: u in r.profits <==> Owns(bs, u))
        && (forall u :: u in r.profits ==> r.profits[u] == UserProfit(bs, u))
      ensures Tracks(old(history), history, r.dispatched, now)
    {
      var active := Listed(PaperActive(db.bots));
      if active == [] {
        return Outcome(db, [], map[]);
      }
      var enabled := EnabledUsers(active, db.systemModes);
      var bs := KeepEnabled(active, enabled);
      assert forall b :: b in active ==> b in active;
      KeepEnabledIsEnabledBots(active, active, db.systemModes, enabled);
      assert bs == Considered(db);
      if bs == [] {
        return Outcome(db, [], map[]);
      }
      var bots := Activate(db.bots, bs);
      var dispatched := Dispatch(bs, Halted(firstModes), now);
      var profits := ProfitTotals(bs);
      r := Outcome(db.(bots := bots), dispatched, profits);
    }
  }

  /**
   * Under `Valid`, which every call keeps, any run of one bot's consecutive dispatches that falls
   * within a 24-hour window has at most 48 of them.
   */
  lemma ValidBotAtMost48PerDay(s: TradingScheduler, id: string, a: nat, b: nat, start: real)
    requires s.Valid() && id in s.history && a <= b <= |s.history[id]|
    requires forall k :: a <= k < b ==> start <= s.history[id][k] < start + Day
    ensures b - a <= 48
  {
    var h := s.history[id];
    var w := h[a..b];
    assert Spaced(w) by {
      forall k | 0 < k < |w|
        ensures w[k] - w[k - 1] >= TradeInterval
      {
        assert w[k] == h[a + k] && w[k - 1] == h[a + k - 1];
      }
    }
    assert forall k :: 0 <= k < |w| ==> start <= w[k] < start + Day by {
      forall k | 0 <= k < |w|
        ensures start <= w[k] < start + Day
      {
        assert w[k] == h[a + k];
      }
    }
    AtMost48PerDay(w, start);
  }

  /** A bot dispatched twice by two calls is dispatched the second time at least 1800 s after the first. */
  lemma RedispatchIsSpaced(last: map<string, real>, bs1: seq<Bot>, t1: real, bs2: seq<Bot>, t2: real, id: string)
    requires id in DispatchAll(last, bs1, t1, false).sent
    requires id in DispatchAll(DispatchAll(last, bs1, t1, false).last, bs2, t2, false).sent
    ensures t2 - t1 >= TradeInterval
  {
    var r1 := DispatchAll(last, bs1, t1, false);
    DispatchEffect(last, bs1, t1, false);
    DispatchEffect(r1.last, bs2, t2, false);
  }
}
