/**
 * Drawdown circuit breaker (backend/engines/circuit_breaker.py): per-bot and per-user drawdown
 * checks, the pause and emergency-stop transitions on the store, and the monitoring pass that
 * ties them together. `maxBotDrawdown` is the configured `MAX_DRAWDOWN_PERCENT`, a parameter
 * here (its comment gives 20% as the default); `now` is the one clock reading of a call.
 */
module CircuitBreaking {
  import opened Wrappers
  import opened Store

  /** The capital a bot is assumed to have when the field is missing, for the per-bot check. */
  const DefaultCapital: real := 1000.0
  const DefaultMaxBotDrawdown: real := 0.20
  /** Declared by the breaker but never consulted. */
  const MaxDailyDrawdownPerBot: real := 0.10
  const MaxGlobalDrawdown: real := 0.15
  /** `(True, reason)` or `(False, "OK")`. */
  datatype Check = Breach(reason: DrawdownReason) | NoBreach

  function InitialOf(b: Bot): real { b.initialCapital.GetOr(DefaultCapital) }
  function CurrentOf(b: Bot): real { b.currentCapital.GetOr(DefaultCapital) }

  /** The fraction of its initial capital a bot has lost; zero when the initial capital is not positive. */
  function BotDrawdown(b: Bot): real {
    if InitialOf(b) > 0.0 then (InitialOf(b) - CurrentOf(b)) / InitialOf(b) else 0.0
  }

  /** For a negative divisor, comparing a quotient is comparing the product the other way round. */
  lemma QuotientAboveNegative(a: real, d: real, m: real)
    requires d < 0.0
    ensures a / d > m <==> a < m * d
  {
    QuotientAbove(-a, -d, m);
    assert -a / -d == a / d;
  }

  /** For a positive divisor, comparing a quotient is comparing the product. */
  lemma QuotientAbove(a: real, d: real, m: real)
    requires d > 0.0
    ensures a / d > m <==> a > m * d
  {
    assert a / d * d == a;
    if a / d > m {
      assert (a / d - m) * d > 0.0;
    }
    if a > m * d {
      assert (a / d - m) * d == a - m * d;
    }
  }

  /**
   * `check_bot_drawdown`: a bot with positive initial capital breaches exactly when it has lost more
   * than the limit's share of it (a loss of exactly that share is no breach); otherwise its drawdown
   * counts as 0, which breaches only a negative limit.
   */
  function CheckBotDrawdown(b: Bot, maxBotDrawdown: real): (r: Check)
    ensures InitialOf(b) > 0.0 ==> (r.Breach? <==> InitialOf(b) - CurrentOf(b) > maxBotDrawdown * InitialOf(b))
    ensures InitialOf(b) <= 0.0 ==> (r.Breach? <==> maxBotDrawdown < 0.0)
    ensures r.Breach? ==> r.reason == BotDrawdownExceeded(BotDrawdown(b), maxBotDrawdown)
  {
    var initial := InitialOf(b);
    if initial > 0.0 then
      QuotientAbove(initial - CurrentOf(b), initial, maxBotDrawdown);
      if BotDrawdown(b) > maxBotDrawdown then Breach(BotDrawdownExceeded(BotDrawdown(b), maxBotDrawdown)) else NoBreach
    else if BotDrawdown(b) > maxBotDrawdown then Breach(BotDrawdownExceeded(BotDrawdown(b), maxBotDrawdown))
    else NoBreach
  }

  /** A bot without capital fields counts as 1000 against 1000 and never breaches a non-negative limit. */
  lemma MissingCapitalNeverBreaches(b: Bot, maxBotDrawdown: real)
    requires b.initialCapital.None? && b.currentCapital.None? && maxBotDrawdown >= 0.0
    ensures CheckBotDrawdown(b, maxBotDrawdown) == NoBreach
  {
  }

  /** 1000 down to 750 is a 25% drawdown, which breaches a 20% limit. */
  lemma QuarterLossBreachesTwentyPercent(b: Bot)
    requires b.initialCapital == Some(1000.0) && b.currentCapital == Some(750.0)
    ensures CheckBotDrawdown(b, DefaultMaxBotDrawdown) == Breach(BotDrawdownExceeded(0.25, 0.20))
  {
  }

  /** A loss of exactly the limit's share is not a breach. */
  lemma AtThresholdNoBreach(b: Bot, maxBotDrawdown: real)
    requires InitialOf(b) > 0.0 && InitialOf(b) - CurrentOf(b) == maxBotDrawdown * InitialOf(b)
    ensures CheckBotDrawdown(b, maxBotDrawdown) == NoBreach
  {
  }

  /** `sum(b.get('initial_capital', 0) for b in bots)`. */
  function SumInitial(bots: seq<Bot>): real {
    if bots == [] then 0.0 else SumInitial(bots[..|bots| - 1]) + bots[|bots| - 1].initialCapital.GetOr(0.0)
  }

  /** `sum(b.get('current_capital', 0) for b in bots)`. */
  function SumCurrent(bots: seq<Bot>): real {
    if bots == [] then 0.0 else SumCurrent(bots[..|bots| - 1]) + bots[|bots| - 1].currentCapital.GetOr(0.0)
  }

  /** The verdict on the summed initial and current capital of a user's bots. */
  function GlobalVerdict(totalInitial: real, totalCurrent: real): (r: Check)
    ensures totalInitial == 0.0 ==> r == NoBreach
    ensures totalInitial > 0.0 ==> (r.Breach? <==> totalInitial - totalCurrent > MaxGlobalDrawdown * totalInitial)
    // a negative initial total flips the comparison the division makes
    ensures totalInitial < 0.0 ==> (r.Breach? <==> totalInitial - totalCurrent < MaxGlobalDrawdown * totalInitial)
    ensures r.Breach? ==>
      (totalInitial != 0.0 && r.reason == GlobalDrawdownExceeded((totalInitial - totalCurrent) / totalInitial, MaxGlobalDrawdown))
  {
    var ti := totalInitial;
    var tc := totalCurrent;
    if ti == 0.0 then NoBreach
    else if ti > 0.0 then
      QuotientAbove(ti - tc, ti, MaxGlobalDrawdown);
      if (ti - tc) / ti > MaxGlobalDrawdown then Breach(GlobalDrawdownExceeded((ti - tc) / ti, MaxGlobalDrawdown))
      else NoBreach
    else
      QuotientAboveNegative(ti - tc, ti, MaxGlobalDrawdown);
      if (ti - tc) / ti > MaxGlobalDrawdown then Breach(GlobalDrawdownExceeded((ti - tc) / ti, MaxGlobalDrawdown))
    else NoBreach
  }

  /**
   * `check_global_drawdown(user_id)`: over all of the user's bots, whatever their status, no breach
   * when the initial capitals sum to zero, otherwise a breach exactly when the aggregate drawdown
   * exceeds 15%.
   */
  function CheckGlobalDrawdown(bots: seq<Bot>, userId: string): (r: Check)
    ensures var listed := Listed(UserBots(bots, userId));
      var ti := SumInitial(listed);
      var tc := SumCurrent(listed);
      && (ti == 0.0 ==> r == NoBreach)
      && (ti > 0.0 ==> (r.Breach? <==> ti - tc > MaxGlobalDrawdown * ti))
      && (ti < 0.0 ==> (r.Breach? <==> ti - tc < MaxGlobalDrawdown * ti))
      && (r.Breach? ==> ti != 0.0 && r.reason == GlobalDrawdownExceeded((ti - tc) / ti, MaxGlobalDrawdown))
  {
    var listed := Listed(UserBots(bots, userId));
    GlobalVerdict(SumInitial(listed), SumCurrent(listed))
  }

  /** What the global check reads of a bot besides its owner. */
  function Capitals(b: Bot): (Option<real>, Option<real>) {
    (b.initialCapital, b.currentCapital)
  }

  lemma {:induction false} AgreeSums(a: seq<Bot>, b: seq<Bot>)
    requires Agree(a, b, Capitals)
    ensures SumInitial(a) == SumInitial(b) && SumCurrent(a) == SumCurrent(b)
    decreases |a|
  {
    if a != [] {
      assert Capitals(a[|a| - 1]) == Capitals(b[|b| - 1]);
      AgreeSums(a[..|a| - 1], b[..|b| - 1]);
    }
  }

  /**
   * The global check reads only owners and capitals: changing the status (or anything else) of any
   * bot, as a pause does, cannot change its verdict.
   */
  lemma GlobalCheckIgnoresStatus(a: seq<Bot>, b: seq<Bot>, userId: string)
    requires Agree(a, b, Capitals)
    ensures CheckGlobalDrawdown(a, userId) == CheckGlobalDrawdown(b, userId)
  {
    AgreeUserBots(a, b, userId, Capitals);
    AgreeListed(UserBots(a, userId), UserBots(b, userId), Capitals);
    AgreeSums(Listed(UserBots(a, userId)), Listed(UserBots(b, userId)));
  }

  /** The bot as `trigger_bot_pause` leaves it. */
  function Paused(b: Bot, reason: DrawdownReason, now: real): (r: Bot)
    ensures r.status == "paused" && r.pausedReason == Some(reason) && r.pausedAt == Some(now)
    ensures r.(status := b.status, pausedReason := b.pausedReason, pausedAt := b.pausedAt) == b
  {
    b.(status := "paused", pausedReason := Some(reason), pausedAt := Some(now))
  }

  /**
   * `trigger_bot_pause(bot_id, reason)`: the first bot with that id is paused, and one rogue-detection
   * record and one critical alert naming it are appended; an unknown id changes nothing.
   */
  function TriggerBotPause(db: Db, botId: string, reason: DrawdownReason, now: real): (r: Db)
    ensures FindBot(db.bots, botId).None? ==> r == db
    ensures FindBot(db.bots, botId).Some? ==>
      var j := FindBot(db.bots, botId).value;
      var b := db.bots[j];
      && |r.bots| == |db.bots|
      && r.bots[j] == Paused(b, reason, now)
      && (forall k :: 0 <= k < |db.bots| && k != j ==> r.bots[k] == db.bots[k])
      && r.rogueDetections == db.rogueDetections + [RogueDetection(b.userId, botId, b.name, "circuit_breaker", reason, now, "paused")]
      && r.alerts == db.alerts + [Alert(b.userId, "circuit_breaker", "critical", BotPausedAlert(b.name, reason), now, false)]
      && r.positions == db.positions && r.trades == db.trades && r.systemModes == db.systemModes
  {
    match FindBot(db.bots, botId)
    case None => db
    case Some(j) =>
      var b := db.bots[j];
      db.(bots := db.bots[j := Paused(b, reason, now)],
          rogueDetections := db.rogueDetections + [RogueDetection(b.userId, botId, b.name, "circuit_breaker", reason, now, "paused")],
          alerts := db.alerts + [Alert(b.userId, "circuit_breaker", "critical", BotPausedAlert(b.name, reason), now, false)])
  }

  /**
   * `trigger_emergency_stop(user_id, reason)`: the user's modes record gets the flag, reason and time,
   * and is created with only those when missing; one critical alert is appended.
   */
  function TriggerEmergencyStop(db: Db, userId: string, reason: DrawdownReason, now: real): (r: Db)
    ensures userId in r.systemModes && r.systemModes[userId].emergencyStop
    ensures r.systemModes[userId].emergencyReason == Some(reason) && r.systemModes[userId].emergencyAt == Some(now)
    ensures userId in db.systemModes ==>
      r.systemModes[userId].autopilot == db.systemModes[userId].autopilot &&
      r.systemModes[userId].paperTrading == db.systemModes[userId].paperTrading
    ensures userId !in db.systemModes ==> !r.systemModes[userId].autopilot && !r.systemModes[userId].paperTrading
    ensures r.systemModes.Keys == db.systemModes.Keys + {userId}
    ensures forall u :: u in db.systemModes && u != userId ==> r.systemModes[u] == db.systemModes[u]
    ensures r.alerts == db.alerts + [Alert(userId, "emergency_stop", "critical", EmergencyStopAlert(reason), now, false)]
    ensures r.bots == db.bots && r.positions == db.positions && r.trades == db.trades && r.rogueDetections == db.rogueDetections
  {
    var old_ := if userId in db.systemModes then db.systemModes[userId] else Modes(false, false, false, None, None);
    db.(systemModes := db.systemModes[userId := old_.(emergencyStop := true, emergencyReason := Some(reason), emergencyAt := Some(now))],
        alerts := db.alerts + [Alert(userId, "emergency_stop", "critical", EmergencyStopAlert(reason), now, false)])
  }

  /** `find({"user_id": u, "status": "active"})`, in collection order. */
  function ActiveUserBots(bots: seq<Bot>, userId: string): (r: seq<Bot>)
    ensures forall b :: b in r <==> b in bots && b.userId == userId && b.status == "active"
  {
    if bots == [] then []
    else (if bots[0].userId == userId && bots[0].status == "active" then [bots[0]] else []) + ActiveUserBots(bots[1..], userId)
  }

  /** Pause one listed bot if its own (fetched) figures breach. */
  function PauseIfBreached(db: Db, b: Bot, maxBotDrawdown: real, now: real): Db {
    match CheckBotDrawdown(b, maxBotDrawdown)
    case Breach(reason) => TriggerBotPause(db, b.id, reason, now)
    case NoBreach => db
  }

  /** The loop of `monitor_all_bots` over the fetched bots, in order. */
  function PauseAll(db: Db, bs: seq<Bot>, maxBotDrawdown: real, now: real): (r: Db)
    ensures |r.bots| == |db.bots|
    ensures r.positions == db.positions && r.trades == db.trades && r.systemModes == db.systemModes
    decreases |bs|
  {
    if bs == [] then db
    else PauseIfBreached(PauseAll(db, bs[..|bs| - 1], maxBotDrawdown, now), bs[|bs| - 1], maxBotDrawdown, now)
  }

  /** What `monitor_all_bots(user_id)` does to the store. */
  function Monitor(db: Db, userId: string, maxBotDrawdown: real, now: real): (r: Db)
    ensures r.positions == db.positions && r.trades == db.trades && |r.bots| == |db.bots|
    ensures CheckGlobalDrawdown(db.bots, userId).Breach? ==> userId in r.systemModes && r.systemModes[userId].emergencyStop
    ensures CheckGlobalDrawdown(db.bots, userId).NoBreach? ==> r.systemModes == db.systemModes
  {
    match CheckGlobalDrawdown(db.bots, userId)
    case Breach(reason) => TriggerEmergencyStop(db, userId, reason, now)
    case NoBreach => PauseAll(db, Listed(ActiveUserBots(db.bots, userId)), maxBotDrawdown, now)
  }

  method MonitorAllBots(db: Db, userId: string, maxBotDrawdown: real, now: real) returns (r: Db)
    ensures r == Monitor(db, userId, maxBotDrawdown, now)
  {
    var global := CheckGlobalDrawdown(db.bots, userId);
    if global.Breach? {
      r := TriggerEmergencyStop(db, userId, global.reason, now);
      return;
    }
    var bots := Listed(ActiveUserBots(db.bots, userId));
    r := db;
    var i := 0;
    while i < |bots|
      invariant 0 <= i <= |bots|
      invariant r == PauseAll(db, bots[..i], maxBotDrawdown, now)
    {
      assert bots[..i + 1][..i] == bots[..i];
      assert PauseAll(db, bots[..i + 1], maxBotDrawdown, now) == PauseIfBreached(r, bots[i], maxBotDrawdown, now);
      var check := CheckBotDrawdown(bots[i], maxBotDrawdown);
      if check.Breach? {
        r := TriggerBotPause(r, bots[i].id, check.reason, now);
      }
      i := i + 1;
    }
    assert bots[..|bots|] == bots;
  }

  /**
   * A global breach stops the user's trading and returns before any bot is looked at: no bot,
   * position or rogue record changes, and exactly one alert is added.
   */
  lemma GlobalBreachSkipsBotChecks(db: Db, userId: string, maxBotDrawdown: real, now: real)
    requires CheckGlobalDrawdown(db.bots, userId).Breach?
    ensures var r := Monitor(db, userId, maxBotDrawdown, now);
      && r.bots == db.bots && r.rogueDetections == db.rogueDetections
      && r.systemModes[userId].emergencyStop
      && |r.alerts| == |db.alerts| + 1
  {
  }

  /** The number of bots in `bs` whose own figures breach. */
  function BreachCount(bs: seq<Bot>, maxBotDrawdown: real): nat {
    if bs == [] then 0
    else BreachCount(bs[..|bs| - 1], maxBotDrawdown) + (if CheckBotDrawdown(bs[|bs| - 1], maxBotDrawdown).Breach? then 1 else 0)
  }

  /** What the monitoring pass leaves at a place of the bot collection. */
  function Outcome(b: Bot, bs: seq<Bot>, maxBotDrawdown: real, now: real): Bot {
    if b in bs && CheckBotDrawdown(b, maxBotDrawdown).Breach? then Paused(b, CheckBotDrawdown(b, maxBotDrawdown).reason, now)
    else b
  }

  /** Every place of `d` holds what the pass over `bs` should leave at that place of `db`. */
  ghost predicate Reflects(d: Db, db: Db, bs: seq<Bot>, maxBotDrawdown: real, now: real) {
    |d.bots| == |db.bots| &&
    forall j :: 0 <= j < |db.bots| ==> d.bots[j] == Outcome(db.bots[j], bs, maxBotDrawdown, now)
  }

  /** One more bot of the original store handled: the reflection extends to it. */
  lemma PauseStep(d: Db, db: Db, front: seq<Bot>, m: nat, maxBotDrawdown: real, now: real)
    requires UniqueIds(db.bots) && m < |db.bots|
    requires Reflects(d, db, front, maxBotDrawdown, now)
    ensures Reflects(PauseIfBreached(d, db.bots[m], maxBotDrawdown, now), db, front + [db.bots[m]], maxBotDrawdown, now)
    ensures var r := PauseIfBreached(d, db.bots[m], maxBotDrawdown, now);
      var breach := if CheckBotDrawdown(db.bots[m], maxBotDrawdown).Breach? then 1 else 0;
      && |r.rogueDetections| == |d.rogueDetections| + breach && |r.alerts| == |d.alerts| + breach
      && r.positions == d.positions && r.trades == d.trades && r.systemModes == d.systemModes
  {
    var b := db.bots[m];
    assert forall j :: 0 <= j < |db.bots| ==> d.bots[j].id == db.bots[j].id;
    assert UniqueIds(d.bots);
    FindUnique(d.bots, m);
    var bs := front + [b];
    forall j | 0 <= j < |db.bots|
      ensures PauseIfBreached(d, b, maxBotDrawdown, now).bots[j] == Outcome(db.bots[j], bs, maxBotDrawdown, now)
    {
      assert db.bots[j] in bs <==> db.bots[j] in front || j == m;
    }
  }

  /**
   * Folding the pauses over bots taken from a store with unique ids pauses exactly the breaching
   * ones among them, leaves every other bot as it was, and adds one rogue record and one alert per
   * breaching bot.
   */
  lemma {:induction false} PauseAllEffect(db: Db, bs: seq<Bot>, maxBotDrawdown: real, now: real)
    requires UniqueIds(db.bots)
    requires forall b :: b in bs ==> b in db.bots
    ensures var r := PauseAll(db, bs, maxBotDrawdown, now);
      && Reflects(r, db, bs, maxBotDrawdown, now)
      && |r.rogueDetections| == |db.rogueDetections| + BreachCount(bs, maxBotDrawdown)
      && |r.alerts| == |db.alerts| + BreachCount(bs, maxBotDrawdown)
      && r.positions == db.positions && r.trades == db.trades && r.systemModes == db.systemModes
    decreases |bs|
  {
    if bs == [] {
      assert Reflects(db, db, bs, maxBotDrawdown, now);
    } else {
      var front := bs[..|bs| - 1];
      assert forall x :: x in front ==> x in bs;
      PauseAllEffect(db, front, maxBotDrawdown, now);
      assert bs[|bs| - 1] in bs;
      var m :| 0 <= m < |db.bots| && db.bots[m] == bs[|bs| - 1];
      assert bs == front + [db.bots[m]];
      PauseStep(PauseAll(db, front, maxBotDrawdown, now), db, front, m, maxBotDrawdown, now);
    }
  }

  /**
   * Without a global breach, `monitor_all_bots` pauses exactly the user's fetched active bots whose
   * own drawdown breaches and leaves every other bot unchanged.
   */
  lemma MonitorPausesExactlyBreachingActiveBots(db: Db, userId: string, maxBotDrawdown: real, now: real)
    requires UniqueIds(db.bots)
    requires CheckGlobalDrawdown(db.bots, userId) == NoBreach
    ensures var r := Monitor(db, userId, maxBotDrawdown, now);
      var listed := Listed(ActiveUserBots(db.bots, userId));
      && Reflects(r, db, listed, maxBotDrawdown, now)
      && r.systemModes == db.systemModes
  {
    var listed := Listed(ActiveUserBots(db.bots, userId));
    assert forall b :: b in listed ==> b in ActiveUserBots(db.bots, userId);
    PauseAllEffect(db, listed, maxBotDrawdown, now);
  }

  /** When no more than 1000 active bots are listed, the pass reaches every active bot of the user. */
  lemma ListedActiveBots(bots: seq<Bot>, userId: string, b: Bot)
    requires |ActiveUserBots(bots, userId)| <= ListCap
    ensures b in Listed(ActiveUserBots(bots, userId)) <==> b in bots && b.userId == userId && b.status == "active"
  {
  }
}
