/**
 * Profit reinvestment (backend/engines/autopilot_basic.py, `check_and_reinvest`). The `config`
 * constants are a parameter, and so is the outcome of `bot_manager.create_bot`, whose body is
 * not part of this model: the reinvestment returns the creation request it would make.
 */
module Autopilot {
  import opened Wrappers
  import opened Store
  import Text

  /** `REINVEST_THRESHOLD_ZAR`, `NEW_BOT_CAPITAL`, `MAX_TOTAL_BOTS` and `EXCHANGE_BOT_LIMITS` in its item order. */
  datatype Config = Config(
    reinvestThreshold: real,
    newBotCapital: real,
    maxTotalBots: nat,
    exchangeBotLimits: seq<(string, nat)>)

  /** The bot caps per exchange the repository's own smoke tests use. */
  const SampleExchangeBotLimits: seq<(string, nat)> :=
    [("luno", 75), ("binance", 150), ("kucoin", 150), ("kraken", 100), ("valr", 100)]

  /** How many top bots share the profit; each gets a fifth of it whatever their number. */
  const TopCount: nat := 5

  /** The arguments of one `bot_manager.create_bot` call. */
  datatype BotRequest = BotRequest(userId: string, name: string, exchange: string, riskMode: string, capital: real)

  function ProfitOf(b: Bot): real { b.totalProfit.GetOr(0.0) }
  function CapitalOf(b: Bot): real { b.currentCapital.GetOr(0.0) }

  /** `sum(b.get('total_profit', 0) for b in bots)`. */
  function TotalProfit(bots: seq<Bot>): real {
    if bots == [] then 0.0 else TotalProfit(bots[..|bots| - 1]) + ProfitOf(bots[|bots| - 1])
  }

  /** The sum of `current_capital` (0 when missing) over a collection. */
  function TotalCapital(bots: seq<Bot>): real {
    if bots == [] then 0.0 else TotalCapital(bots[..|bots| - 1]) + CapitalOf(bots[|bots| - 1])
  }

  // ---- sorted(bots, key=total_profit, reverse=True) ----

  ghost predicate ByProfitDesc(s: seq<Bot>) {
    forall i, j :: 0 <= i < j < |s| ==> ProfitOf(s[i]) >= ProfitOf(s[j])
  }

  /** Put `b` before the first bot whose profit is not above its own. */
  function Insert(b: Bot, s: seq<Bot>): (r: seq<Bot>)
    ensures multiset(r) == multiset(s) + multiset{b}
    ensures |r| == |s| + 1
  {
    if s == [] || ProfitOf(b) >= ProfitOf(s[0]) then [b] + s
    else
      assert s == [s[0]] + s[1..];
      [s[0]] + Insert(b, s[1..])
  }

  /** Every bot of `Insert(b, s)` is `b` or a bot of `s`. */
  lemma InsertMembers(b: Bot, s: seq<Bot>)
    ensures forall x :: x in Insert(b, s) ==> x == b || x in s
  {
    forall x | x in Insert(b, s)
      ensures x == b || x in s
    {
      assert x in multiset(Insert(b, s));
    }
  }

  /** The head of a descending sequence bounds all of its bots. */
  lemma HeadIsMax(s: seq<Bot>)
    requires ByProfitDesc(s) && s != []
    ensures forall x :: x in s[1..] ==> ProfitOf(s[0]) >= ProfitOf(x)
  {
    forall x | x in s[1..]
      ensures ProfitOf(s[0]) >= ProfitOf(x)
    {
      var k :| 0 <= k < |s[1..]| && s[1..][k] == x;
      assert s[k + 1] == x;
    }
  }

  /** A bot at least as profitable as every bot of a descending sequence can head it. */
  lemma ConsSorted(x: Bot, t: seq<Bot>)
    requires ByProfitDesc(t)
    requires forall y :: y in t ==> ProfitOf(x) >= ProfitOf(y)
    ensures ByProfitDesc([x] + t)
  {
    var r := [x] + t;
    forall i, j | 0 <= i < j < |r|
      ensures ProfitOf(r[i]) >= ProfitOf(r[j])
    {
      if i == 0 {
        assert r[j] == t[j - 1] && r[j] in t;
      } else {
        assert r[i] == t[i - 1] && r[j] == t[j - 1];
      }
    }
  }

  lemma {:induction false} InsertSorted(b: Bot, s: seq<Bot>)
    requires ByProfitDesc(s)
    ensures ByProfitDesc(Insert(b, s))
    decreases |s|
  {
    if s != [] && ProfitOf(b) < ProfitOf(s[0]) {
      assert ByProfitDesc(s[1..]);
      InsertSorted(b, s[1..]);
      InsertMembers(b, s[1..]);
      HeadIsMax(s);
      ConsSorted(s[0], Insert(b, s[1..]));
    }
  }

  /** A descending insertion sort by profit; bots of equal profit keep their collection order. */
  function SortByProfit(s: seq<Bot>): (r: seq<Bot>)
    ensures multiset(r) == multiset(s)
    ensures |r| == |s|
  {
    if s == [] then []
    else
      assert s == [s[0]] + s[1..];
      Insert(s[0], SortByProfit(s[1..]))
  }

  /** The sort orders by profit, highest first. */
  lemma {:induction false} SortByProfitSorted(s: seq<Bot>)
    ensures ByProfitDesc(SortByProfit(s))
    decreases |s|
  {
    if s != [] {
      SortByProfitSorted(s[1..]);
      InsertSorted(s[0], SortByProfit(s[1..]));
    }
  }

  /** A bot not in a duplicate-free sequence can head it. */
  lemma ConsNoDup(x: Bot, t: seq<Bot>)
    requires NoDup(t) && x !in t
    ensures NoDup([x] + t)
  {
    var r := [x] + t;
    forall i, j | 0 <= i < j < |r|
      ensures r[i] != r[j]
    {
      if i == 0 {
        assert r[j] == t[j - 1] && r[j] in t;
      } else {
        assert r[i] == t[i - 1] && r[j] == t[j - 1];
      }
    }
  }

  lemma {:induction false} InsertNoDup(b: Bot, s: seq<Bot>)
    requires NoDup(s) && b !in s
    ensures NoDup(Insert(b, s))
    decreases |s|
  {
    if s != [] && ProfitOf(b) < ProfitOf(s[0]) {
      assert NoDup(s[1..]) && b !in s[1..];
      InsertNoDup(b, s[1..]);
      assert s[0] !in s[1..];
      assert s[0] !in multiset(Insert(b, s[1..]));
      ConsNoDup(s[0], Insert(b, s[1..]));
    }
  }

  /** Sorting keeps a collection of distinct bots distinct. */
  lemma {:induction false} SortNoDup(s: seq<Bot>)
    requires NoDup(s)
    ensures NoDup(SortByProfit(s))
    decreases |s|
  {
    if s != [] {
      assert NoDup(s[1..]);
      SortNoDup(s[1..]);
      assert s[0] !in s[1..];
      assert s[0] !in multiset(SortByProfit(s[1..]));
      InsertNoDup(s[0], SortByProfit(s[1..]));
    }
  }

  /** `sorted(...)[:5]`. */
  function TopBots(bots: seq<Bot>): (r: seq<Bot>)
    ensures |r| == if |bots| < TopCount then |bots| else TopCount
    ensures forall b :: b in r ==> b in bots
  {
    var sorted := SortByProfit(bots);
    var r := if |sorted| < TopCount then sorted else sorted[..TopCount];
    assert forall b :: b in r ==> b in multiset(sorted);
    r
  }

  /**
   * The chosen bots are the most profitable ones: in descending order, and no bot left out has a
   * higher profit than any chosen one.
   */
  lemma TopBotsAreTheBest(bots: seq<Bot>)
    ensures ByProfitDesc(TopBots(bots))
    ensures forall t, b :: t in TopBots(bots) && b in bots && b !in TopBots(bots) ==> ProfitOf(t) >= ProfitOf(b)
  {
    var sorted := SortByProfit(bots);
    SortByProfitSorted(bots);
    var top := TopBots(bots);
    assert top == sorted[..|top|];
    forall t, b | t in top && b in bots && b !in top
      ensures ProfitOf(t) >= ProfitOf(b)
    {
      assert b in multiset(sorted);
      var i :| 0 <= i < |top| && top[i] == t;
      var j :| 0 <= j < |sorted| && sorted[j] == b;
      assert forall k :: 0 <= k < |top| ==> sorted[k] in top;
    }
  }

  // ---- the at-cap branch ----

  /** `update_one({"id": id}, {"$set": {"current_capital": v}})`. */
  function SetCapital(bots: seq<Bot>, id: string, v: real): (r: seq<Bot>)
    ensures |r| == |bots|
    ensures FindBot(bots, id).None? ==> r == bots
    ensures FindBot(bots, id).Some? ==>
      r == bots[FindBot(bots, id).value := bots[FindBot(bots, id).value].(currentCapital := Some(v))]
  {
    match FindBot(bots, id)
    case None => bots
    case Some(j) => bots[j := bots[j].(currentCapital := Some(v))]
  }

  /** The loop over the top bots: each gains the share on its fetched capital. */
  function ShareOut(bots: seq<Bot>, top: seq<Bot>, share: real): (r: seq<Bot>)
    ensures |r| == |bots|
    decreases |top|
  {
    if top == [] then bots
    else var t := top[|top| - 1]; SetCapital(ShareOut(bots, top[..|top| - 1], share), t.id, CapitalOf(t) + share)
  }

  /** A bot of the collection after the share-out: it gains the share if it was chosen. */
  function Gained(b: Bot, top: seq<Bot>, share: real): Bot {
    if b in top then b.(currentCapital := Some(CapitalOf(b) + share)) else b
  }

  /** Every place of `d` holds what the share-out over `top` should leave at that place of `bots`. */
  ghost predicate Shared(d: seq<Bot>, bots: seq<Bot>, top: seq<Bot>, share: real) {
    |d| == |bots| && forall j :: 0 <= j < |bots| ==> d[j] == Gained(bots[j], top, share)
  }

  /** One more bot of the collection handled: the share-out extends to it. */
  lemma ShareStep(d: seq<Bot>, bots: seq<Bot>, front: seq<Bot>, t: Bot, top: seq<Bot>, share: real, e: seq<Bot>)
    requires UniqueIds(bots) && t in bots && top == front + [t]
    requires Shared(d, bots, front, share) && e == SetCapital(d, t.id, CapitalOf(t) + share)
    ensures Shared(e, bots, top, share)
  {
    var m :| 0 <= m < |bots| && bots[m] == t;
    assert forall j :: 0 <= j < |bots| ==> d[j].id == bots[j].id;
    assert UniqueIds(d);
    FindUnique(d, m);
    forall j | 0 <= j < |bots|
      ensures e[j] == Gained(bots[j], top, share)
    {
      assert bots[j] in top <==> bots[j] in front || j == m;
    }
  }

  lemma {:induction false} ShareOutEffect(bots: seq<Bot>, top: seq<Bot>, share: real)
    requires UniqueIds(bots)
    requires forall t :: t in top ==> t in bots
    ensures Shared(ShareOut(bots, top, share), bots, top, share)
    decreases |top|
  {
    if top == [] {
      assert Shared(bots, bots, top, share);
    } else {
      var front, t := top[..|top| - 1], top[|top| - 1];
      PrefixIn(top);
      ShareOutEffect(bots, front, share);
      ShareOutLast(bots, top, share);
      ShareStep(ShareOut(bots, front, share), bots, front, t, top, share, ShareOut(bots, top, share));
    }
  }

  /** A non-empty sequence is its front and its last element, and everything in the front is in it. */
  lemma PrefixIn(s: seq<Bot>)
    requires s != []
    ensures s == s[..|s| - 1] + [s[|s| - 1]] && s[|s| - 1] in s
    ensures forall x :: x in s[..|s| - 1] ==> x in s
  {
  }

  /** Changing one place changes the capital total by the difference at that place. */
  lemma {:induction false} TotalCapitalUpdate(s: seq<Bot>, j: nat, b: Bot)
    requires j < |s|
    ensures TotalCapital(s[j := b]) == TotalCapital(s) - CapitalOf(s[j]) + CapitalOf(b)
    decreases |s|
  {
    if j < |s| - 1 {
      TotalCapitalUpdate(s[..|s| - 1], j, b);
      assert s[j := b][..|s| - 1] == s[..|s| - 1][j := b];
    } else {
      assert s[j := b][..|s| - 1] == s[..|s| - 1];
    }
  }

  /** One more chosen bot, not chosen before, adds one share to the capital total. */
  lemma ShareStepTotal(d: seq<Bot>, bots: seq<Bot>, front: seq<Bot>, m: nat, share: real)
    requires UniqueIds(bots) && m < |bots| && bots[m] !in front
    requires Shared(d, bots, front, share)
    ensures TotalCapital(SetCapital(d, bots[m].id, CapitalOf(bots[m]) + share)) == TotalCapital(d) + share
  {
    ShareStep(d, bots, front, bots[m], front + [bots[m]], share, SetCapital(d, bots[m].id, CapitalOf(bots[m]) + share));
    assert d[m] == bots[m];
    assert forall j :: 0 <= j < |bots| ==> d[j].id == bots[j].id;
    FindUnique(d, m);
    var b := bots[m].(currentCapital := Some(CapitalOf(bots[m]) + share));
    assert SetCapital(d, bots[m].id, CapitalOf(bots[m]) + share) == d[m := b];
    TotalCapitalUpdate(d, m, b);
  }

  /** The last chosen bot is updated last. */
  lemma ShareOutLast(bots: seq<Bot>, top: seq<Bot>, share: real)
    requires top != []
    ensures ShareOut(bots, top, share) ==
      SetCapital(ShareOut(bots, top[..|top| - 1], share), top[|top| - 1].id, CapitalOf(top[|top| - 1]) + share)
  {
  }

  /** n shares of the given size. */
  function Shares(n: nat, share: real): real {
    if n == 0 then 0.0 else Shares(n - 1, share) + share
  }

  /** Five shares make up the whole profit. */
  lemma FiveFifths(bots: seq<Bot>)
    ensures Shares(5, ShareOf(bots)) == TotalProfit(bots)
  {
    var x := ShareOf(bots);
    assert Shares(1, x) == x;
    assert Shares(2, x) == x + x;
    assert Shares(3, x) == x + x + x;
    assert Shares(4, x) == x + x + x + x;
    assert Shares(5, x) == x + x + x + x + x;
  }

  /** Shared over distinct chosen bots of a collection with unique ids, the capital total rises by one share per bot. */
  lemma {:induction false} ShareOutTotal(bots: seq<Bot>, top: seq<Bot>, share: real)
    requires UniqueIds(bots) && NoDup(top)
    requires forall t :: t in top ==> t in bots
    ensures TotalCapital(ShareOut(bots, top, share)) == TotalCapital(bots) + Shares(|top|, share)
    decreases |top|
  {
    if top != [] {
      var front := top[..|top| - 1];
      SplitLast(top);
      ShareOutTotal(bots, front, share);
      ShareOutEffect(bots, front, share);
      var m :| 0 <= m < |bots| && bots[m] == top[|top| - 1];
      var d := ShareOut(bots, front, share);
      ShareStepTotal(d, bots, front, m, share);
      ShareOutLast(bots, top, share);
      assert ShareOut(bots, top, share) == SetCapital(d, bots[m].id, CapitalOf(bots[m]) + share);
      assert Shares(|top|, share) == Shares(|front|, share) + share;
    }
  }

  // ---- the below-cap branch ----

  /** `len([b for b in bots if b.get('exchange') == exchange])`. */
  function OnExchange(bots: seq<Bot>, exchange: string): nat {
    if bots == [] then 0 else OnExchange(bots[..|bots| - 1], exchange) + (if bots[|bots| - 1].exchange == exchange then 1 else 0)
  }

  predicate HasCapacity(bots: seq<Bot>, limit: (string, nat)) {
    OnExchange(bots, limit.0) < limit.1
  }

  /** The place in `limits` of the first exchange that is below its cap. */
  function FirstWithCapacity(bots: seq<Bot>, limits: seq<(string, nat)>): (r: Option<nat>)
    ensures r.Some? ==> r.value < |limits| && HasCapacity(bots, limits[r.value])
    ensures r.Some? ==> forall i :: 0 <= i < r.value ==> !HasCapacity(bots, limits[i])
    ensures r.None? ==> forall i :: 0 <= i < |limits| ==> !HasCapacity(bots, limits[i])
    decreases |limits|
  {
    if limits == [] then None
    else if HasCapacity(bots, limits[0]) then Some(0)
    else match FirstWithCapacity(bots, limits[1..])
      case Some(k) => Some(k + 1)
      case None => None
  }

  /** The exchange scan, which stops at the first exchange with room. */
  method FindExchange(bots: seq<Bot>, limits: seq<(string, nat)>) returns (k: Option<nat>)
    ensures k == FirstWithCapacity(bots, limits)
  {
    var i := 0;
    while i < |limits|
      invariant 0 <= i <= |limits|
      invariant forall j :: 0 <= j < i ==> !HasCapacity(bots, limits[j])
    {
      if OnExchange(bots, limits[i].0) < limits[i].1 {
        FirstIsUnique(bots, limits, i);
        return Some(i);
      }
      i := i + 1;
    }
    FirstIsUnique(bots, limits, |limits|);
    return None;
  }

  /** The first place with room is determined by the places before it. */
  lemma FirstIsUnique(bots: seq<Bot>, limits: seq<(string, nat)>, i: nat)
    requires i <= |limits|
    requires forall j :: 0 <= j < i ==> !HasCapacity(bots, limits[j])
    requires i < |limits| ==> HasCapacity(bots, limits[i])
    ensures FirstWithCapacity(bots, limits) == if i < |limits| then Some(i) else None
  {
  }

  /** `update_many({"user_id": u}, {"$set": {"total_profit": 0}})`. */
  function ResetProfits(bots: seq<Bot>, userId: string): (r: seq<Bot>)
    ensures |r| == |bots|
    ensures forall j :: 0 <= j < |bots| ==>
      r[j] == if bots[j].userId == userId then bots[j].(totalProfit := Some(0.0)) else bots[j]
  {
    seq(|bots|, j requires 0 <= j < |bots| => if bots[j].userId == userId then bots[j].(totalProfit := Some(0.0)) else bots[j])
  }

  /** The name of the n-th bot: "Auto-Bot-" followed by n in decimal. */
  function AutoBotName(n: nat): string {
    "Auto-Bot-" + Text.NatToString(n)
  }

  /** The user's bots as `find({"user_id": u}).to_list(1000)` returns them. */
  function Fetched(bots: seq<Bot>, userId: string): seq<Bot> {
    Listed(UserBots(bots, userId))
  }

  /** What each chosen bot gains: a fifth of the total profit, however many bots are chosen. */
  function ShareOf(bots: seq<Bot>): real {
    TotalProfit(bots) / 5.0
  }

  /** What one `check_and_reinvest(user_id)` does to the store, and the creation request it makes. */
  function Reinvestment(db: Db, userId: string, cfg: Config, createSucceeded: bool): (r: (Db, Option<BotRequest>))
    // only bot documents change, and the collection keeps its size
    ensures r.0 == db.(bots := r.0.bots) && |r.0.bots| == |db.bots|
    ensures r.1.Some? ==>
      && r.1.value.userId == userId && r.1.value.riskMode == "safe" && r.1.value.capital == cfg.newBotCapital
      && |Fetched(db.bots, userId)| < cfg.maxTotalBots
  {
    if userId !in db.systemModes || !db.systemModes[userId].autopilot then (db, None)
    else
      var bots := Fetched(db.bots, userId);
      var total := TotalProfit(bots);
      if total < cfg.reinvestThreshold then (db, None)
      else if |bots| >= cfg.maxTotalBots then (db.(bots := ShareOut(db.bots, TopBots(bots), ShareOf(bots))), None)
      else if total < cfg.newBotCapital then (db, None)
      else match FirstWithCapacity(bots, cfg.exchangeBotLimits)
        case None => (db, None)
        case Some(k) =>
          var request := BotRequest(userId, AutoBotName(|bots| + 1), cfg.exchangeBotLimits[k].0, "safe", cfg.newBotCapital);
          (if createSucceeded then db.(bots := ResetProfits(db.bots, userId)) else db, Some(request))
  }

  /** The at-cap loop: each chosen bot's capital is set to its fetched capital plus the share. */
  method ShareOutLoop(bots: seq<Bot>, top: seq<Bot>, share: real) returns (updated: seq<Bot>)
    ensures updated == ShareOut(bots, top, share)
  {
    updated := bots;
    var i := 0;
    while i < |top|
      invariant 0 <= i <= |top|
      invariant updated == ShareOut(bots, top[..i], share)
    {
      assert top[..i + 1][..i] == top[..i];
      updated := SetCapital(updated, top[i].id, CapitalOf(top[i]) + share);
      i := i + 1;
    }
    assert top[..|top|] == top;
  }

  method CheckAndReinvest(db: Db, userId: string, cfg: Config, createSucceeded: bool)
    returns (r: Db, request: Option<BotRequest>)
    ensures (r, request) == Reinvestment(db, userId, cfg, createSucceeded)
  {
    if userId !in db.systemModes || !db.systemModes[userId].autopilot {
      return db, None;
    }
    var bots := Fetched(db.bots, userId);
    var total := TotalProfit(bots);
    if total < cfg.reinvestThreshold {
      return db, None;
    }
    if |bots| >= cfg.maxTotalBots {
      var updated := ShareOutLoop(db.bots, TopBots(bots), ShareOf(bots));
      return db.(bots := updated), None;
    }
    if total < cfg.newBotCapital {
      return db, None;
    }
    var k := FindExchange(bots, cfg.exchangeBotLimits);
    if k.None? {
      return db, None;
    }
    request := Some(BotRequest(userId, AutoBotName(|bots| + 1), cfg.exchangeBotLimits[k.value].0, "safe", cfg.newBotCapital));
    r := db;
    if createSucceeded {
      r := db.(bots := ResetProfits(db.bots, userId));
    }
  }

  // ---- properties ----

  /** A user without a modes record, or with autopilot off, is left alone. */
  lemma AutopilotOffChangesNothing(db: Db, userId: string, cfg: Config, ok: bool)
    requires userId !in db.systemModes || !db.systemModes[userId].autopilot
    ensures Reinvestment(db, userId, cfg, ok) == (db, None)
  {
  }

  /** Profit below the reinvestment threshold changes nothing. */
  lemma BelowThresholdChangesNothing(db: Db, userId: string, cfg: Config, ok: bool)
    requires TotalProfit(Fetched(db.bots, userId)) < cfg.reinvestThreshold
    ensures Reinvestment(db, userId, cfg, ok) == (db, None)
  {
  }

  /** At or above the cap (with autopilot on and enough profit) the store gets the share-out and nothing is requested. */
  lemma AtCapBranch(db: Db, userId: string, cfg: Config, ok: bool)
    requires userId in db.systemModes && db.systemModes[userId].autopilot
    requires var bots := Fetched(db.bots, userId);
      TotalProfit(bots) >= cfg.reinvestThreshold && |bots| >= cfg.maxTotalBots
    ensures var bots := Fetched(db.bots, userId);
      Reinvestment(db, userId, cfg, ok) == (db.(bots := ShareOut(db.bots, TopBots(bots), ShareOf(bots))), None)
  {
  }

  /** The user's fetched bots are distinct bots of the collection. */
  lemma FetchedBots(db: Db, userId: string)
    requires UniqueIds(db.bots)
    ensures NoDup(Fetched(db.bots, userId))
    ensures forall b :: b in Fetched(db.bots, userId) ==> b in db.bots && b.userId == userId
  {
    UserBotsNoDup(db.bots, userId);
    var u := UserBots(db.bots, userId);
    assert forall b :: b in Listed(u) ==> b in u;
  }

  /** The top fetched bots are bots of the collection. */
  lemma TopBotsInStore(db: Db, userId: string)
    requires UniqueIds(db.bots)
    ensures forall t :: t in TopBots(Fetched(db.bots, userId)) ==> t in db.bots
  {
    FetchedBots(db, userId);
  }

  /**
   * At or above the bot cap, each of the (at most five) most profitable fetched bots gains a fifth
   * of the total profit on its capital; every other bot, every profit field and every other
   * collection stay as they were, and no bot is requested.
   */
  lemma AtCapSharesIntoTopBots(db: Db, userId: string, cfg: Config, ok: bool)
    requires UniqueIds(db.bots)
    requires userId in db.systemModes && db.systemModes[userId].autopilot
    requires var bots := Fetched(db.bots, userId);
      TotalProfit(bots) >= cfg.reinvestThreshold && |bots| >= cfg.maxTotalBots
    ensures var bots := Fetched(db.bots, userId);
      var (r, request) := Reinvestment(db, userId, cfg, ok);
      && request.None?
      && r == db.(bots := r.bots)
      && Shared(r.bots, db.bots, TopBots(bots), ShareOf(bots))
      && (forall j :: 0 <= j < |db.bots| ==> r.bots[j].totalProfit == db.bots[j].totalProfit)
  {
    AtCapBranch(db, userId, cfg, ok);
    var bots := Fetched(db.bots, userId);
    TopBotsInStore(db, userId);
    ShareOutEffect(db.bots, TopBots(bots), ShareOf(bots));
  }

  /** With at least five bots fetched, the capital handed out adds up to exactly the total profit. */
  lemma AtCapSharesExactlyTheProfit(db: Db, userId: string, cfg: Config, ok: bool)
    requires UniqueIds(db.bots)
    requires userId in db.systemModes && db.systemModes[userId].autopilot
    requires var bots := Fetched(db.bots, userId);
      TotalProfit(bots) >= cfg.reinvestThreshold && |bots| >= cfg.maxTotalBots && |bots| >= TopCount
    ensures TotalCapital(Reinvestment(db, userId, cfg, ok).0.bots) ==
      TotalCapital(db.bots) + TotalProfit(Fetched(db.bots, userId))
  {
    AtCapBranch(db, userId, cfg, ok);
    var bots := Fetched(db.bots, userId);
    var top := TopBots(bots);
    FetchedBots(db, userId);
    SortNoDup(bots);
    var sorted := SortByProfit(bots);
    assert top == sorted[..TopCount];
    ShareOutTotal(db.bots, top, ShareOf(bots));
    FiveFifths(bots);
  }

  /** What the reinvestment rules read of a bot besides its owner. */
  function ProfitField(b: Bot): Option<real> { b.totalProfit }

  lemma {:induction false} AgreeTotalProfit(a: seq<Bot>, b: seq<Bot>)
    requires Agree(a, b, ProfitField)
    ensures TotalProfit(a) == TotalProfit(b)
    decreases |a|
  {
    if a != [] {
      assert ProfitField(a[|a| - 1]) == ProfitField(b[|b| - 1]);
      AgreeTotalProfit(a[..|a| - 1], b[..|b| - 1]);
    }
  }

  /**
   * The at-cap branch leaves the profit it shared in place, so the next run finds the same total and,
   * with the bot count unchanged, shares it out again.
   */
  lemma AtCapKeepsTheProfit(db: Db, userId: string, cfg: Config, ok: bool)
    requires UniqueIds(db.bots)
    requires userId in db.systemModes && db.systemModes[userId].autopilot
    requires var bots := Fetched(db.bots, userId);
      TotalProfit(bots) >= cfg.reinvestThreshold && |bots| >= cfg.maxTotalBots
    ensures var r := Reinvestment(db, userId, cfg, ok).0;
      && TotalProfit(Fetched(r.bots, userId)) == TotalProfit(Fetched(db.bots, userId))
      && |Fetched(r.bots, userId)| == |Fetched(db.bots, userId)|
      && r.systemModes == db.systemModes
  {
    AtCapSharesIntoTopBots(db, userId, cfg, ok);
    AtCapBranch(db, userId, cfg, ok);
    var bots := Fetched(db.bots, userId);
    var r := db.(bots := ShareOut(db.bots, TopBots(bots), ShareOf(bots)));
    assert Agree(db.bots, r.bots, ProfitField);
    AgreeUserBots(db.bots, r.bots, userId, ProfitField);
    AgreeListed(UserBots(db.bots, userId), UserBots(r.bots, userId), ProfitField);
    AgreeTotalProfit(Fetched(db.bots, userId), Fetched(r.bots, userId));
  }

  /**
   * Below the cap with enough profit for a new bot: one request, named after the next bot number,
   * with risk mode 'safe' and the configured capital, for the first exchange with room; the profits
   * are reset only when the creation succeeded, and nothing is requested or reset when no exchange
   * has room.
   */
  lemma BelowCapCreatesOneBot(db: Db, userId: string, cfg: Config, ok: bool)
    requires userId in db.systemModes && db.systemModes[userId].autopilot
    requires var bots := Fetched(db.bots, userId);
      var total := TotalProfit(bots);
      total >= cfg.reinvestThreshold && |bots| < cfg.maxTotalBots && total >= cfg.newBotCapital
    ensures var bots := Fetched(db.bots, userId);
      var (r, request) := Reinvestment(db, userId, cfg, ok);
      match FirstWithCapacity(bots, cfg.exchangeBotLimits)
      case None => r == db && request.None?
      case Some(k) =>
        && request == Some(BotRequest(userId, AutoBotName(|bots| + 1), cfg.exchangeBotLimits[k].0, "safe", cfg.newBotCapital))
        && HasCapacity(bots, cfg.exchangeBotLimits[k])
        && (forall i :: 0 <= i < k ==> !HasCapacity(bots, cfg.exchangeBotLimits[i]))
        && (ok ==> r == db.(bots := ResetProfits(db.bots, userId)))
        && (!ok ==> r == db)
  {
  }

  /** Below the cap, profit short of a new bot's capital changes nothing. */
  lemma BelowCapShortOfCapitalChangesNothing(db: Db, userId: string, cfg: Config, ok: bool)
    requires var bots := Fetched(db.bots, userId);
      |bots| < cfg.maxTotalBots && TotalProfit(bots) < cfg.newBotCapital
    ensures Reinvestment(db, userId, cfg, ok) == (db, None)
  {
  }

  /** After a successful creation every bot of the user has zero profit, so the next run reinvests nothing. */
  lemma ResetZeroesTheUsersProfit(bots: seq<Bot>, userId: string)
    ensures TotalProfit(Listed(UserBots(ResetProfits(bots, userId), userId))) == 0.0
  {
    var u := UserBots(ResetProfits(bots, userId), userId);
    assert forall b :: b in u ==> ProfitOf(b) == 0.0;
    ZeroProfits(Listed(u));
  }

  lemma {:induction false} ZeroProfits(s: seq<Bot>)
    requires forall b :: b in s ==> ProfitOf(b) == 0.0
    ensures TotalProfit(s) == 0.0
    decreases |s|
  {
    if s != [] {
      assert s[|s| - 1] in s;
      assert forall b :: b in s[..|s| - 1] ==> b in s;
      ZeroProfits(s[..|s| - 1]);
    }
  }

  /** The fifth bot of a user gets the name "Auto-Bot-5". */
  lemma FifthBotName()
    ensures AutoBotName(5) == "Auto-Bot-5"
  {
  }
}
