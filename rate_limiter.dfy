/**
 * Order admission control (backend/rate_limiter.py): per-exchange counts over a 10-second
 * burst window, a 60-second window and the current UTC day, plus a per-bot daily count.
 *
 * Times are seconds since the epoch as exact reals; `now` is one reading of the clock for a
 * whole call (the source reads it separately in each helper, microseconds apart). The
 * limits `get_exchange_limits(exchange)` would return are a parameter.
 */
module RateLimiting {
  import opened Wrappers

  /** One exchange's windowed count: orders since `resetTime`. */
  datatype Window = Window(count: nat, resetTime: real)

  /** The limits of one exchange; only the burst limit has a default when it is absent. */
  datatype ExchangeLimits = ExchangeLimits(
    maxOrdersPer10Seconds: Option<nat>,
    maxOrdersPerDay: nat,
    maxOrdersPerMinute: nat,
    maxOrdersPerBotPerDay: nat)

  const DefaultBurstLimit: nat := 10
  const BurstSpan: real := 10.0
  const MinuteSpan: real := 60.0
  const SecondsPerDay: real := 86400.0

  function BurstLimit(limits: ExchangeLimits): nat {
    limits.maxOrdersPer10Seconds.GetOr(DefaultBurstLimit)
  }

  /** The budget a rejection names, in the order they are checked. */
  datatype Budget = Burst | ExchangeDaily(max: nat) | PerMinute | BotDaily(max: nat)

  /** `(True, "OK")` or `(False, reason)`. */
  datatype Admission = Allowed | Rejected(budget: Budget)

  /** Every counter the limiter keeps (the state of one `RateLimiter`). */
  datatype Counters = Counters(
    ordersToday: map<string, nat>,
    ordersThisMinute: map<string, Window>,
    ordersPer10Seconds: map<string, Window>,
    botOrdersToday: map<string, nat>,
    lastReset: int)

  /** A `defaultdict(int)` read. */
  function Count(m: map<string, nat>, k: string): nat {
    if k in m then m[k] else 0
  }

  /** A `defaultdict(int)` read also stores the default for a missing key. */
  function Touch(m: map<string, nat>, k: string): (r: map<string, nat>)
    ensures k in r && r[k] == Count(m, k)
    ensures forall j :: j in m ==> j in r && r[j] == m[j]
    ensures r.Keys == m.Keys + {k}
  {
    if k in m then m else m[k := 0]
  }

  /** A window read; a missing one is created empty with its reset time at the moment of the read. */
  function WindowAt(m: map<string, Window>, k: string, now: real): Window {
    if k in m then m[k] else Window(0, now)
  }

  /** The UTC date of a timestamp, as a day number. */
  function DayOf(t: real): int {
    (t / SecondsPerDay).Floor
  }

  /** The counters of a newly constructed limiter. */
  function Fresh(now: real): Counters {
    Counters(map[], map[], map[], map[], DayOf(now))
  }

  /** `_reset_if_needed`: on a later day clear both daily tables and move `last_reset`. */
  function ResetDaily(c: Counters, now: real): (r: Counters)
    ensures r.ordersThisMinute == c.ordersThisMinute && r.ordersPer10Seconds == c.ordersPer10Seconds
    ensures DayOf(now) > c.lastReset ==> r.ordersToday == map[] && r.botOrdersToday == map[] && r.lastReset == DayOf(now)
    ensures DayOf(now) <= c.lastReset ==> r == c
  {
    if DayOf(now) > c.lastReset then c.(ordersToday := map[], botOrdersToday := map[], lastReset := DayOf(now))
    else c
  }

  /** `_reset_minute_if_needed` / `_reset_10_seconds_if_needed`, with the window length as `span`. */
  function ResetWindow(m: map<string, Window>, e: string, now: real, span: real): (r: map<string, Window>)
    ensures r.Keys == m.Keys + {e}
    ensures forall k :: k in m && k != e ==> r[k] == m[k]
    ensures r[e] == (if now - WindowAt(m, e, now).resetTime >= span then Window(0, now) else WindowAt(m, e, now))
  {
    var w := WindowAt(m, e, now);
    m[e := if now - w.resetTime >= span then Window(0, now) else w]
  }

  /** The three resets `can_trade` starts with, in the source's order. */
  function Rollover(c: Counters, e: string, now: real): (r: Counters)
    ensures e in r.ordersThisMinute && e in r.ordersPer10Seconds
    // apart from the exchange's two windows, the state is the daily reset's
    ensures r.(ordersThisMinute := c.ordersThisMinute, ordersPer10Seconds := c.ordersPer10Seconds) == ResetDaily(c, now)
  {
    var d := ResetDaily(c, now);
    d.(ordersThisMinute := ResetWindow(d.ordersThisMinute, e, now, MinuteSpan),
       ordersPer10Seconds := ResetWindow(d.ordersPer10Seconds, e, now, BurstSpan))
  }

  /**
   * The verdict on four counts. Allowed exactly when every count is below its limit; otherwise
   * the first budget breached in the order burst, exchange day, minute, bot day is named.
   */
  function Decide(burst: nat, today: nat, minute: nat, botToday: nat, limits: ExchangeLimits): (r: Admission)
    ensures r == Allowed <==>
      burst < BurstLimit(limits) && today < limits.maxOrdersPerDay &&
      minute < limits.maxOrdersPerMinute && botToday < limits.maxOrdersPerBotPerDay
    ensures r == Rejected(Burst) <==> burst >= BurstLimit(limits)
    ensures r == Rejected(ExchangeDaily(limits.maxOrdersPerDay)) <==>
      burst < BurstLimit(limits) && today >= limits.maxOrdersPerDay
    ensures r == Rejected(PerMinute) <==>
      burst < BurstLimit(limits) && today < limits.maxOrdersPerDay && minute >= limits.maxOrdersPerMinute
    ensures r == Rejected(BotDaily(limits.maxOrdersPerBotPerDay)) <==>
      burst < BurstLimit(limits) && today < limits.maxOrdersPerDay &&
      minute < limits.maxOrdersPerMinute && botToday >= limits.maxOrdersPerBotPerDay
  {
    if burst >= BurstLimit(limits) then Rejected(Burst)
    else if today >= limits.maxOrdersPerDay then Rejected(ExchangeDaily(limits.maxOrdersPerDay))
    else if minute >= limits.maxOrdersPerMinute then Rejected(PerMinute)
    else if botToday >= limits.maxOrdersPerBotPerDay then Rejected(BotDaily(limits.maxOrdersPerBotPerDay))
    else Allowed
  }

  /**
   * `can_trade(bot_id, exchange)`: the counters afterwards and the verdict. The daily tables
   * gain a zero entry for the exchange and the bot once their check is reached, as a
   * defaultdict read does.
   */
  function CanTrade(c: Counters, bot: string, e: string, now: real, limits: ExchangeLimits): (r: (Counters, Admission))
    // only the resets move the windows and the day; the reads add zero entries at most
    ensures r.0.ordersThisMinute == Rollover(c, e, now).ordersThisMinute
    ensures r.0.ordersPer10Seconds == Rollover(c, e, now).ordersPer10Seconds
    ensures r.0.lastReset == Rollover(c, e, now).lastReset
    ensures r.1 == Allowed ==> e in r.0.ordersToday && bot in r.0.botOrdersToday
  {
    var r := Rollover(c, e, now);
    if r.ordersPer10Seconds[e].count >= BurstLimit(limits) then (r, Rejected(Burst))
    else
      var r1 := r.(ordersToday := Touch(r.ordersToday, e));
      if Count(r1.ordersToday, e) >= limits.maxOrdersPerDay then (r1, Rejected(ExchangeDaily(limits.maxOrdersPerDay)))
      else if r1.ordersThisMinute[e].count >= limits.maxOrdersPerMinute then (r1, Rejected(PerMinute))
      else
        var r2 := r1.(botOrdersToday := Touch(r1.botOrdersToday, bot));
        (r2, Decide(r2.ordersPer10Seconds[e].count, Count(r2.ordersToday, e), r2.ordersThisMinute[e].count,
                    Count(r2.botOrdersToday, bot), limits))
  }

  /** `record_trade(bot_id, exchange)`. */
  function Record(c: Counters, bot: string, e: string, now: real): (r: Counters)
    ensures Count(r.ordersToday, e) == Count(c.ordersToday, e) + 1
    ensures Count(r.botOrdersToday, bot) == Count(c.botOrdersToday, bot) + 1
    ensures r.lastReset == c.lastReset
  {
    var m := WindowAt(c.ordersThisMinute, e, now);
    var b := WindowAt(c.ordersPer10Seconds, e, now);
    c.(ordersToday := c.ordersToday[e := Count(c.ordersToday, e) + 1],
       ordersThisMinute := c.ordersThisMinute[e := m.(count := m.count + 1)],
       ordersPer10Seconds := c.ordersPer10Seconds[e := b.(count := b.count + 1)],
       botOrdersToday := c.botOrdersToday[bot := Count(c.botOrdersToday, bot) + 1])
  }

  /** The verdict of `can_trade` is `Decide` on the counts left after the resets. */
  lemma CanTradeDecides(c: Counters, bot: string, e: string, now: real, limits: ExchangeLimits)
    ensures var r := Rollover(c, e, now);
      CanTrade(c, bot, e, now, limits).1 ==
        Decide(r.ordersPer10Seconds[e].count, Count(r.ordersToday, e), r.ordersThisMinute[e].count,
               Count(r.botOrdersToday, bot), limits)
  {
  }

  /**
   * `can_trade` changes no count beyond the resets: every counter it leaves reads the same
   * as after the resets, and the only new keys are zero entries.
   */
  lemma CanTradeCountsNothing(c: Counters, bot: string, e: string, now: real, limits: ExchangeLimits)
    ensures var r := Rollover(c, e, now);
      var after := CanTrade(c, bot, e, now, limits).0;
      && after.ordersThisMinute == r.ordersThisMinute
      && after.ordersPer10Seconds == r.ordersPer10Seconds
      && after.lastReset == r.lastReset
      && (forall k :: Count(after.ordersToday, k) == Count(r.ordersToday, k))
      && (forall k :: Count(after.botOrdersToday, k) == Count(r.botOrdersToday, k))
      && r.ordersToday.Keys <= after.ordersToday.Keys <= r.ordersToday.Keys + {e}
      && r.botOrdersToday.Keys <= after.botOrdersToday.Keys <= r.botOrdersToday.Keys + {bot}
  {
    var r := Rollover(c, e, now);
    var r1 := r.(ordersToday := Touch(r.ordersToday, e));
    var r2 := r1.(botOrdersToday := Touch(r1.botOrdersToday, bot));
    TouchCounts(r.ordersToday, e);
    TouchCounts(r.botOrdersToday, bot);
    var after := CanTrade(c, bot, e, now, limits).0;
    assert after == r || after == r1 || after == r2;
  }

  /** A defaultdict read changes no count and adds at most the key read. */
  lemma TouchCounts(m: map<string, nat>, k: string)
    ensures forall j :: Count(Touch(m, k), j) == Count(m, j)
    ensures m.Keys <= Touch(m, k).Keys <= m.Keys + {k}
  {
  }

  /** The resets only move windows forward: a window is zeroed exactly when its span has passed. */
  lemma RolloverWindows(c: Counters, e: string, now: real)
    ensures var r := Rollover(c, e, now);
      var m := WindowAt(c.ordersThisMinute, e, now);
      var b := WindowAt(c.ordersPer10Seconds, e, now);
      && r.ordersThisMinute[e] == (if now - m.resetTime >= MinuteSpan then Window(0, now) else m)
      && r.ordersPer10Seconds[e] == (if now - b.resetTime >= BurstSpan then Window(0, now) else b)
      && (forall k :: k in c.ordersThisMinute && k != e ==> r.ordersThisMinute[k] == c.ordersThisMinute[k])
      && (forall k :: k in c.ordersPer10Seconds && k != e ==> r.ordersPer10Seconds[k] == c.ordersPer10Seconds[k])
  {
  }

  /** `record_trade` adds one to exactly the exchange's three counts and the bot's daily count. */
  lemma RecordCountsOne(c: Counters, bot: string, e: string, now: real)
    ensures var r := Record(c, bot, e, now);
      && (forall k :: Count(r.ordersToday, k) == Count(c.ordersToday, k) + (if k == e then 1 else 0))
      && (forall k :: Count(r.botOrdersToday, k) == Count(c.botOrdersToday, k) + (if k == bot then 1 else 0))
      && r.ordersThisMinute[e].count == WindowAt(c.ordersThisMinute, e, now).count + 1
      && r.ordersPer10Seconds[e].count == WindowAt(c.ordersPer10Seconds, e, now).count + 1
      && r.ordersThisMinute[e].resetTime == WindowAt(c.ordersThisMinute, e, now).resetTime
      && r.ordersPer10Seconds[e].resetTime == WindowAt(c.ordersPer10Seconds, e, now).resetTime
      && (forall k :: k in c.ordersThisMinute && k != e ==> r.ordersThisMinute[k] == c.ordersThisMinute[k])
      && (forall k :: k in c.ordersPer10Seconds && k != e ==> r.ordersPer10Seconds[k] == c.ordersPer10Seconds[k])
      && r.lastReset == c.lastReset
  {
  }

  /** Check-then-record, `times.|times|` rounds for one bot and exchange: record only what is allowed. */
  function Rounds(c: Counters, bot: string, e: string, limits: ExchangeLimits, times: seq<real>): (r: seq<Admission>)
    ensures |r| == |times|
    decreases |times|
  {
    if times == [] then []
    else
      [CanTrade(c, bot, e, times[0], limits).1] + Rounds(AfterRound(c, bot, e, limits, times[0]), bot, e, limits, times[1..])
  }

  /** The limits under which only the burst budget can bind while the burst count is at most its limit. */
  predicate OnlyBurstBinds(limits: ExchangeLimits) {
    && BurstLimit(limits) <= limits.maxOrdersPerDay
    && BurstLimit(limits) <= limits.maxOrdersPerMinute
    && BurstLimit(limits) <= limits.maxOrdersPerBotPerDay
  }

  /**
   * The exchange's burst window holds k orders and opened at `start` (or is still missing and
   * will open at `now` with none), and no other count of this exchange and bot exceeds k.
   */
  predicate InBurstWindow(c: Counters, bot: string, e: string, k: nat, start: real, now: real) {
    && (if e in c.ordersPer10Seconds then c.ordersPer10Seconds[e] == Window(k, start) else k == 0 && now == start)
    && Count(c.ordersToday, e) <= k && Count(c.botOrdersToday, bot) <= k
    && (e in c.ordersThisMinute ==> c.ordersThisMinute[e].count <= k)
  }

  /** The state after one check-then-record round. */
  function AfterRound(c: Counters, bot: string, e: string, limits: ExchangeLimits, now: real): Counters {
    var checked := CanTrade(c, bot, e, now, limits);
    if checked.1 == Allowed then Record(checked.0, bot, e, now) else checked.0
  }

  /** One round inside the window: allowed below the burst limit (and counted), rejected for the burst at it. */
  lemma RoundInWindow(c: Counters, bot: string, e: string, limits: ExchangeLimits, k: nat, start: real, now: real, later: real)
    requires k <= BurstLimit(limits) && OnlyBurstBinds(limits)
    requires start <= now < start + BurstSpan
    requires InBurstWindow(c, bot, e, k, start, now)
    ensures CanTrade(c, bot, e, now, limits).1 == BurstVerdict(k, 0, BurstLimit(limits))
    ensures InBurstWindow(AfterRound(c, bot, e, limits, now), bot, e, if k < BurstLimit(limits) then k + 1 else k, start, later)
  {
    var roll := Rollover(c, e, now);
    assert roll.ordersPer10Seconds[e] == Window(k, start);
    assert roll.ordersThisMinute[e].count <= k;
    assert Count(roll.ordersToday, e) <= k && Count(roll.botOrdersToday, bot) <= k;
    CanTradeCountsNothing(c, bot, e, now, limits);
    CanTradeDecides(c, bot, e, now, limits);
    var checked := CanTrade(c, bot, e, now, limits);
    if k < BurstLimit(limits) {
      assert checked.1 == Allowed;
      RecordCountsOne(checked.0, bot, e, now);
    } else {
      assert checked.1 == Rejected(Burst);
    }
  }

  /** The verdict of round i of a burst window that started the rounds with k orders. */
  function BurstVerdict(k: nat, i: nat, limit: nat): Admission {
    if k + i < limit then Allowed else Rejected(Burst)
  }

  lemma {:induction false} ConsVerdicts(first: Admission, rest: seq<Admission>, k: nat, limit: nat)
    requires first == BurstVerdict(k, 0, limit)
    requires forall i :: 0 <= i < |rest| ==> rest[i] == BurstVerdict(if k < limit then k + 1 else k, i, limit)
    ensures forall i :: 0 <= i < |rest| + 1 ==> ([first] + rest)[i] == BurstVerdict(k, i, limit)
  {
    forall i | 1 <= i < |rest| + 1
      ensures ([first] + rest)[i] == BurstVerdict(k, i, limit)
    {
      assert ([first] + rest)[i] == rest[i - 1];
    }
  }

  /**
   * Inside one burst window that already holds k orders, and with the other budgets large enough
   * never to bind first, rounds are allowed until the burst limit is reached and rejected for the
   * burst after that.
   */
  lemma {:induction false} RoundsInOneWindow(c: Counters, bot: string, e: string, limits: ExchangeLimits,
                                             times: seq<real>, k: nat, start: real)
    requires k <= BurstLimit(limits) && OnlyBurstBinds(limits)
    requires forall i :: 0 <= i < |times| ==> start <= times[i] < start + BurstSpan
    requires |times| > 0 ==> InBurstWindow(c, bot, e, k, start, times[0])
    ensures var r := Rounds(c, bot, e, limits, times);
      forall i :: 0 <= i < |times| ==> r[i] == BurstVerdict(k, i, BurstLimit(limits))
    decreases |times|
  {
    if times != [] {
      var k' := if k < BurstLimit(limits) then k + 1 else k;
      var later := if |times| > 1 then times[1] else start;
      RoundInWindow(c, bot, e, limits, k, start, times[0], later);
      var next := AfterRound(c, bot, e, limits, times[0]);
      var tail := times[1..];
      assert forall i :: 0 <= i < |tail| ==> tail[i] == times[i + 1];
      RoundsInOneWindow(next, bot, e, limits, tail, k', start);
      ConsVerdicts(CanTrade(c, bot, e, times[0], limits).1, Rounds(next, bot, e, limits, tail), k, BurstLimit(limits));
    }
  }

  /**
   * From a fresh limiter with the default burst limit of 10 and ample other budgets, eleven
   * check-then-record rounds inside one 10-second window give ten admissions and then a burst
   * rejection.
   */
  lemma ElevenOrdersInOneBurstWindow(t0: real, bot: string, e: string, limits: ExchangeLimits, times: seq<real>)
    requires BurstLimit(limits) == 10 && OnlyBurstBinds(limits)
    requires |times| == 11
    requires forall i :: 0 <= i < 11 ==> times[0] <= times[i] < times[0] + BurstSpan
    ensures var r := Rounds(Fresh(t0), bot, e, limits, times);
      (forall i :: 0 <= i < 10 ==> r[i] == Allowed) && r[10] == Rejected(Burst)
  {
    RoundsInOneWindow(Fresh(t0), bot, e, limits, times, 0, times[0]);
  }

  /** `sum(self.orders_today.values())`. */
  ghost function TotalOrders(m: map<string, nat>): nat
    decreases |m|
  {
    if m == map[] then 0 else var k :| k in m; m[k] + TotalOrders(m - {k})
  }

  /** The sum does not depend on which key is taken out first. */
  lemma {:induction false} TotalOrdersRemove(m: map<string, nat>, x: string)
    requires x in m
    ensures TotalOrders(m) == m[x] + TotalOrders(m - {x})
    decreases |m|
  {
    var k :| k in m && TotalOrders(m) == m[k] + TotalOrders(m - {k});
    if k != x {
      assert x in m - {k};
      TotalOrdersRemove(m - {k}, x);
      assert k in m - {x};
      TotalOrdersRemove(m - {x}, k);
      assert (m - {k}) - {x} == (m - {x}) - {k};
    }
  }

  /** Every recorded trade adds exactly one to `total_orders_today`. */
  lemma RecordAddsOneToTotal(c: Counters, bot: string, e: string, now: real)
    ensures TotalOrders(Record(c, bot, e, now).ordersToday) == TotalOrders(c.ordersToday) + 1
  {
    var m := c.ordersToday;
    var m' := Record(c, bot, e, now).ordersToday;
    TotalOrdersRemove(m', e);
    assert m' - {e} == m - {e};
    if e in m {
      TotalOrdersRemove(m, e);
    } else {
      assert m - {e} == m;
    }
  }

  /** The entries of `m` whose keys are in `ks`. */
  function Restrict(m: map<string, nat>, ks: set<string>): (r: map<string, nat>)
    ensures r.Keys == m.Keys * ks
    ensures forall k :: k in r ==> r[k] == m[k]
  {
    map k | k in m.Keys * ks :: m[k]
  }

  /** A zero entry stored by a defaultdict read leaves the total as it was. */
  lemma TouchKeepsTotal(m: map<string, nat>, k: string)
    ensures TotalOrders(Touch(m, k)) == TotalOrders(m)
  {
    if k !in m {
      TotalOrdersRemove(m[k := 0], k);
      assert m[k := 0] - {k} == m;
    }
  }

  /** What `get_stats` reports. */
  datatype Stats =
    | ExchangeStats(exchange: string, ordersToday: nat, maxDaily: nat, ordersThisMinute: nat, maxPerMinute: nat)
    | Summary(ordersByExchange: map<string, nat>, totalOrdersToday: nat)

  class RateLimiter {
    var ordersToday: map<string, nat>
    var ordersThisMinute: map<string, Window>
    var ordersPer10Seconds: map<string, Window>
    var botOrdersToday: map<string, nat>
    var lastReset: int

    function State(): Counters
      reads this
    {
      Counters(ordersToday, ordersThisMinute, ordersPer10Seconds, botOrdersToday, lastReset)
    }

    constructor (now: real)
      ensures State() == Fresh(now)
    {
      ordersToday := map[];
      ordersThisMinute := map[];
      ordersPer10Seconds := map[];
      botOrdersToday := map[];
      lastReset := DayOf(now);
    }

    method ResetIfNeeded(now: real)
      modifies this
      ensures State() == ResetDaily(old(State()), now)
    {
      var today := DayOf(now);
      if today > lastReset {
        ordersToday := map[];
        botOrdersToday := map[];
        lastReset := today;
      }
    }

    method ResetMinuteIfNeeded(e: string, now: real)
      modifies this
      ensures State() == old(State()).(ordersThisMinute := ResetWindow(old(ordersThisMinute), e, now, MinuteSpan))
    {
      var w := WindowAt(ordersThisMinute, e, now);
      if now - w.resetTime >= MinuteSpan {
        w := Window(0, now);
      }
      ordersThisMinute := ordersThisMinute[e := w];
    }

    method Reset10SecondsIfNeeded(e: string, now: real)
      modifies this
      ensures State() == old(State()).(ordersPer10Seconds := ResetWindow(old(ordersPer10Seconds), e, now, BurstSpan))
    {
      var w := WindowAt(ordersPer10Seconds, e, now);
      if now - w.resetTime >= BurstSpan {
        w := Window(0, now);
      }
      ordersPer10Seconds := ordersPer10Seconds[e := w];
    }

    method CanTradeNow(bot: string, e: string, now: real, limits: ExchangeLimits) returns (verdict: Admission)
      modifies this
      ensures (State(), verdict) == CanTrade(old(State()), bot, e, now, limits)
    {
      ResetIfNeeded(now);
      ResetMinuteIfNeeded(e, now);
      Reset10SecondsIfNeeded(e, now);
      if ordersPer10Seconds[e].count >= BurstLimit(limits) {
        return Rejected(Burst);
      }
      ordersToday := Touch(ordersToday, e);
      if ordersToday[e] >= limits.maxOrdersPerDay {
        return Rejected(ExchangeDaily(limits.maxOrdersPerDay));
      }
      if ordersThisMinute[e].count >= limits.maxOrdersPerMinute {
        return Rejected(PerMinute);
      }
      botOrdersToday := Touch(botOrdersToday, bot);
      if botOrdersToday[bot] >= limits.maxOrdersPerBotPerDay {
        return Rejected(BotDaily(limits.maxOrdersPerBotPerDay));
      }
      return Allowed;
    }

    method RecordTrade(bot: string, e: string, now: real)
      modifies this
      ensures State() == Record(old(State()), bot, e, now)
    {
      ghost var before := State();
      ordersToday := ordersToday[e := Count(ordersToday, e) + 1];
      var m := WindowAt(ordersThisMinute, e, now);
      ordersThisMinute := ordersThisMinute[e := m.(count := m.count + 1)];
      var b := WindowAt(ordersPer10Seconds, e, now);
      ordersPer10Seconds := ordersPer10Seconds[e := b.(count := b.count + 1)];
      botOrdersToday := botOrdersToday[bot := Count(botOrdersToday, bot) + 1];
      assert State() == before.(ordersToday := ordersToday, ordersThisMinute := ordersThisMinute,
                                ordersPer10Seconds := ordersPer10Seconds, botOrdersToday := botOrdersToday);
    }

    /**
     * `get_stats(exchange)`. For a named exchange the reads store a zero day count and an empty
     * minute window (reset time `now`) when they are missing; no reset is applied first.
     */
    method GetStats(exchange: Option<string>, limits: ExchangeLimits, now: real) returns (stats: Stats)
      modifies this
      ensures exchange.Some? && exchange.value != "" ==>
        var e := exchange.value;
        && stats == ExchangeStats(e, Count(old(ordersToday), e), limits.maxOrdersPerDay,
                                  WindowAt(old(ordersThisMinute), e, now).count, limits.maxOrdersPerMinute)
        && State() == old(State()).(ordersToday := Touch(old(ordersToday), e),
                                    ordersThisMinute := old(ordersThisMinute)[e := WindowAt(old(ordersThisMinute), e, now)])
      ensures !(exchange.Some? && exchange.value != "") ==>
        stats == Summary(ordersToday, TotalOrders(ordersToday)) && State() == old(State())
    {
      if exchange.Some? && exchange.value != "" {
        var e := exchange.value;
        ordersToday := Touch(ordersToday, e);
        var w := WindowAt(ordersThisMinute, e, now);
        ordersThisMinute := ordersThisMinute[e := w];
        return ExchangeStats(e, ordersToday[e], limits.maxOrdersPerDay, w.count, limits.maxOrdersPerMinute);
      }
      var keys := ordersToday.Keys;
      var total := 0;
      assert (Restrict(ordersToday, keys)) == ordersToday;
      while keys != {}
        invariant State() == old(State())
        invariant keys <= ordersToday.Keys
        invariant total + TotalOrders(Restrict(ordersToday, keys)) == TotalOrders(ordersToday)
        decreases keys
      {
        var k :| k in keys;
        var part := Restrict(ordersToday, keys);
        TotalOrdersRemove(part, k);
        assert part - {k} == Restrict(ordersToday, keys - {k});
        total := total + ordersToday[k];
        keys := keys - {k};
      }
      assert (Restrict(ordersToday, keys)) == map[];
      assert TotalOrders(map[]) == 0;
      return Summary(ordersToday, total);
    }
  }
}
