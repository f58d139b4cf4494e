/**
 * The Mongo collections the trading core reads and writes, as values. Each collection is
 * the sequence of its documents in natural order; `update_one({"id": x}, ...)` acts on the
 * first document whose id is x, and does nothing when there is none. The mode records are
 * keyed by user, as `find_one({"user_id": u})` looks them up.
 */
module Store {
  import opened Wrappers
  import Json

  /** Why the circuit breaker fired; the drawdown and its limit are fractions (0.25 is 25%). */
  datatype DrawdownReason =
    | BotDrawdownExceeded(drawdown: real, limit: real)     // "Total drawdown {d}% exceeds limit {l}%"
    | GlobalDrawdownExceeded(drawdown: real, limit: real)  // "Global drawdown {d}% exceeds {l}%"

  /** Why a position was closed: the risk engine's own text, or "AI_EMERGENCY_EXIT: " + str(reasoning). */
  datatype ExitReason = RiskExit(text: string) | AiEmergencyExit(reasoning: Json.Value)

  /**
   * A bot document. The capital and profit fields are looked up with `.get(..., default)`
   * and the defaults differ from reader to reader, so a missing field is kept as None.
   * `pausedReason` Some(r) stands for the text "Circuit breaker: " followed by r.
   */
  datatype Bot = Bot(
    id: string,
    userId: string,
    name: string,
    exchange: string,
    tradingPair: string,
    tradingMode: string,
    status: string,
    initialCapital: Option<real>,
    currentCapital: Option<real>,
    totalProfit: Option<real>,
    totalCapitalAllocated: real,
    winCount: int,
    lossCount: int,
    tradesCount: int,
    lastTradeTime: Option<real>,
    pausedReason: Option<DrawdownReason>,
    pausedAt: Option<real>)

  /** What a trading decision left as the position's rationale. */
  datatype Reasoning =
    | Text(text: string)              // a fixed message of the source
    | Given(value: Json.Value)        // the model's own 'reasoning' field, unchecked
    | LowConfidence(confidence: real) // "Confidence ({c}) too low for trade. Defaulting to HOLD."
    | InternalError                   // "Internal error: {e}"

  datatype Position = Position(
    id: string,
    botId: string,
    userId: string,
    exchange: string,
    pair: string,
    side: string,
    entryPrice: real,
    entryQty: real,
    entryOrderId: Option<string>,
    tradingMode: string,
    status: string,
    aiReasoning: Reasoning,
    entryTime: real)

  /** One completed round trip; appended once and never changed. */
  datatype TradeRecord = TradeRecord(
    positionId: string,
    botId: string,
    userId: string,
    exchange: string,
    pair: string,
    side: string,
    entryPrice: real,
    exitPrice: real,
    qty: real,
    entryTime: real,
    profitLoss: real,
    fees: real,
    tradingMode: string,
    exitReason: ExitReason,
    aiReasoning: Reasoning)

  datatype AlertMessage =
    | BotPausedAlert(botName: string, reason: DrawdownReason)  // "CIRCUIT BREAKER: {name} paused - {reason}"
    | EmergencyStopAlert(reason: DrawdownReason)               // "EMERGENCY STOP ACTIVATED: {reason}"

  datatype Alert = Alert(userId: string, kind: string, severity: string, message: AlertMessage,
                         timestamp: real, dismissed: bool)

  datatype RogueDetection = RogueDetection(userId: string, botId: string, botName: string, kind: string,
                                           reason: DrawdownReason, timestamp: real, actionTaken: string)

  /** A user's system-modes record; an absent flag reads as false. */
  datatype Modes = Modes(autopilot: bool, paperTrading: bool, emergencyStop: bool,
                         emergencyReason: Option<DrawdownReason>, emergencyAt: Option<real>)

  datatype Db = Db(
    bots: seq<Bot>,
    positions: seq<Position>,
    trades: seq<TradeRecord>,
    alerts: seq<Alert>,
    rogueDetections: seq<RogueDetection>,
    systemModes: map<string, Modes>)

  /** The index `find_one({"id": id})` / `update_one({"id": id}, ...)` acts on. */
  function FindBot(bots: seq<Bot>, id: string): (r: Option<nat>)
    ensures r.Some? ==> r.value < |bots| && bots[r.value].id == id
    ensures r.Some? ==> forall j :: 0 <= j < r.value ==> bots[j].id != id
    ensures r.None? ==> forall j :: 0 <= j < |bots| ==> bots[j].id != id
  {
    if bots == [] then None
    else if bots[0].id == id then Some(0)
    else match FindBot(bots[1..], id)
      case Some(k) => Some(k + 1)
      case None => None
  }

  function FindPosition(positions: seq<Position>, id: string): (r: Option<nat>)
    ensures r.Some? ==> r.value < |positions| && positions[r.value].id == id
    ensures r.Some? ==> forall j :: 0 <= j < r.value ==> positions[j].id != id
    ensures r.None? ==> forall j :: 0 <= j < |positions| ==> positions[j].id != id
  {
    if positions == [] then None
    else if positions[0].id == id then Some(0)
    else match FindPosition(positions[1..], id)
      case Some(k) => Some(k + 1)
      case None => None
  }

  ghost predicate UniqueIds(bots: seq<Bot>) {
    forall i, j :: 0 <= i < j < |bots| ==> bots[i].id != bots[j].id
  }

  /** Two bot sequences that hold the same ids at the same places. */
  ghost predicate SameIds(a: seq<Bot>, b: seq<Bot>) {
    |a| == |b| && forall j :: 0 <= j < |a| ==> a[j].id == b[j].id
  }

  /** Under unique ids, the bot found for an id is the one at that id's place. */
  lemma FindUnique(bots: seq<Bot>, j: nat)
    requires UniqueIds(bots) && j < |bots|
    ensures FindBot(bots, bots[j].id) == Some(j)
  {
  }

  /** `find({"user_id": u})`: the user's bots, in collection order. */
  function UserBots(bots: seq<Bot>, userId: string): (r: seq<Bot>)
    ensures forall b :: b in r <==> b in bots && b.userId == userId
    ensures |r| <= |bots|
  {
    if bots == [] then []
    else (if bots[0].userId == userId then [bots[0]] else []) + UserBots(bots[1..], userId)
  }

  /** `.to_list(1000)`: at most this many documents come back from a query. */
  const ListCap: nat := 1000

  /** The documents a query hands back: the matches in collection order, at most 1000. */
  function Listed(bots: seq<Bot>): (r: seq<Bot>)
    ensures |r| == if |bots| > ListCap then ListCap else |bots|
    ensures |bots| <= ListCap ==> r == bots
    ensures forall j :: 0 <= j < |r| ==> r[j] == bots[j]
  {
    if |bots| > ListCap then bots[..ListCap] else bots
  }

  /** Two bot sequences whose bots agree, place by place, on the owner and on what `f` reads. */
  ghost predicate Agree<T>(a: seq<Bot>, b: seq<Bot>, f: Bot -> T) {
    |a| == |b| && forall j :: 0 <= j < |a| ==> a[j].userId == b[j].userId && f(a[j]) == f(b[j])
  }

  lemma AgreeConcat<T>(a: seq<Bot>, a': seq<Bot>, b: seq<Bot>, b': seq<Bot>, f: Bot -> T)
    requires Agree(a, b, f) && Agree(a', b', f)
    ensures Agree(a + a', b + b', f)
  {
    forall j | 0 <= j < |a + a'|
      ensures (a + a')[j].userId == (b + b')[j].userId && f((a + a')[j]) == f((b + b')[j])
    {
      if j >= |a| {
        assert (a + a')[j] == a'[j - |a|] && (b + b')[j] == b'[j - |b|];
      }
    }
  }

  /** Filtering by owner keeps the agreement, so a user's bots agree wherever the collections do. */
  lemma {:induction false} AgreeUserBots<T>(a: seq<Bot>, b: seq<Bot>, userId: string, f: Bot -> T)
    requires Agree(a, b, f)
    ensures Agree(UserBots(a, userId), UserBots(b, userId), f)
    decreases |a|
  {
    if a != [] {
      AgreeUserBots(a[1..], b[1..], userId, f);
      var ha := if a[0].userId == userId then [a[0]] else [];
      var hb := if b[0].userId == userId then [b[0]] else [];
      assert Agree(ha, hb, f);
      AgreeConcat(ha, UserBots(a[1..], userId), hb, UserBots(b[1..], userId), f);
    }
  }

  lemma AgreeListed<T>(a: seq<Bot>, b: seq<Bot>, f: Bot -> T)
    requires Agree(a, b, f)
    ensures Agree(Listed(a), Listed(b), f)
  {
  }

  /** No bot value occurs twice. */
  ghost predicate NoDup(s: seq<Bot>) {
    forall i, j :: 0 <= i < j < |s| ==> s[i] != s[j]
  }

  lemma {:induction false} UserBotsNoDup(bots: seq<Bot>, userId: string)
    requires NoDup(bots)
    ensures NoDup(UserBots(bots, userId))
    decreases |bots|
  {
    if bots != [] {
      UserBotsNoDup(bots[1..], userId);
      var t := UserBots(bots[1..], userId);
      assert bots[0] !in bots[1..];
      assert bots[0] !in t;
      var r := UserBots(bots, userId);
      forall i, j | 0 <= i < j < |r|
        ensures r[i] != r[j]
      {
        if bots[0].userId == userId && i == 0 {
          assert r[j] == t[j - 1];
        }
      }
    }
  }

  /** A distinct sequence is its front, distinct, followed by a last element not in the front. */
  lemma SplitLast(s: seq<Bot>)
    requires NoDup(s) && s != []
    ensures NoDup(s[..|s| - 1]) && s[|s| - 1] !in s[..|s| - 1] && s[|s| - 1] in s
    ensures forall x :: x in s[..|s| - 1] ==> x in s
  {
  }
}
