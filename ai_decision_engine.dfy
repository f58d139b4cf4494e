/**
 * The post-processing around the decision engine's LLM calls: the trade decision with its
 * confidence gate, the promotion approval and the AI emergency-exit rule. The data payload,
 * the bot data and the model's JSON reply are inputs; a call that raises is `Failed`.
 */
module DecisionEngine {
  import opened Wrappers
  import Json
  import Text
  import opened Store

  /** Below this confidence a BUY or SELL is turned into HOLD. */
  const MinConfidence: real := 0.7

  datatype TradeDecision = TradeDecision(decision: string, confidence: real, reasoning: Reasoning)

  /** The answer of the exception handler: HOLD at confidence 0.0. */
  const InternalHold := TradeDecision("HOLD", 0.0, InternalError)

  /** The payload fields the prompt reads with `data_payload[...]`, which raise KeyError when absent. */
  predicate PromptFields(payload: Json.Doc) {
    "market_data" in payload && "performance_summary" in payload
  }

  /**
   * What the reply says once read: the decision text (None when `.upper()` would raise on a
   * non-text value), and the confidence (None when `float()` would raise).
   */
  function ReadDecision(reply: Json.Doc): Option<string> {
    match Json.Get(reply, "decision", Json.Str("HOLD"))
    case Str(s) => Some(Text.Upper(s))
    case _ => None
  }

  function ReadConfidence(reply: Json.Doc): Option<real> {
    Json.ToFloat(Json.Get(reply, "confidence", Json.Num(0.0)))
  }

  function ReadReasoning(reply: Json.Doc): Reasoning {
    if "reasoning" in reply then Given(reply["reasoning"]) else Text("No reasoning provided.")
  }

  /** `get_trade_decision(bot)`, given the payload call and the model's reply. */
  function GetTradeDecision(payload: Call<Json.Doc>, reply: Call<Json.Doc>): (r: TradeDecision)
    // the gate: a decision other than HOLD always carries a confidence of at least 0.7
    ensures r.decision != "HOLD" ==> r.confidence >= MinConfidence
    ensures payload.Failed? ==> r == InternalHold
    ensures payload.Returned? && !Json.Truthy(Json.Get(payload.value, "success", Json.Null)) ==>
      r == TradeDecision("HOLD", 0.0, Text("Data acquisition failed."))
    ensures payload.Returned? && Json.Truthy(Json.Get(payload.value, "success", Json.Null)) ==>
      (!PromptFields(payload.value) || reply.Failed?) ==> r == InternalHold
    // `.upper()` on a non-text decision or `float()` on an unreadable confidence raises inside the try
    ensures (&& payload.Returned? && Json.Truthy(Json.Get(payload.value, "success", Json.Null)) && PromptFields(payload.value)
             && reply.Returned? && (ReadDecision(reply.value).None? || ReadConfidence(reply.value).None?)) ==>
      r == InternalHold
    ensures r.decision != "HOLD" ==>
      reply.Returned? && r.reasoning == ReadReasoning(reply.value) && ReadDecision(reply.value) == Some(r.decision)
  {
    match payload
    case Failed => InternalHold
    case Returned(p) =>
      if !Json.Truthy(Json.Get(p, "success", Json.Null)) then TradeDecision("HOLD", 0.0, Text("Data acquisition failed."))
      else if !PromptFields(p) then InternalHold
      else match reply
        case Failed => InternalHold
        case Returned(doc) =>
          match (ReadDecision(doc), ReadConfidence(doc))
          case (Some(decision), Some(confidence)) =>
            if confidence < MinConfidence && decision != "HOLD" then
              TradeDecision("HOLD", confidence, LowConfidence(confidence))
            else TradeDecision(decision, confidence, ReadReasoning(doc))
          case _ => InternalHold
  }

  /** The payload and prompt went through and the reply could be read. */
  predicate Readable(payload: Call<Json.Doc>, reply: Call<Json.Doc>) {
    && payload.Returned? && Json.Truthy(Json.Get(payload.value, "success", Json.Null)) && PromptFields(payload.value)
    && reply.Returned? && ReadDecision(reply.value).Some? && ReadConfidence(reply.value).Some?
  }

  /** A readable reply below the threshold that asks for a trade becomes HOLD with the "too low" reasoning. */
  lemma LowConfidenceHolds(payload: Call<Json.Doc>, reply: Call<Json.Doc>)
    requires Readable(payload, reply)
    requires ReadConfidence(reply.value).value < MinConfidence && ReadDecision(reply.value).value != "HOLD"
    ensures var c := ReadConfidence(reply.value).value;
      GetTradeDecision(payload, reply) == TradeDecision("HOLD", c, LowConfidence(c))
  {
  }

  /** Otherwise the reply's own decision (upper-cased), confidence and reasoning come back. */
  lemma ReadableReplyPasses(payload: Call<Json.Doc>, reply: Call<Json.Doc>)
    requires Readable(payload, reply)
    requires ReadConfidence(reply.value).value >= MinConfidence || ReadDecision(reply.value).value == "HOLD"
    ensures GetTradeDecision(payload, reply) ==
      TradeDecision(ReadDecision(reply.value).value, ReadConfidence(reply.value).value, ReadReasoning(reply.value))
  {
  }

  /** An empty reply: HOLD, confidence 0.0, "No reasoning provided.". */
  lemma EmptyReplyDefaults(payload: Call<Json.Doc>)
    requires payload.Returned? && Json.Truthy(Json.Get(payload.value, "success", Json.Null)) && PromptFields(payload.value)
    ensures GetTradeDecision(payload, Returned(map[])) == TradeDecision("HOLD", 0.0, Text("No reasoning provided."))
  {
    assert Text.Upper("HOLD") == "HOLD";
  }

  /** A confidence sent as decimal digits is read as their value: `float("1")` is 1.0. */
  lemma ConfidenceFromDigits(n: nat)
    ensures ReadConfidence(map["confidence" := Json.Str(Text.NatToString(n))]) == Some(n as real)
  {
    Text.ParseIntegerText(n);
  }

  // ---- get_promotion_approval ----

  datatype ReviewText = Review(value: Json.Value) | NoReviewText | ReviewError
    // NoReviewText: "No reasoning provided."; ReviewError: "Internal error during AI review: {e}"

  datatype Approval = Approval(approved: Json.Value, reasoning: ReviewText)

  const ReviewFailed := Approval(Json.Bool(false), ReviewError)

  /**
   * `get_promotion_approval(bot)`. The prompt formats the bot's total profit with `:.2f`,
   * which raises on a missing value, and reads two payload fields; any failure gives false.
   * The reply's 'approved' value is passed on as it is.
   */
  function GetPromotionApproval(bot: Bot, payload: Call<Json.Doc>, reply: Call<Json.Doc>): (r: Approval)
    ensures r != ReviewFailed ==>
      && payload.Returned? && PromptFields(payload.value) && bot.totalProfit.Some? && reply.Returned?
      && r.approved == Json.Get(reply.value, "approved", Json.Bool(false))
    ensures payload.Failed? || reply.Failed? || bot.totalProfit.None? ==> r == ReviewFailed
    ensures payload.Returned? && !PromptFields(payload.value) ==> r == ReviewFailed
    // once the prompt is built and the reply returned, its 'approved' and 'reasoning' are passed on
    ensures payload.Returned? && PromptFields(payload.value) && bot.totalProfit.Some? && reply.Returned? ==>
      && r.approved == Json.Get(reply.value, "approved", Json.Bool(false))
      && r.reasoning == (if "reasoning" in reply.value then Review(reply.value["reasoning"]) else NoReviewText)
  {
    match payload
    case Failed => ReviewFailed
    case Returned(p) =>
      if bot.totalProfit.None? || !PromptFields(p) then ReviewFailed
      else match reply
        case Failed => ReviewFailed
        case Returned(doc) =>
          Approval(Json.Get(doc, "approved", Json.Bool(false)),
                   if "reasoning" in doc then Review(doc["reasoning"]) else NoReviewText)
  }

  /** Approval is never assumed: a truthy answer needs a reply whose 'approved' value is truthy. */
  lemma ApprovalNeedsTheReply(bot: Bot, payload: Call<Json.Doc>, reply: Call<Json.Doc>)
    ensures Json.Truthy(GetPromotionApproval(bot, payload, reply).approved) ==>
      reply.Returned? && "approved" in reply.value && Json.Truthy(reply.value["approved"])
  {
  }

  // ---- get_exit_decision ----

  /** Positions losing more than this fraction are put to the AI. */
  const ExitLoss: real := -0.05

  /**
   * The exit verdict. Two errors escape `get_exit_decision` uncaught: `DataRaised`, when
   * `get_bot_data` (called before the `try`) raises, and `DivisionByZero`, the ZeroDivisionError
   * of a zero entry price.
   */
  datatype ExitCheck = Stay | ExitNow(reasoning: Json.Value) | DataRaised | DivisionByZero
  {
    /** The call raised instead of returning. */
    predicate Uncaught() {
      DataRaised? || DivisionByZero?
    }
  }

  /** `not bot_data` is false: the call returned a non-empty document. */
  predicate HasBotData(botData: Call<Option<Json.Doc>>) {
    botData.Returned? && botData.value.Some? && |botData.value.value| > 0
  }

  /** `(current_price - entry_price) / entry_price`, the same for long and short positions. */
  function PnlFraction(entryPrice: real, price: real): real
    requires entryPrice != 0.0
  {
    (price - entryPrice) / entryPrice
  }

  /** `get_exit_decision(position, current_price)`, given the outcome of `get_bot_data` and the model's reply. */
  function GetExitDecision(botData: Call<Option<Json.Doc>>, entryPrice: real, price: real, reply: Call<Json.Doc>): (r: ExitCheck)
    ensures r.DataRaised? <==> botData.Failed?
    ensures r.DivisionByZero? <==> HasBotData(botData) && entryPrice == 0.0
    ensures r.ExitNow? <==>
      && HasBotData(botData) && entryPrice != 0.0 && PnlFraction(entryPrice, price) < ExitLoss
      && reply.Returned? && Json.Truthy(Json.Get(reply.value, "exit_now", Json.Bool(false)))
    ensures r.ExitNow? ==> r.reasoning == Json.Get(reply.value, "reasoning", Json.Str("Market instability."))
  {
    match botData
    case Failed => DataRaised
    case Returned(_) =>
      if !HasBotData(botData) then Stay
      else if entryPrice == 0.0 then DivisionByZero
      else if PnlFraction(entryPrice, price) < ExitLoss then
        match reply
        case Failed => Stay
        case Returned(doc) =>
          if Json.Truthy(Json.Get(doc, "exit_now", Json.Bool(false))) then ExitNow(Json.Get(doc, "reasoning", Json.Str("Market instability.")))
          else Stay
      else Stay
  }

  /**
   * For a positive entry price, a loss of at most 5% (price at least 95% of entry) never exits:
   * the check stays, unless fetching the bot data raised.
   */
  lemma SmallLossNeverExits(botData: Call<Option<Json.Doc>>, entryPrice: real, price: real, reply: Call<Json.Doc>)
    requires entryPrice > 0.0 && price >= 0.95 * entryPrice
    ensures GetExitDecision(botData, entryPrice, price, reply) == if botData.Failed? then DataRaised else Stay
  {
    FractionBound(entryPrice, price);
  }

  lemma FractionBound(entryPrice: real, price: real)
    requires entryPrice > 0.0 && price >= 0.95 * entryPrice
    ensures PnlFraction(entryPrice, price) >= ExitLoss
  {
    assert price - entryPrice >= ExitLoss * entryPrice;
  }

  /** The fraction ignores the side: a short position whose price fell 10% is asked about like a losing long. */
  lemma FallingPriceAsksEvenForShorts(botData: Call<Option<Json.Doc>>)
    requires HasBotData(botData)
    ensures GetExitDecision(botData, 100.0, 90.0, Returned(map["exit_now" := Json.Bool(true)])) ==
      ExitNow(Json.Str("Market instability."))
  {
  }
}
