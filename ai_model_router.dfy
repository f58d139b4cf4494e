/**
 * The AI model router: which model a request mode goes to, which client answers a chat
 * completion, how a trade recommendation is read off the free-text answer, and the health
 * status rule. The LLM clients are inputs: what each one answers (or the error it raises)
 * is a parameter of the functions below.
 */
module ModelRouter {
  import opened Wrappers
  import Text

  /** The mode table of `__init__`. */
  const Models: map<string, string> :=
    map["fast" := "gpt-4o", "balanced" := "gpt-5.1", "deep" := "gpt-5.1", "fallback" := "gpt-4o"]

  /** `self.models.get(mode, self.models['balanced'])`. */
  function ModelFor(mode: string): (model: string)
    ensures mode in Models ==> model == Models[mode]
    ensures mode !in Models ==> model == Models["balanced"]
  {
    if mode in Models then Models[mode] else Models["balanced"]
  }

  /** The table by name: fast and fallback use gpt-4o, balanced, deep and every unknown mode gpt-5.1. */
  lemma ModelTable(mode: string)
    ensures ModelFor(mode) == if mode == "fast" || mode == "fallback" then "gpt-4o" else "gpt-5.1"
    ensures ModelFor(mode) in Models.Values
  {
    assert "balanced" in Models;
  }

  /** Which clients `__init__` managed to set up. */
  datatype Clients = Clients(emergent: bool, openai: bool)

  /** A non-empty environment variable. */
  predicate KeySet(key: Option<string>) {
    key.Some? && key.value != ""
  }

  /**
   * `__init__`. The emergent client exists when its package imported, its key is set and its
   * constructor did not raise. The OpenAI branch runs only when the emergent package did
   * import, but the `openai` module is imported only when it did not; the assignment then
   * raises NameError, which the branch catches, so the OpenAI client is never set.
   */
  function InitClients(emergentImported: bool, emergentKey: Option<string>, openaiKey: Option<string>,
                       emergentConstructs: bool): (r: Clients)
    ensures !r.openai
    ensures r.emergent ==> emergentImported
  {
    var emergent := emergentImported && KeySet(emergentKey) && emergentConstructs;
    var openaiModuleBound := !emergentImported;
    var openai := !emergent && KeySet(openaiKey) && emergentImported && openaiModuleBound;
    Clients(emergent, openai)
  }

  /** The emergent client exists exactly as configured; the OpenAI client never does. */
  lemma InitSetsOnlyTheEmergentClient(emergentImported: bool, emergentKey: Option<string>,
                                      openaiKey: Option<string>, emergentConstructs: bool)
    ensures var c := InitClients(emergentImported, emergentKey, openaiKey, emergentConstructs);
      && !c.openai
      && (c.emergent <==> emergentImported && KeySet(emergentKey) && emergentConstructs)
  {
  }

  /** What one client call gives back: an answer (whose text may be null) or a raised error. */
  datatype Outcome = Answered(content: Option<string>, tokens: nat) | Raised(error: string)

  /** The dict `chat_completion` returns. */
  datatype Completion = Completion(content: Option<string>, model: string, tokens: nat, source: string,
                                   error: Option<string>)

  /** "AI service unavailable - no API keys configured", written word by word. */
  const NoClientContent := "AI " + ("service " + ("unavailable " + ("- " + ("no " + ("API " + ("keys " + "configured"))))))
  const NoClientError := "No AI client available"

  /**
   * `chat_completion(messages, mode)`: the emergent client first, then the OpenAI client,
   * then the "unavailable" answer. An emergent failure falls through to the OpenAI client;
   * an OpenAI failure is re-raised and caught by the outer handler, whose answer carries the
   * mode (not the model) and the error text.
   */
  function ChatCompletion(clients: Clients, mode: string, emergentReply: Outcome, openaiReply: Outcome): (r: Completion)
    ensures r.source == "emergent" <==> clients.emergent && emergentReply.Answered?
    ensures r.source == "openai" <==>
      !(clients.emergent && emergentReply.Answered?) && clients.openai && openaiReply.Answered?
    ensures r.source == "error" <==>
      !(clients.emergent && emergentReply.Answered?) && clients.openai && openaiReply.Raised?
    ensures r.source == "none" <==> !(clients.emergent && emergentReply.Answered?) && !clients.openai
    ensures r.source == "emergent" ==> r == Completion(emergentReply.content, ModelFor(mode), emergentReply.tokens, "emergent", None)
    ensures r.source == "openai" ==> r == Completion(openaiReply.content, ModelFor(mode), openaiReply.tokens, "openai", None)
    ensures r.source == "error" ==>
      r == Completion(Some("Error: " + openaiReply.error), mode, 0, "error", Some(openaiReply.error))
    ensures r.source == "none" ==> r == Completion(Some(NoClientContent), "none", 0, "none", Some(NoClientError))
  {
    var model := ModelFor(mode);
    if clients.emergent && emergentReply.Answered? then
      Completion(emergentReply.content, model, emergentReply.tokens, "emergent", None)
    else if clients.openai then
      match openaiReply
      case Answered(content, tokens) => Completion(content, model, tokens, "openai", None)
      case Raised(e) => Completion(Some("Error: " + e), mode, 0, "error", Some(e))
    else
      Completion(Some(NoClientContent), "none", 0, "none", Some(NoClientError))
  }

  /** With the clients `__init__` sets up, an answer comes from the emergent client or nowhere. */
  lemma RouterAnswersFromEmergentOrNone(emergentImported: bool, emergentKey: Option<string>, openaiKey: Option<string>,
                                        emergentConstructs: bool, mode: string, emergentReply: Outcome, openaiReply: Outcome)
    ensures var c := InitClients(emergentImported, emergentKey, openaiKey, emergentConstructs);
      ChatCompletion(c, mode, emergentReply, openaiReply).source in {"emergent", "none"}
  {
    InitSetsOnlyTheEmergentClient(emergentImported, emergentKey, openaiKey, emergentConstructs);
  }

  // ---- analyze_trade_opportunity ----

  /** The recommendation read off the answer: BUY if the upper-cased text holds "BUY", else SELL if it holds "SELL", else HOLD. */
  function Recommendation(content: string): (d: string)
    ensures d == "BUY" <==> Text.Contains(Text.Upper(content), "BUY")
    ensures d == "SELL" <==> !Text.Contains(Text.Upper(content), "BUY") && Text.Contains(Text.Upper(content), "SELL")
    ensures d == "HOLD" <==> !Text.Contains(Text.Upper(content), "BUY") && !Text.Contains(Text.Upper(content), "SELL")
  {
    var upper := Text.Upper(content);
    if Text.Contains(upper, "BUY") then "BUY"
    else if Text.Contains(upper, "SELL") then "SELL"
    else "HOLD"
  }

  /** Case does not matter: the recommendation of a text is that of its upper-cased form. */
  lemma RecommendationIgnoresCase(content: string)
    ensures Recommendation(Text.Upper(content)) == Recommendation(content)
  {
    Text.UpperIdempotent(content);
  }

  /** A text naming both sides is read as BUY. */
  lemma BuyWinsOverSell(content: string)
    requires Text.Contains(Text.Upper(content), "BUY") && Text.Contains(Text.Upper(content), "SELL")
    ensures Recommendation(content) == "BUY"
  {
  }

  datatype AnalysisText = Reply(text: string) | AnalysisError  // AnalysisError: "Analysis error: {e}"

  datatype Analysis = Analysis(decision: string, reasoning: AnalysisText, model: string, confidence: real)

  /**
   * `analyze_trade_opportunity`. `result` is None when building the prompt raised (a market or
   * bot field that `:.2f` cannot format); a null answer text makes `.upper()` raise too. Both
   * land in the handler: HOLD, model "error", confidence 0.0.
   */
  function AnalyzeTradeOpportunity(result: Option<Completion>): (a: Analysis)
    ensures result.Some? && result.value.content.Some? ==>
      a == Analysis(Recommendation(result.value.content.value), Reply(result.value.content.value), result.value.model, 0.7)
    ensures result.None? || result.value.content.None? ==> a == Analysis("HOLD", AnalysisError, "error", 0.0)
    ensures a.decision in {"BUY", "SELL", "HOLD"}
  {
    match result
    case None => Analysis("HOLD", AnalysisError, "error", 0.0)
    case Some(c) =>
      match c.content
      case None => Analysis("HOLD", AnalysisError, "error", 0.0)
      case Some(text) => Analysis(Recommendation(text), Reply(text), c.model, 0.7)
  }

  /** The "unavailable" text names neither side. */
  lemma NoClientContentNamesNoSide()
    ensures !Text.Contains(Text.Upper(NoClientContent), "BUY")
    ensures !Text.Contains(Text.Upper(NoClientContent), "SELL")
  {
    NoClientContentHasNoBuy();
    NoClientContentHasNoSell();
  }

  lemma NoClientContentHasNoBuy()
    ensures !Text.Contains(Text.Upper(NoClientContent), "BUY")
  {
    var w1, w2, w3, w4, w5, w6, w7, w8 := "AI ", "service ", "unavailable ", "- ", "no ", "API ", "keys ", "configured";
    AbsentFromWords(w1, w2, w3, w4, w5, w6, w7, w8, "BUY", 0, 0, 2, 0, 0, 0, 0, 0);
  }

  lemma NoClientContentHasNoSell()
    ensures !Text.Contains(Text.Upper(NoClientContent), "SELL")
  {
    var w1, w2, w3, w4, w5, w6, w7, w8 := "AI ", "service ", "unavailable ", "- ", "no ", "API ", "keys ", "configured";
    AbsentFromWords(w1, w2, w3, w4, w5, w6, w7, w8, "SELL", 0, 2, 0, 0, 0, 0, 2, 0);
  }

  /** The letter of the token at `k` is in `w` in neither case. */
  predicate Lacks(w: string, t: string, k: nat) {
    k < |t| && 'A' <= t[k] <= 'Z' && t[k] !in w && (t[k] as int + 32) as char !in w
  }

  /** Eight blank-ended words each lacking some letter of a blank-free token: the token is not in their upper-cased text. */
  lemma AbsentFromWords(w1: string, w2: string, w3: string, w4: string, w5: string, w6: string, w7: string, w8: string,
                        t: string, k1: nat, k2: nat, k3: nat, k4: nat, k5: nat, k6: nat, k7: nat, k8: nat)
    requires ' ' !in t && |t| > 0
    requires |w1| > 0 && w1[|w1| - 1] == ' ' && |w2| > 0 && w2[|w2| - 1] == ' '
    requires |w3| > 0 && w3[|w3| - 1] == ' ' && |w4| > 0 && w4[|w4| - 1] == ' '
    requires |w5| > 0 && w5[|w5| - 1] == ' ' && |w6| > 0 && w6[|w6| - 1] == ' '
    requires |w7| > 0 && w7[|w7| - 1] == ' '
    requires Lacks(w1, t, k1) && Lacks(w2, t, k2) && Lacks(w3, t, k3) && Lacks(w4, t, k4)
    requires Lacks(w5, t, k5) && Lacks(w6, t, k6) && Lacks(w7, t, k7) && Lacks(w8, t, k8)
    ensures !Text.Contains(Text.Upper(w1 + (w2 + (w3 + (w4 + (w5 + (w6 + (w7 + w8))))))), t)
  {
    Text.TokenAbsent(w1, t, k1, (t[k1] as int + 32) as char);
    Text.TokenAbsent(w2, t, k2, (t[k2] as int + 32) as char);
    Text.TokenAbsent(w3, t, k3, (t[k3] as int + 32) as char);
    Text.TokenAbsent(w4, t, k4, (t[k4] as int + 32) as char);
    Text.TokenAbsent(w5, t, k5, (t[k5] as int + 32) as char);
    Text.TokenAbsent(w6, t, k6, (t[k6] as int + 32) as char);
    Text.TokenAbsent(w7, t, k7, (t[k7] as int + 32) as char);
    Text.TokenAbsent(w8, t, k8, (t[k8] as int + 32) as char);
    Text.AbsentAcross(w7, w8, t);
    Text.AbsentAcross(w6, w7 + w8, t);
    Text.AbsentAcross(w5, w6 + (w7 + w8), t);
    Text.AbsentAcross(w4, w5 + (w6 + (w7 + w8)), t);
    Text.AbsentAcross(w3, w4 + (w5 + (w6 + (w7 + w8))), t);
    Text.AbsentAcross(w2, w3 + (w4 + (w5 + (w6 + (w7 + w8)))), t);
    Text.AbsentAcross(w1, w2 + (w3 + (w4 + (w5 + (w6 + (w7 + w8))))), t);
  }

  /** Without a client the trade analysis recommends HOLD, from model "none", at confidence 0.7. */
  lemma NoClientMeansHold(mode: string, emergentReply: Outcome, openaiReply: Outcome)
    ensures var a := AnalyzeTradeOpportunity(Some(ChatCompletion(Clients(false, false), mode, emergentReply, openaiReply)));
      a == Analysis("HOLD", Reply(NoClientContent), "none", 0.7)
  {
    NoClientContentNamesNoSide();
  }

  // ---- health_check ----

  datatype Status = Healthy | Degraded | Unhealthy

  /** The health report; `clients` is None on the handler's path, which reports no availability. */
  datatype Health = Health(status: Status, clients: Option<Clients>)

  /** `not result.get('error')`: no error key, or an empty error text. */
  predicate NoError(error: Option<string>) {
    error.None? || error.value == ""
  }

  /**
   * `health_check`, given what `chat_completion(..., mode='fast')` returned. `"OK" in content`
   * runs first; on a null content it raises TypeError and the handler reports "unhealthy".
   */
  function HealthCheck(clients: Clients, result: Completion): (h: Health)
    ensures h.status == Healthy <==>
      result.content.Some? && (Text.Contains(result.content.value, "OK") || NoError(result.error))
    ensures h.status == Degraded <==>
      result.content.Some? && !Text.Contains(result.content.value, "OK") && !NoError(result.error)
    ensures h.status == Unhealthy <==> result.content.None?
    ensures h.clients == if result.content.Some? then Some(clients) else None
  {
    match result.content
    case None => Health(Unhealthy, None)
    case Some(text) =>
      Health(if Text.Contains(text, "OK") || NoError(result.error) then Healthy else Degraded, Some(clients))
  }

  /** Any text answer is healthy: a client answer carries no error. */
  lemma AnsweredIsHealthy(clients: Clients, emergentReply: Outcome, openaiReply: Outcome)
    requires var r := ChatCompletion(clients, "fast", emergentReply, openaiReply);
      r.source in {"emergent", "openai"} && r.content.Some?
    ensures HealthCheck(clients, ChatCompletion(clients, "fast", emergentReply, openaiReply)).status == Healthy
  {
  }

  /** Without a client the status is "degraded": the unavailable text has no "OK" and the error is set. */
  lemma NoClientIsDegraded(emergentReply: Outcome, openaiReply: Outcome)
    ensures HealthCheck(Clients(false, false), ChatCompletion(Clients(false, false), "fast", emergentReply, openaiReply)).status == Degraded
  {
    assert 'O' !in NoClientContent;
    Text.ContainsChars(NoClientContent, "OK", 0);
  }

  /** An OpenAI failure whose message is empty counts as healthy, since the empty error is falsy. */
  lemma EmptyErrorCountsAsHealthy(emergentReply: Outcome)
    ensures HealthCheck(Clients(false, true), ChatCompletion(Clients(false, true), "fast", emergentReply, Raised(""))).status == Healthy
  {
  }
}
