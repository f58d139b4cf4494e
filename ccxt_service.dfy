/**
 * The exchange service's paper-trading side (backend/ccxt_service.py): the table of simulated
 * balances, kept per user and currency and changed in place, and the paper branch of
 * `create_market_order`. The ticker, the exchange's own order and the clock are inputs.
 */
module Exchange {
  import opened Wrappers
  import Json

  /** user id -> currency -> balance. */
  type Balances = map<string, map<string, real>>

  /** `paper_balances.get(user_id, {})`. */
  function Wallet(balances: Balances, userId: string): map<string, real> {
    if userId in balances then balances[userId] else map[]
  }

  /** `get_paper_balance(user_id, currency)`, on the table's value. */
  function BalanceIn(balances: Balances, userId: string, currency: string): real {
    var wallet := Wallet(balances, userId);
    if currency in wallet then wallet[currency] else 0.0
  }

  /** The table after `init_paper_balance(user_id, currency, amount)`. */
  function Initialized(balances: Balances, userId: string, currency: string, amount: real): (r: Balances)
    ensures r.Keys == balances.Keys + {userId}
  {
    balances[userId := Wallet(balances, userId)[currency := amount]]
  }

  /** The table after `update_paper_balance(user_id, currency, amount)`. */
  function Updated(balances: Balances, userId: string, currency: string, amount: real): (r: Balances)
    ensures r.Keys == balances.Keys + {userId}
  {
    balances[userId := Wallet(balances, userId)[currency := BalanceIn(balances, userId, currency) + amount]]
  }

  /** An unknown user, or a currency the user has no entry for, reads as 0.0. */
  lemma UnknownReadsZero(balances: Balances, userId: string, currency: string)
    requires userId !in balances || currency !in balances[userId]
    ensures BalanceIn(balances, userId, currency) == 0.0
  {
  }

  /** After initialising an entry, reading it gives the amount. */
  lemma InitThenRead(balances: Balances, userId: string, currency: string, amount: real)
    ensures BalanceIn(Initialized(balances, userId, currency, amount), userId, currency) == amount
  {
  }

  /** After an update, the entry reads as its old value (0.0 when absent) plus the amount. */
  lemma UpdateThenRead(balances: Balances, userId: string, currency: string, amount: real)
    ensures BalanceIn(Updated(balances, userId, currency, amount), userId, currency) == BalanceIn(balances, userId, currency) + amount
  {
  }

  /** Initialising or updating one entry leaves every other entry of the table as it was. */
  lemma OtherEntriesUnchanged(balances: Balances, userId: string, currency: string, amount: real, u: string, c: string)
    requires u != userId || c != currency
    ensures BalanceIn(Initialized(balances, userId, currency, amount), u, c) == BalanceIn(balances, u, c)
    ensures BalanceIn(Updated(balances, userId, currency, amount), u, c) == BalanceIn(balances, u, c)
    ensures u != userId && u in balances ==>
      Initialized(balances, userId, currency, amount)[u] == balances[u] && Updated(balances, userId, currency, amount)[u] == balances[u]
  {
  }

  /** Two updates of one entry are one update by their sum. */
  lemma UpdatesCompose(balances: Balances, userId: string, currency: string, d1: real, d2: real)
    ensures Updated(Updated(balances, userId, currency, d1), userId, currency, d2) == Updated(balances, userId, currency, d1 + d2)
  {
    var w := Wallet(balances, userId);
    var b := BalanceIn(balances, userId, currency);
    var once := Updated(balances, userId, currency, d1);
    assert Wallet(once, userId) == w[currency := b + d1];
    assert BalanceIn(once, userId, currency) == b + d1;
    assert w[currency := b + d1][currency := b + d1 + d2] == w[currency := b + (d1 + d2)];
    assert balances[userId := w[currency := b + d1]][userId := w[currency := b + (d1 + d2)]]
        == balances[userId := w[currency := b + (d1 + d2)]];
  }

  /** Initialising sets the entry whatever it held: an update after it starts from the amount. */
  lemma InitThenUpdate(balances: Balances, userId: string, currency: string, amount: real, d: real)
    ensures Updated(Initialized(balances, userId, currency, amount), userId, currency, d) ==
            Initialized(balances, userId, currency, amount + d)
  {
    var w := Wallet(balances, userId);
    var init := Initialized(balances, userId, currency, amount);
    assert Wallet(init, userId) == w[currency := amount];
    assert BalanceIn(init, userId, currency) == amount;
    assert w[currency := amount][currency := amount + d] == w[currency := amount + d];
    assert balances[userId := w[currency := amount]][userId := w[currency := amount + d]]
        == balances[userId := w[currency := amount + d]];
  }

  class CcxtService {
    /** `paper_balances`. */
    var paperBalances: Balances

    constructor()
      ensures paperBalances == map[]
    {
      paperBalances := map[];
    }

    /** `get_paper_balance(user_id, currency)`. */
    function GetPaperBalance(userId: string, currency: string): (r: real)
      reads this
      ensures userId !in paperBalances || currency !in paperBalances[userId] ==> r == 0.0
      ensures userId in paperBalances && currency in paperBalances[userId] ==> r == paperBalances[userId][currency]
    {
      BalanceIn(paperBalances, userId, currency)
    }

    /** `init_paper_balance(user_id, currency, amount)`: the user's wallet is created when missing. */
    method InitPaperBalance(userId: string, currency: string, amount: real)
      modifies this
      ensures paperBalances == Initialized(old(paperBalances), userId, currency, amount)
      ensures GetPaperBalance(userId, currency) == amount
    {
      if userId !in paperBalances {
        paperBalances := paperBalances[userId := map[]];
      }
      paperBalances := paperBalances[userId := paperBalances[userId][currency := amount]];
    }

    /** `update_paper_balance(user_id, currency, amount)`: adds the amount to the entry, which starts at 0.0. */
    method UpdatePaperBalance(userId: string, currency: string, amount: real)
      modifies this
      ensures paperBalances == Updated(old(paperBalances), userId, currency, amount)
      ensures GetPaperBalance(userId, currency) == old(GetPaperBalance(userId, currency)) + amount
    {
      if userId !in paperBalances {
        paperBalances := paperBalances[userId := map[]];
      }
      var current := if currency in paperBalances[userId] then paperBalances[userId][currency] else 0.0;
      paperBalances := paperBalances[userId := paperBalances[userId][currency := current + amount]];
    }
  }

  // ---- create_market_order ----

  /** `amount * price` for the ticker's 'last' value: numbers (and booleans, as 1 and 0) multiply; anything else raises. */
  function PriceFactor(v: Json.Value): (r: Option<real>)
    ensures v.Num? ==> r == Some(v.n)
    ensures v.Bool? ==> r == Some(if v.b then 1.0 else 0.0)
    ensures v.Null? || v.Str? || v.Array? || v.Object? ==> r.None?
  {
    match v
    case Num(n) => Some(n)
    case Bool(b) => Some(if b then 1.0 else 0.0)
    case _ => None
  }

  /** The simulated fill; `stamp` is the clock reading, which names the order and timestamps it. */
  datatype PaperOrder = PaperOrder(stamp: real, symbol: string, side: string, amount: real, price: Json.Value,
                                   cost: real, status: string, paper: bool)

  datatype OrderResult = Paper(order: PaperOrder) | Live(doc: Json.Doc) | Raised

  /**
   * `create_market_order(exchange, symbol, side, amount, paper_trading)`. A paper order is filled at
   * the ticker's last price (0 when the ticker lacks one, as it does when fetching it failed), costs
   * amount times that price and is closed at once; a live order is whatever the exchange returns,
   * and its failure is raised again.
   */
  function CreateMarketOrder(ticker: Json.Doc, symbol: string, side: string, amount: real, paperTrading: bool,
                             live: Call<Json.Doc>, now: real): (r: OrderResult)
    ensures paperTrading ==> r.Live? == false
    ensures paperTrading && r.Paper? ==>
      var price := Json.Get(ticker, "last", Json.Num(0.0));
      && PriceFactor(price).Some? && r.order.price == price && r.order.cost == amount * PriceFactor(price).value
      && r.order.status == "closed" && r.order.paper
      && r.order.symbol == symbol && r.order.side == side && r.order.amount == amount
    ensures paperTrading ==> (r.Raised? <==> PriceFactor(Json.Get(ticker, "last", Json.Num(0.0))).None?)
    ensures !paperTrading ==> (r.Live? <==> live.Returned?) && (r.Live? ==> r.doc == live.value)
    ensures !paperTrading ==> !r.Paper?
  {
    if paperTrading then
      var price := Json.Get(ticker, "last", Json.Num(0.0));
      match PriceFactor(price)
      case None => Raised
      case Some(p) => Paper(PaperOrder(now, symbol, side, amount, price, amount * p, "closed", true))
    else
      match live
      case Returned(doc) => Live(doc)
      case Failed => Raised
  }

  /** A ticker without a last price (a failed fetch gives an empty one) fills the paper order at 0, for nothing. */
  lemma EmptyTickerCostsNothing(symbol: string, side: string, amount: real, live: Call<Json.Doc>, now: real)
    ensures CreateMarketOrder(map[], symbol, side, amount, true, live, now) ==
      Paper(PaperOrder(now, symbol, side, amount, Json.Num(0.0), 0.0, "closed", true))
  {
  }
}
