/**
 The deterministic risk gate (src/trading_strands/risk/manager.py).

 `Decide` follows the program's checks in order; the lemmas say what an approval guarantees, for the
 moment of the decision and for the ledger after the fill.
 */
module Risk {
  import opened Prelude
  import opened LedgerModel

  datatype IntentAction = ActBuy | ActSell | ActClose | ActHold | ActNoop

  datatype TradeIntent = TradeIntent(
    botId: string, orgId: string, symbol: string, action: IntentAction, quantity: real)

  datatype RiskConfig = RiskConfig(
    maxPositionPct: real, maxTotalExposurePct: real, maxDrawdownPct: real, dailyLossCapPct: real)

  datatype RiskState = RiskState(haltedBots: set<string>, deskHalted: bool, dailyLoss: real)

  datatype Reason = DeskHalted | BotHalted | Drawdown | DailyLoss | PositionSize | TotalExposure

  datatype Decision = Approved | Rejected(reason: Reason)

  type Prices = map<string, real>

  /** A position at its market price, or at cost where it has none. */
  function ValueAt(prices: Prices): Holding -> real {
    (h: Holding) => h.quantity * (if h.symbol in prices then prices[h.symbol] else h.costBasis)
  }

  function Exposure(ps: seq<Holding>, prices: Prices): real { Total(ValueAt(prices), ps) }

  /** The exposure the order would lead to, as the gate sees it: an unpriced order adds nothing. */
  function ProjectedExposure(intent: TradeIntent, b: Books, prices: Prices): real {
    if intent.symbol in prices then Exposure(b.positions, prices) + intent.quantity * prices[intent.symbol]
    else Exposure(b.positions, prices)
  }

  function DecideBuy(cfg: RiskConfig, risk: RiskState, intent: TradeIntent, b: Books, prices: Prices): Decision {
    var equity := b.Equity();
    if b.DrawdownPct() > cfg.maxDrawdownPct then Rejected(Drawdown)
    else if equity > 0.0 && risk.dailyLoss / equity > cfg.dailyLossCapPct then Rejected(DailyLoss)
    else if intent.symbol in prices
            && (if equity > 0.0 then intent.quantity * prices[intent.symbol] / equity else 1.0) > cfg.maxPositionPct
    then Rejected(PositionSize)
    else if equity > 0.0 && ProjectedExposure(intent, b, prices) / equity > cfg.maxTotalExposurePct
    then Rejected(TotalExposure)
    else Approved
  }

  predicate Stopped(risk: RiskState, botId: string) {
    risk.deskHalted || botId in risk.haltedBots
  }

  function Decide(cfg: RiskConfig, risk: RiskState, intent: TradeIntent, b: Books, prices: Prices): Decision {
    if intent.action.ActHold? || intent.action.ActNoop? then Approved
    else if risk.deskHalted then Rejected(DeskHalted)
    else if intent.botId in risk.haltedBots then Rejected(BotHalted)
    else if intent.action.ActSell? || intent.action.ActClose? then Approved
    else DecideBuy(cfg, risk, intent, b, prices)
  }

  class RiskManager {
    const config: RiskConfig
    var haltedBots: set<string>
    var deskHalted: bool
    var dailyLoss: real

    constructor (config: RiskConfig)
      ensures this.config == config && View() == RiskState({}, false, 0.0)
    {
      this.config := config;
      haltedBots, deskHalted, dailyLoss := {}, false, 0.0;
    }

    function View(): RiskState
      reads this
    {
      RiskState(haltedBots, deskHalted, dailyLoss)
    }

    method HaltBot(botId: string)
      modifies this
      ensures View() == old(View()).(haltedBots := old(haltedBots) + {botId})
    {
      haltedBots := haltedBots + {botId};
    }

    method UnhaltBot(botId: string)
      modifies this
      ensures View() == old(View()).(haltedBots := old(haltedBots) - {botId})
    {
      haltedBots := haltedBots - {botId};
    }

    method HaltDesk()
      modifies this
      ensures View() == old(View()).(deskHalted := true)
    {
      deskHalted := true;
    }

    method UnhaltDesk()
      modifies this
      ensures View() == old(View()).(deskHalted := false)
    {
      deskHalted := false;
    }

    method RecordDailyLoss(amount: real)
      modifies this
      ensures View() == old(View()).(dailyLoss := old(dailyLoss) + amount)
    {
      dailyLoss := dailyLoss + amount;
    }

    method ResetDailyLoss()
      modifies this
      ensures View() == old(View()).(dailyLoss := 0.0)
    {
      dailyLoss := 0.0;
    }

    function Evaluate(intent: TradeIntent, b: Books, prices: Prices): Decision
      reads this
    {
      Decide(config, View(), intent, b, prices)
    }
  }

  // ---------- What an approval means ----------

  /** The drawdown check, multiplied out.  With a positive mark the equity must be above its floor; a zero
      mark passes any non-negative limit; under a negative mark the test is turned round. */
  predicate DrawdownAllows(b: Books, limit: real) {
    if b.highWaterMark == 0.0 then 0.0 <= limit
    else if b.highWaterMark > 0.0 then b.Equity() >= (1.0 - limit) * b.highWaterMark
    else b.Equity() <= (1.0 - limit) * b.highWaterMark
  }

  lemma DrawdownCheckMeans(b: Books, limit: real)
    ensures b.DrawdownPct() > limit <==> !DrawdownAllows(b, limit)
  {
    var mark, gap := b.highWaterMark, b.DrawdownFromHwm();
    Distribute(mark, 1.0, -limit);
    if mark > 0.0 {
      RatioExceeds(gap, mark, limit);
    } else if mark < 0.0 {
      RatioExceeds(-gap, -mark, limit);
      assert gap / mark == (-gap) / (-mark);
    }
  }

  /** An approved buy, in full: what the four limits amount to. */
  lemma ApprovedBuyMeans(cfg: RiskConfig, risk: RiskState, intent: TradeIntent, b: Books, prices: Prices)
    requires intent.action.ActBuy?
    ensures Decide(cfg, risk, intent, b, prices).Approved? <==>
            var equity := b.Equity();
            && !Stopped(risk, intent.botId)
            && DrawdownAllows(b, cfg.maxDrawdownPct)
            && (equity > 0.0 ==>
                  && risk.dailyLoss <= cfg.dailyLossCapPct * equity
                  && (intent.symbol in prices ==>
                        intent.quantity * prices[intent.symbol] <= cfg.maxPositionPct * equity)
                  && ProjectedExposure(intent, b, prices) <= cfg.maxTotalExposurePct * equity)
            && (equity <= 0.0 && intent.symbol in prices ==> 1.0 <= cfg.maxPositionPct)
  {
    hide Exposure, ProjectedExposure, DrawdownAllows, Books.DrawdownPct;
    DrawdownCheckMeans(b, cfg.maxDrawdownPct);
    var equity := b.Equity();
    if equity > 0.0 {
      RatioExceeds(risk.dailyLoss, equity, cfg.dailyLossCapPct);
      RatioExceeds(ProjectedExposure(intent, b, prices), equity, cfg.maxTotalExposurePct);
      if intent.symbol in prices {
        RatioExceeds(intent.quantity * prices[intent.symbol], equity, cfg.maxPositionPct);
      }
    }
  }

  /** A refused buy, in full: the reason given is the first of the checks to fail, in the order halts,
      drawdown, daily loss, size of the order, total exposure. */
  lemma RefusalNamesFirstFailure(cfg: RiskConfig, risk: RiskState, intent: TradeIntent, b: Books, prices: Prices)
    requires intent.action.ActBuy?
    ensures var equity := b.Equity();
            var cost := if intent.symbol in prices then intent.quantity * prices[intent.symbol] else 0.0;
            Decide(cfg, risk, intent, b, prices)
            == if risk.deskHalted then Rejected(DeskHalted)
               else if intent.botId in risk.haltedBots then Rejected(BotHalted)
               else if !DrawdownAllows(b, cfg.maxDrawdownPct) then Rejected(Drawdown)
               else if equity > 0.0 && risk.dailyLoss > cfg.dailyLossCapPct * equity then Rejected(DailyLoss)
               else if intent.symbol in prices
                       && (if equity > 0.0 then cost > cfg.maxPositionPct * equity else 1.0 > cfg.maxPositionPct)
               then Rejected(PositionSize)
               else if equity > 0.0 && Exposure(b.positions, prices) + cost > cfg.maxTotalExposurePct * equity
               then Rejected(TotalExposure)
               else Approved
  {
    hide Exposure, DrawdownAllows, Books.DrawdownPct;
    DrawdownCheckMeans(b, cfg.maxDrawdownPct);
    var equity := b.Equity();
    if equity > 0.0 {
      RatioExceeds(risk.dailyLoss, equity, cfg.dailyLossCapPct);
      RatioExceeds(ProjectedExposure(intent, b, prices), equity, cfg.maxTotalExposurePct);
      if intent.symbol in prices {
        RatioExceeds(intent.quantity * prices[intent.symbol], equity, cfg.maxPositionPct);
      }
    }
  }

  /** Sells and closes pass whatever the limits say; only a halt stops them. */
  lemma SellsStoppedOnlyByHalt(cfg: RiskConfig, risk: RiskState, intent: TradeIntent, b: Books, prices: Prices)
    requires intent.action.ActSell? || intent.action.ActClose?
    ensures Decide(cfg, risk, intent, b, prices).Approved? <==> !Stopped(risk, intent.botId)
  {
  }

  /** No buy at zero or negative equity, for a ledger that started positive and a limit under 100%. */
  lemma NoBuyWithoutEquity(cfg: RiskConfig, risk: RiskState, intent: TradeIntent, b: Books, prices: Prices)
    requires intent.action.ActBuy? && b.highWaterMark > 0.0 && cfg.maxDrawdownPct < 1.0 && b.Equity() <= 0.0
    ensures Decide(cfg, risk, intent, b, prices).Rejected?
  {
    ApprovedBuyMeans(cfg, risk, intent, b, prices);
    var slack, mark := 1.0 - cfg.maxDrawdownPct, b.highWaterMark;
    assert slack * mark > 0.0;
    assert !DrawdownAllows(b, cfg.maxDrawdownPct);
  }

  // ---------- Exposure after the fill ----------

  /** Buying adds the quantity at the market price, or the whole burdened cost where there is no price. */
  lemma {:induction false} BuyAddsExposure(b: Books, f: Fill, prices: Prices)
    requires f.side.Buy? && Settle(b, f).1.Recorded?
    ensures Exposure(Settle(b, f).0.positions, prices)
            == Exposure(b.positions, prices)
               + (if f.symbol in prices then f.quantity * prices[f.symbol] else f.BurdenedTotal())
    ensures Settle(b, f).0.Equity() == b.Equity()
  {
    hide AverageIn, Total;
    var i, value, after := FirstIn(b.positions, f.symbol), ValueAt(prices), Settle(b, f).0.positions;
    if i == |b.positions| {
      DivideBack(f.BurdenedTotal(), f.quantity);
      TotalConcat(value, b.positions, [after[i]]);
      TotalSingle(value, after[i]);
      assert after == b.positions + [after[i]];
    } else {
      AverageKeepsCost(b.positions[i], f);
      TotalUpdate(value, b.positions, i, after[i]);
      if f.symbol in prices {
        Distribute(prices[f.symbol], b.positions[i].quantity, f.quantity);
      }
    }
  }

  /** The fills an order may lead to: some positive part of it, at any price and fees. */
  ghost predicate FillsPartOf(f: Fill, intent: TradeIntent) {
    f.side.Buy? && f.symbol == intent.symbol && 0.0 < f.quantity <= intent.quantity
  }

  /** Exposure bound after the fill: an approved buy of a symbol quoted at a non-negative price leaves the
      exposure within the limit, whatever part of the order is filled. */
  lemma {:induction false} ExposureBoundSurvivesFill(
    cfg: RiskConfig, risk: RiskState, intent: TradeIntent, b: Books, prices: Prices, f: Fill)
    requires intent.action.ActBuy? && Decide(cfg, risk, intent, b, prices).Approved?
    requires b.Equity() > 0.0 && FillsPartOf(f, intent)
    requires intent.symbol in prices
    requires prices[intent.symbol] >= 0.0 || Exposure(b.positions, prices) <= cfg.maxTotalExposurePct * b.Equity()
    ensures var c := Settle(b, f).0; Exposure(c.positions, prices) <= cfg.maxTotalExposurePct * c.Equity()
  {
    hide Exposure, Decide, Settle, DrawdownAllows;
    ApprovedBuyMeans(cfg, risk, intent, b, prices);
    var price := prices[intent.symbol];
    if price >= 0.0 {
      MultiplyMonotone(price, f.quantity, intent.quantity);
      MultiplyMonotone(price, 0.0, f.quantity);
    } else {
      MultiplyMonotone(-price, 0.0, f.quantity);
    }
    if Settle(b, f).1.Recorded? {
      BuyAddsExposure(b, f, prices);
    } else {
      RejectedFillIsInert(b, f);
      if price >= 0.0 {
        MultiplyMonotone(price, 0.0, intent.quantity);
      }
    }
  }

  /** Exactly when the bound is safe against every fill: the symbol must be quoted, at a non-negative price
      unless the exposure was within the limit already.  An unquoted buy is approved on the exposure
      before it, and its fill can then exceed any limit. */
  lemma {:induction false} ExposureBoundIff(
    cfg: RiskConfig, risk: RiskState, intent: TradeIntent, b: Books, prices: Prices)
    requires intent.action.ActBuy? && Decide(cfg, risk, intent, b, prices).Approved?
    requires b.Equity() > 0.0 && intent.quantity > 0.0 && WellFormed(b.positions)
    ensures (forall f :: FillsPartOf(f, intent) ==>
               Exposure(Settle(b, f).0.positions, prices) <= cfg.maxTotalExposurePct * Settle(b, f).0.Equity())
            <==> intent.symbol in prices
                 && (prices[intent.symbol] >= 0.0
                     || Exposure(b.positions, prices) <= cfg.maxTotalExposurePct * b.Equity())
  {
    hide Exposure;
    var limit, now := cfg.maxTotalExposurePct * b.Equity(), Exposure(b.positions, prices);
    if intent.symbol in prices && (prices[intent.symbol] >= 0.0 || now <= limit) {
      forall f | FillsPartOf(f, intent)
        ensures Exposure(Settle(b, f).0.positions, prices) <= cfg.maxTotalExposurePct * Settle(b, f).0.Equity()
      {
        ExposureBoundSurvivesFill(cfg, risk, intent, b, prices, f);
      }
    } else {
      var f := WorstFill(intent, prices, now, limit);
      SellsNeedShares(b, f);
      BuyAddsExposure(b, f, prices);
    }
  }

  /** A fill that takes the exposure over the limit. */
  lemma WorstFill(intent: TradeIntent, prices: Prices, now: real, limit: real) returns (f: Fill)
    requires intent.quantity > 0.0
    requires intent.symbol in prices ==> prices[intent.symbol] < 0.0 && now > limit
    ensures FillsPartOf(f, intent)
    ensures now + (if f.symbol in prices then f.quantity * prices[f.symbol] else f.BurdenedTotal()) > limit
  {
    if intent.symbol !in prices {
      var price := (limit - now + 1.0) / intent.quantity;
      DivideBack(limit - now + 1.0, intent.quantity);
      f := Fill(intent.symbol, Buy, intent.quantity, price, NO_FEES);
    } else {
      var drop := -prices[intent.symbol];
      var half := (now - limit) / 2.0;
      var q := half / drop;
      DivideBack(half, drop);
      assert q > 0.0;
      f := Fill(intent.symbol, Buy, Min(q, intent.quantity), 1.0, NO_FEES);
      MultiplyMonotone(drop, f.quantity, q);
    }
  }

  function ValueIn(sym: string, prices: Prices): Holding -> real {
    (h: Holding) => if h.symbol == sym then ValueAt(prices)(h) else 0.0
  }

  /** What is held of one symbol, at its market price or at cost. */
  function PositionValue(ps: seq<Holding>, prices: Prices, sym: string): real { Total(ValueIn(sym, prices), ps) }

  lemma {:induction false} QuotedPositionValue(ps: seq<Holding>, prices: Prices, sym: string)
    requires sym in prices
    ensures PositionValue(ps, prices, sym) == Held(ps, sym) * prices[sym]
  {
    if |ps| > 0 {
      var n := |ps| - 1;
      QuotedPositionValue(ps[..n], prices, sym);
      var price, held, q := prices[sym], Held(ps[..n], sym), QuantityIn(sym)(ps[n]);
      Distribute(price, held, q);
      if ps[n].symbol == sym {
        assert ValueIn(sym, prices)(ps[n]) == ValueAt(prices)(ps[n]);
        assert prices[ps[n].symbol] == price;
      } else {
        assert ValueIn(sym, prices)(ps[n]) == 0.0 == price * q;
      }
      assert Held(ps, sym) == held + q;
    }
  }

  lemma {:induction false} BuyAddsPositionValue(b: Books, f: Fill, prices: Prices)
    requires f.side.Buy? && Settle(b, f).1.Recorded?
    ensures PositionValue(Settle(b, f).0.positions, prices, f.symbol)
            == PositionValue(b.positions, prices, f.symbol)
               + (if f.symbol in prices then f.quantity * prices[f.symbol] else f.BurdenedTotal())
  {
    hide AverageIn, Total;
    var i, value, after := FirstIn(b.positions, f.symbol), ValueIn(f.symbol, prices), Settle(b, f).0.positions;
    if i == |b.positions| {
      DivideBack(f.BurdenedTotal(), f.quantity);
      TotalConcat(value, b.positions, [after[i]]);
      TotalSingle(value, after[i]);
      assert after == b.positions + [after[i]];
      assert value(after[i]) == ValueAt(prices)(after[i]);
    } else {
      AverageKeepsCost(b.positions[i], f);
      TotalUpdate(value, b.positions, i, after[i]);
      assert value(after[i]) == ValueAt(prices)(after[i]);
      if f.symbol in prices {
        Distribute(prices[f.symbol], b.positions[i].quantity, f.quantity);
      }
    }
  }

  /** What the position must be worth for an order not to take it over its limit: with the whole order in
      it, or as it is where a negative quote lets every share lower it. */
  predicate PositionHasRoom(cfg: RiskConfig, intent: TradeIntent, b: Books, prices: Prices) {
    && intent.symbol in prices
    && PositionValue(b.positions, prices, intent.symbol)
       + (if prices[intent.symbol] >= 0.0 then intent.quantity * prices[intent.symbol] else 0.0)
       <= cfg.maxPositionPct * b.Equity()
  }

  lemma {:induction false} FillKeepsRoom(
    cfg: RiskConfig, intent: TradeIntent, b: Books, prices: Prices, f: Fill)
    requires PositionHasRoom(cfg, intent, b, prices) && FillsPartOf(f, intent) && WellFormed(b.positions)
    ensures PositionValue(Settle(b, f).0.positions, prices, intent.symbol)
            <= cfg.maxPositionPct * Settle(b, f).0.Equity()
  {
    hide PositionValue, Settle;
    var price := prices[intent.symbol];
    SellsNeedShares(b, f);
    BuyAddsPositionValue(b, f, prices);
    BuyAddsExposure(b, f, prices);
    if price >= 0.0 {
      MultiplyMonotone(price, f.quantity, intent.quantity);
      assert f.quantity * price <= intent.quantity * price;
    } else {
      MultiplyMonotone(-price, 0.0, f.quantity);
      assert f.quantity * price <= 0.0;
    }
  }

  /** Exactly when the accumulated position stays within the position limit, whatever part of the order is
      filled: the gate looks at the order alone, so an approval does not imply it, and for an unquoted
      symbol nothing does. */
  lemma {:induction false} PositionBoundIff(
    cfg: RiskConfig, risk: RiskState, intent: TradeIntent, b: Books, prices: Prices)
    requires intent.action.ActBuy? && Decide(cfg, risk, intent, b, prices).Approved?
    requires b.Equity() > 0.0 && intent.quantity > 0.0 && WellFormed(b.positions)
    ensures (forall f :: FillsPartOf(f, intent) ==>
               PositionValue(Settle(b, f).0.positions, prices, intent.symbol)
               <= cfg.maxPositionPct * Settle(b, f).0.Equity())
            <==> PositionHasRoom(cfg, intent, b, prices)
  {
    hide Decide, PositionValue, Settle;
    var limit, now := cfg.maxPositionPct * b.Equity(), PositionValue(b.positions, prices, intent.symbol);
    if PositionHasRoom(cfg, intent, b, prices) {
      forall f | FillsPartOf(f, intent)
        ensures PositionValue(Settle(b, f).0.positions, prices, intent.symbol)
             <= cfg.maxPositionPct * Settle(b, f).0.Equity()
      {
        FillKeepsRoom(cfg, intent, b, prices, f);
      }
    } else {
      var f := Fill(intent.symbol, Buy, intent.quantity, 1.0, NO_FEES);
      if intent.symbol !in prices || prices[intent.symbol] < 0.0 {
        f := WorstFill(intent, prices, now, limit);
      }
      SellsNeedShares(b, f);
      BuyAddsPositionValue(b, f, prices);
      BuyAddsExposure(b, f, prices);
      assert FillsPartOf(f, intent);
    }
  }

  /** So of two approved orders that each fill the limit, the second one passes the check although the
      position then holds twice the limit. */
  lemma PositionLimitIsPerOrder()
    ensures var cfg := RiskConfig(0.2, 0.8, 0.15, 0.05);
            var intent := TradeIntent("bot", "org", "A", ActBuy, 20.0);
            var prices: Prices := map["A" := 1.0];
            var held := Settle(FreshBooks(100.0), Fill("A", Buy, 20.0, 1.0, NO_FEES)).0;
            var twice := Settle(held, Fill("A", Buy, 20.0, 1.0, NO_FEES)).0;
            && Decide(cfg, RiskState({}, false, 0.0), intent, FreshBooks(100.0), prices).Approved?
            && Decide(cfg, RiskState({}, false, 0.0), intent, held, prices).Approved?
            && Exposure(twice.positions, prices) == 2.0 * (cfg.maxPositionPct * twice.Equity())
  {
    hide Exposure, Decide, Settle, WellFormed;
    var cfg := RiskConfig(0.2, 0.8, 0.15, 0.05);
    var risk := RiskState({}, false, 0.0);
    var intent := TradeIntent("bot", "org", "A", ActBuy, 20.0);
    var prices: Prices := map["A" := 1.0];
    var f := Fill("A", Buy, 20.0, 1.0, NO_FEES);
    var none := FreshBooks(100.0);
    EmptyLedger(none, prices);
    SellsNeedShares(none, f);
    BuyAddsExposure(none, f, prices);
    SettleMark(none, f);
    FillKeepsWellFormed(none, f);
    var held := Settle(none, f).0;
    SellsNeedShares(held, f);
    BuyAddsExposure(held, f, prices);
    ApprovedBuyMeans(cfg, risk, intent, none, prices);
    ApprovedBuyMeans(cfg, risk, intent, held, prices);
  }

  lemma EmptyLedger(b: Books, prices: Prices)
    requires b.positions == []
    ensures WellFormed(b.positions) && Exposure(b.positions, prices) == 0.0
  {
  }
}
