/**
 Whole runs of the trade pipeline: what holds after any sequence of `execute` calls, whatever the bots
 intend, the outside world answers, and whichever account each call is routed to.
 */
module DeskRuns {
  import opened Prelude
  import opened LedgerModel
  import opened LedgerPersistence
  import opened HaltControl
  import opened Risk
  import opened Coordination
  import opened Auditor

  datatype Call = Call(intent: TradeIntent, world: World)

  function RunDesk(d: Desk, calls: seq<Call>): Desk {
    if |calls| == 0 then d
    else
      var c := calls[|calls| - 1];
      AfterIntent(RunDesk(d, calls[..|calls| - 1]), c.intent, c.world).0
  }

  function OutcomeOf(d: Desk, c: Call): Outcome { AfterIntent(d, c.intent, c.world).1 }

  /** The call sends an order to the broker. */
  predicate Submits(d: Desk, c: Call) {
    var o := OutcomeOf(d, c);
    o.SubmitFailed? || o.Executed? || o.LedgerRaised? || o.PersistenceFailed?
  }

  /** The fill the broker reports during the call, if any. */
  function Reported(d: Desk, c: Call): Option<Fill> {
    if Submits(d, c) && c.world.reply.Reports? && c.world.reply.result.filledQuantity > 0.0
    then Some(FillFor(c.intent, c.world.reply.result)) else None
  }

  function BooksOf(d: Desk, botId: string): Books
    requires botId in d.ledgers
  {
    d.ledgers[botId].books
  }

  // ---------- One call ----------

  /** A call never touches the limits, the halts or another bot's ledger. */
  lemma CallIsLocal(d: Desk, c: Call)
    ensures var e := AfterIntent(d, c.intent, c.world).0;
            && e.cfg == d.cfg && e.risk == d.risk && e.halts == d.halts
            && e.ledgers.Keys == d.ledgers.Keys && e.accounts.Keys == d.accounts.Keys
            && (forall b :: b in d.ledgers && b != c.intent.botId ==> e.ledgers[b] == d.ledgers[b])
  {
    hide Decide, AfterFill, AfterSubmit, PricesFor, EffectiveHalted;
  }

  /** What a call does to its own ledger, histories included: it records the reported fill, and only that. */
  lemma CallSettlesReport(d: Desk, c: Call)
    requires c.intent.botId in d.ledgers
    ensures var (e, o) := AfterIntent(d, c.intent, c.world);
            var l, b, f := d.ledgers[c.intent.botId], BooksOf(d, c.intent.botId), Reported(d, c);
            && e.ledgers[c.intent.botId] == (if f.Some? then AfterFill(l, f.value).0 else l)
            && BooksOf(e, c.intent.botId) == (if f.Some? then Settle(b, f.value).0 else b)
            && (o.LedgerRaised? <==> f.Some? && !Settle(b, f.value).1.Recorded?)
            && (f.Some? ==> f.value.quantity > 0.0 && f.value.symbol == c.intent.symbol
                            && f.value.side == IntentToSide(c.intent.action))
            && (Submits(d, c) ==> Served(d, c.world))
  {
    hide Decide, Settle, PricesFor, EffectiveHalted, EffectiveReason;
  }

  /** What a call does to an account: if it is the one that serves the call, it moves by the reported fill
      and logs an order exactly when one is submitted; any other account stays as it is. */
  lemma AccountMovesByReport(d: Desk, c: Call, id: string)
    requires id in d.accounts
    ensures var e, f := AfterIntent(d, c.intent, c.world).0, Reported(d, c);
            && id in e.accounts
            && (c.world.account != Some(id) ==> e.accounts[id] == d.accounts[id])
            && (c.world.account == Some(id) ==>
                  && e.accounts[id].orders
                     == d.accounts[id].orders + (if Submits(d, c) then [IntentToOrder(c.intent)] else [])
                  && forall sym :: HoldingIn(e.accounts[id], sym)
                                   == HoldingIn(d.accounts[id], sym)
                                      + (if f.Some? then SharesIn(sym)(f.value) else 0.0))
  {
    hide Decide, Settle, PricesFor, EffectiveHalted, EffectiveReason;
    assert d.accounts[id].orders + [] == d.accounts[id].orders;
  }

  /** The side of the market an intent asks for. */
  ghost function SideOf(action: IntentAction): Side {
    if action == ActSell || action == ActClose then Sell else Buy
  }

  /** What a call writes down, said of the broker's answer alone: a positive fill is recorded as it was
      reported, with its quantity, its price and its fees, for the symbol and side of the intent; anything else
      leaves the ledger as it is. */
  lemma CallRecordsReply(d: Desk, c: Call)
    requires c.intent.botId in d.ledgers
    ensures var (e, o) := AfterIntent(d, c.intent, c.world);
            var i, reply, before := c.intent, c.world.reply, d.ledgers[c.intent.botId];
            && i.botId in e.ledgers
            && var after := e.ledgers[i.botId];
               if (o.Executed? || o.LedgerRaised? || o.PersistenceFailed?) && reply.result.filledQuantity > 0.0 then
                 var r := reply.result;
                 && after.feeLedger == before.feeLedger + [r.fees]
                 && after.orderHistory
                    == before.orderHistory + [Fill(i.symbol, SideOf(i.action), r.filledQuantity, r.filledPrice, r.fees)]
               else after == before
    ensures var o := AfterIntent(d, c.intent, c.world).1;
            && (o.Executed? || o.LedgerRaised? || o.PersistenceFailed? ==> c.world.reply.Reports?)
            && (o.SubmitFailed? ==> c.world.reply.Raises?)
            && (o.Executed? ==> o.result == c.world.reply.result)
  {
    hide Decide, Settle, PricesFor, SymbolsFor, EffectiveHalted, EffectiveReason, AfterSubmit;
  }

  /** What a call sends and what the account then holds: an order for the symbol, side and quantity of the
      intent, and the filled quantity more or less of that symbol. */
  lemma CallReachesBroker(d: Desk, c: Call, id: string)
    requires Submits(d, c) && c.world.account == Some(id)
    ensures var i, e := c.intent, AfterIntent(d, c.intent, c.world).0;
            && id in d.accounts && id in e.accounts
            && e.accounts[id].orders == d.accounts[id].orders + [Order(i.symbol, SideOf(i.action), i.quantity)]
            && forall sym :: HoldingIn(e.accounts[id], sym) - HoldingIn(d.accounts[id], sym)
                 == (if sym != i.symbol || c.world.reply.Raises? || c.world.reply.result.filledQuantity <= 0.0 then 0.0
                     else if SideOf(i.action).Buy? then c.world.reply.result.filledQuantity
                     else -c.world.reply.result.filledQuantity)
  {
    hide Decide, Settle, PricesFor, SymbolsFor, EffectiveHalted, EffectiveReason;
  }

  /** The prices an intent is judged by: those quoted for its own symbol and for every symbol its bot holds, no
      more and no fewer. */
  lemma PricesAreQuotes(d: Desk, i: TradeIntent, w: World, sym: string)
    requires i.botId in d.ledgers
    ensures var prices := PricesFor(SymbolsFor(i, BooksOf(d, i.botId)), w.quotes);
            var asked := sym == i.symbol || exists h :: h in BooksOf(d, i.botId).positions && h.symbol == sym;
            && (asked && w.quotes(sym).QuoteRaises? ==> prices.None?)
            && (prices.Some? ==>
                  && (sym in prices.value <==> asked && w.quotes(sym).Priced?)
                  && (sym in prices.value ==> prices.value[sym] == w.quotes(sym).price))
  {
  }

  /** An order goes out only past the gates: the bot is not halted, the stored halt is off or unreadable,
      and a buy has been approved by the limits at prices fetched in this call. */
  lemma SubmittedOrderWasApproved(d: Desk, c: Call)
    requires Submits(d, c)
    ensures c.intent.botId in d.ledgers && !Stopped(d.risk, c.intent.botId)
    ensures !GateCloses(d, c.intent.orgId, c.world)
    ensures exists prices ::
              PricesFor(SymbolsFor(c.intent, BooksOf(d, c.intent.botId)), c.world.quotes) == Some(prices)
              && Decide(d.cfg, d.risk, c.intent, BooksOf(d, c.intent.botId), prices).Approved?
  {
    hide DecideBuy, PricesFor, SymbolsFor, EffectiveHalted, EffectiveReason, Fulfil;
    var prices := PricesFor(SymbolsFor(c.intent, BooksOf(d, c.intent.botId)), c.world.quotes);
    assert prices == Some(prices.value);
  }

  /** How far a call gets, exactly: which bots it turns away, when the stored halt stops it (not when that
      cannot be read), when it lacks a broker or a quote, when the limits refuse it, and that it submits in all
      other cases and in no others. */
  lemma CallGetsThisFar(d: Desk, c: Call)
    ensures var i, w, o := c.intent, c.world, OutcomeOf(d, c);
            var trades := i.botId in d.ledgers && i.action in {ActBuy, ActSell, ActClose};
            var stopped := d.halts.Some? && EffectiveHalted(d.halts.value, i.orgId) && !w.haltReadFails;
            var reached := trades && !stopped && w.account.Some? && w.account.value in d.accounts;
            && (o.UnknownBot? <==> i.botId !in d.ledgers)
            && (o.NoTrade? <==> i.botId in d.ledgers && i.action in {ActHold, ActNoop})
            && (o.HaltedByStore? || o.ReasonUnreadable? <==> trades && stopped)
            && (o.BrokerUnavailable? <==> trades && !stopped && !reached)
            && (o.QuoteFailed? <==>
                  reached && exists sym :: sym in SymbolsFor(i, BooksOf(d, i.botId)) && w.quotes(sym).QuoteRaises?)
            && (o.Refused? || Submits(d, c) <==>
                  reached && PricesFor(SymbolsFor(i, BooksOf(d, i.botId)), w.quotes).Some?)
            && (o.Refused? || Submits(d, c) ==>
                  var prices := PricesFor(SymbolsFor(i, BooksOf(d, i.botId)), w.quotes).value;
                  match Decide(d.cfg, d.risk, i, BooksOf(d, i.botId), prices)
                  case Rejected(reason) => o == Refused(reason)
                  case Approved => Submits(d, c))
  {
    hide Decide, SymbolsFor, EffectiveHalted, EffectiveReason, AfterFill, AfterSubmit;
  }

  // ---------- Each ledger is a run of fills ----------

  /** The fills reported for one bot over the run. */
  function ReportsFor(d: Desk, calls: seq<Call>, botId: string): seq<Fill> {
    if |calls| == 0 then []
    else
      var before, c := calls[..|calls| - 1], calls[|calls| - 1];
      var f := Reported(RunDesk(d, before), c);
      ReportsFor(d, before, botId) + (if c.intent.botId == botId && f.Some? then [f.value] else [])
  }

  /** Every ledger, histories included, is a run of its own reported fills, all of positive quantity: so
      everything proved of runs of fills holds on the desk. */
  lemma {:induction false} LedgersAreRuns(d: Desk, calls: seq<Call>, botId: string)
    requires botId in d.ledgers
    ensures RunDesk(d, calls).ledgers.Keys == d.ledgers.Keys
    ensures RunDesk(d, calls).ledgers[botId] == RunLedger(d.ledgers[botId], ReportsFor(d, calls, botId))
    ensures BooksOf(RunDesk(d, calls), botId) == RunBooks(BooksOf(d, botId), ReportsFor(d, calls, botId))
    ensures PositiveFills(ReportsFor(d, calls, botId))
  {
    hide AfterIntent, AfterFill, Settle, Reported;
    if |calls| > 0 {
      var before, c := calls[..|calls| - 1], calls[|calls| - 1];
      LedgersAreRuns(d, before, botId);
      var e, fills := RunDesk(d, before), ReportsFor(d, before, botId);
      CallIsLocal(e, c);
      if c.intent.botId == botId {
        CallSettlesReport(e, c);
      }
      assert fills + [] == fills;
      if c.intent.botId == botId && Reported(e, c).Some? {
        assert (fills + [Reported(e, c).value])[..|fills|] == fills;
      }
    }
    ReplayAccepted(d.ledgers[botId], ReportsFor(d, calls, botId));
  }

  /** Conservation of money on the desk: a bot that started fresh has realized exactly the net cash of its
      accepted fills plus what its open positions cost. */
  lemma DeskConservesMoney(d: Desk, calls: seq<Call>, botId: string, capital: real)
    requires botId in d.ledgers && BooksOf(d, botId) == FreshBooks(capital)
    ensures botId in RunDesk(d, calls).ledgers
    ensures var b := BooksOf(RunDesk(d, calls), botId);
            b.realizedPnl == Total(CashFlow, Accepted(FreshBooks(capital), ReportsFor(d, calls, botId)))
                             + BookValue(b.positions)
  {
    LedgersAreRuns(d, calls, botId);
    MoneyIsConserved(capital, ReportsFor(d, calls, botId));
  }

  // ---------- Drawdown ----------

  /** The largest equity the bot has had, from the start of the run to its end. */
  ghost function Peak(d: Desk, calls: seq<Call>, botId: string): real
    requires botId in d.ledgers
  {
    LedgersAreRuns(d, calls, botId);
    var now := BooksOf(RunDesk(d, calls), botId).Equity();
    if |calls| == 0 then now else Max(Peak(d, calls[..|calls| - 1], botId), now)
  }

  lemma {:induction false} MarkIsPeakOfDesk(d: Desk, calls: seq<Call>, botId: string)
    requires botId in d.ledgers && BooksOf(d, botId).highWaterMark == BooksOf(d, botId).Equity()
    ensures botId in RunDesk(d, calls).ledgers
    ensures var b := BooksOf(RunDesk(d, calls), botId);
            b.highWaterMark == Peak(d, calls, botId) && b.Equity() <= b.highWaterMark
  {
    hide AfterIntent, Settle, Reported;
    LedgersAreRuns(d, calls, botId);
    if |calls| > 0 {
      var before, c := calls[..|calls| - 1], calls[|calls| - 1];
      MarkIsPeakOfDesk(d, before, botId);
      var e := RunDesk(d, before);
      CallIsLocal(e, c);
      if c.intent.botId == botId {
        CallSettlesReport(e, c);
        var f := Reported(e, c);
        if f.Some? {
          SettleMark(BooksOf(e, botId), f.value);
        }
      }
    }
  }

  /** Drawdown safety over runs: a buy is submitted only while the bot's equity is at least
      (1 - max_drawdown_pct) times the largest equity it has ever had. */
  lemma {:induction false} BuysRespectDrawdown(d: Desk, calls: seq<Call>, c: Call)
    requires var id := c.intent.botId;
             id in d.ledgers && BooksOf(d, id).highWaterMark == BooksOf(d, id).Equity() > 0.0
    requires Submits(RunDesk(d, calls), c) && c.intent.action.ActBuy?
    ensures var id := c.intent.botId;
            && id in RunDesk(d, calls).ledgers
            && BooksOf(RunDesk(d, calls), id).Equity() >= (1.0 - d.cfg.maxDrawdownPct) * Peak(d, calls, id)
  {
    hide AfterIntent, Submits, RunDesk, Decide, PricesFor, SymbolsFor, Peak;
    var id, e := c.intent.botId, RunDesk(d, calls);
    MarkIsPeakOfDesk(d, calls, id);
    PeakIsPositive(d, calls, id);
    SubmittedOrderWasApproved(e, c);
    var prices :| PricesFor(SymbolsFor(c.intent, BooksOf(e, id)), c.world.quotes) == Some(prices)
                  && Decide(e.cfg, e.risk, c.intent, BooksOf(e, id), prices).Approved?;
    ApprovedBuyMeans(e.cfg, e.risk, c.intent, BooksOf(e, id), prices);
    SettingsAreFixed(d, calls);
  }

  /** A bot whose books are a run of fills from books at their peak: a buy of it is submitted only while its
      equity is at least (1 - max_drawdown_pct) times the largest equity of that run. */
  lemma {:induction false} SubmittedBuyIsAboveFloor(d: Desk, c: Call, start: Books, fills: seq<Fill>)
    requires Submits(d, c) && c.intent.action.ActBuy? && c.intent.botId in d.ledgers
    requires BooksOf(d, c.intent.botId) == RunBooks(start, fills)
    requires start.highWaterMark == start.Equity() > 0.0
    ensures exists peak :: IsPeakEquity(start, fills, peak)
              && BooksOf(d, c.intent.botId).Equity() >= (1.0 - d.cfg.maxDrawdownPct) * peak
  {
    hide Submits, Decide, PricesFor, SymbolsFor, IsPeakEquity, RunBooks;
    var b := BooksOf(d, c.intent.botId);
    MarkIsPeak(start, fills);
    MarkStaysPositive(start, fills);
    SubmittedOrderWasApproved(d, c);
    var prices :| PricesFor(SymbolsFor(c.intent, b), c.world.quotes) == Some(prices)
                  && Decide(d.cfg, d.risk, c.intent, b, prices).Approved?;
    ApprovedBuyMeans(d.cfg, d.risk, c.intent, b, prices);
  }

  lemma {:induction false} MarkStaysPositive(b: Books, fills: seq<Fill>)
    requires b.highWaterMark == b.Equity() > 0.0
    ensures RunBooks(b, fills).highWaterMark > 0.0
  {
    MarkIsPeak(b, fills);
    assert RunBooks(b, fills[..0]).Equity() <= RunBooks(b, fills).highWaterMark;
  }

  lemma {:induction false} PeakIsPositive(d: Desk, calls: seq<Call>, botId: string)
    requires botId in d.ledgers && BooksOf(d, botId).Equity() > 0.0
    ensures Peak(d, calls, botId) > 0.0
  {
    hide AfterIntent;
    if |calls| > 0 {
      PeakIsPositive(d, calls[..|calls| - 1], botId);
    }
  }

  lemma {:induction false} SettingsAreFixed(d: Desk, calls: seq<Call>)
    ensures var e := RunDesk(d, calls);
            && e.cfg == d.cfg && e.risk == d.risk && e.halts == d.halts
            && e.ledgers.Keys == d.ledgers.Keys && e.accounts.Keys == d.accounts.Keys
  {
    hide AfterIntent;
    if |calls| > 0 {
      SettingsAreFixed(d, calls[..|calls| - 1]);
      CallIsLocal(RunDesk(d, calls[..|calls| - 1]), calls[|calls| - 1]);
    }
  }

  /** Exposure over the whole call: a submitted buy of a symbol quoted at a non-negative price, filled for
      at most what was ordered, leaves the bot within its exposure limit at the prices of the call. */
  lemma {:induction false} BuyKeepsExposureLimit(d: Desk, c: Call, prices: Prices)
    requires Submits(d, c) && c.intent.action.ActBuy? && BooksOf(d, c.intent.botId).Equity() > 0.0
    requires PricesFor(SymbolsFor(c.intent, BooksOf(d, c.intent.botId)), c.world.quotes) == Some(prices)
    requires c.intent.symbol in prices && prices[c.intent.symbol] >= 0.0
    requires Reported(d, c).Some? && Reported(d, c).value.quantity <= c.intent.quantity
    ensures var e := AfterIntent(d, c.intent, c.world).0;
            && c.intent.botId in e.ledgers
            && Exposure(BooksOf(e, c.intent.botId).positions, prices)
               <= d.cfg.maxTotalExposurePct * BooksOf(e, c.intent.botId).Equity()
  {
    hide AfterIntent, Submits, Reported, Settle, Decide, PricesFor, SymbolsFor, Exposure;
    SubmittedOrderWasApproved(d, c);
    CallIsLocal(d, c);
    CallSettlesReport(d, c);
    ExposureBoundSurvivesFill(
      d.cfg, d.risk, c.intent, BooksOf(d, c.intent.botId), prices, Reported(d, c).value);
  }

  // ---------- Halts ----------

  /** A halted bot, or any bot of a halted desk, submits nothing and its ledger does not change, for as long
      as nobody lifts the halt. */
  lemma {:induction false} HaltedBotIsFrozen(d: Desk, calls: seq<Call>, botId: string)
    requires botId in d.ledgers && Stopped(d.risk, botId)
    ensures botId in RunDesk(d, calls).ledgers && RunDesk(d, calls).ledgers[botId] == d.ledgers[botId]
    ensures forall k :: 0 <= k < |calls| && calls[k].intent.botId == botId ==>
              !Submits(RunDesk(d, calls[..k]), calls[k])
  {
    hide AfterIntent, Submits;
    if |calls| > 0 {
      var before, c := calls[..|calls| - 1], calls[|calls| - 1];
      HaltedBotIsFrozen(d, before, botId);
      SettingsAreFixed(d, before);
      var e := RunDesk(d, before);
      CallIsLocal(e, c);
      forall k | 0 <= k < |before|
        ensures calls[..k] == before[..k] && calls[k] == before[k]
      {
      }
      if c.intent.botId == botId {
        StoppedCallIsInert(e, c);
      }
    }
  }

  lemma StoppedCallIsInert(d: Desk, c: Call)
    requires Stopped(d.risk, c.intent.botId)
    ensures !Submits(d, c) && AfterIntent(d, c.intent, c.world).0 == d
  {
    hide DecideBuy, PricesFor, SymbolsFor, EffectiveHalted, EffectiveReason, Fulfil;
  }

  /** While an org, or the system, is halted in the store, its intents reach the broker only in calls whose
      halt read fails: the gate fails open. */
  lemma StoredHaltStopsUnlessUnreadable(d: Desk, c: Call)
    requires d.halts.Some? && EffectiveHalted(d.halts.value, c.intent.orgId)
    ensures Submits(d, c) ==> c.world.haltReadFails
    ensures !c.world.haltReadFails ==> AfterIntent(d, c.intent, c.world).0 == d
  {
    hide Trade, EffectiveHalted, EffectiveReason;
  }

  /** And says why: the reason of the halt, or that there is one. */
  lemma StoredHaltSaysWhy(d: Desk, c: Call)
    requires c.intent.botId in d.ledgers && !c.intent.action.ActHold? && !c.intent.action.ActNoop?
    requires d.halts.Some? && EffectiveHalted(d.halts.value, c.intent.orgId) && !c.world.haltReadFails
    ensures var o, reason := OutcomeOf(d, c), EffectiveReason(d.halts.value, c.intent.orgId);
            && (c.world.reasonReadFails ==> o == ReasonUnreadable)
            && (!c.world.reasonReadFails && reason.None? ==> o == HaltedByStore("halted: desk halted"))
            && (!c.world.reasonReadFails && reason.Some? ==> o == HaltedByStore("halted: " + reason.value))
  {
    hide Trade, EffectiveHalted, EffectiveReason;
    assert "halted: " + "desk halted" == "halted: desk halted";
  }

  /** Over a run, then: while an org or the system is halted in the store, none of the org's calls whose halt
      read succeeds submits anything or changes the desk. */
  lemma {:induction false} StoredHaltHolds(d: Desk, calls: seq<Call>, orgId: string)
    requires d.halts.Some? && EffectiveHalted(d.halts.value, orgId)
    ensures forall k :: 0 <= k < |calls| && calls[k].intent.orgId == orgId && !calls[k].world.haltReadFails ==>
              && !Submits(RunDesk(d, calls[..k]), calls[k])
              && RunDesk(d, calls[..k + 1]) == RunDesk(d, calls[..k])
  {
    hide AfterIntent, Submits, EffectiveHalted;
    forall k | 0 <= k < |calls| && calls[k].intent.orgId == orgId && !calls[k].world.haltReadFails
      ensures !Submits(RunDesk(d, calls[..k]), calls[k])
      ensures RunDesk(d, calls[..k + 1]) == RunDesk(d, calls[..k])
    {
      SettingsAreFixed(d, calls[..k]);
      StoredHaltStopsUnlessUnreadable(RunDesk(d, calls[..k]), calls[k]);
      assert calls[..k + 1][..k] == calls[..k];
    }
  }

  // ---------- Agreement with the brokers ----------

  /** The keys of a dictionary, each once, in its order. */
  ghost predicate Enumerates<V>(order: seq<string>, m: map<string, V>) {
    && (forall k :: k in order <==> k in m)
    && (forall i, j :: 0 <= i < j < |order| ==> order[i] != order[j])
  }

  ghost function AllBooks(bots: seq<string>, ledgers: map<string, LedgerState>): (all: seq<Books>)
    requires Enumerates(bots, ledgers)
    ensures |all| == |bots| && forall i :: 0 <= i < |bots| ==> all[i] == ledgers[bots[i]].books
  {
    seq(|bots|, i requires 0 <= i < |bots| && bots[i] in ledgers => ledgers[bots[i]].books)
  }

  lemma {:induction false} LedgerTotalUpdate(
    bots: seq<string>, ledgers: map<string, LedgerState>, b: string, l: LedgerState, sym: string)
    requires Enumerates(bots, ledgers) && b in ledgers
    ensures LedgerTotal(AllBooks(bots, ledgers[b := l]), sym)
            == LedgerTotal(AllBooks(bots, ledgers), sym)
               + Held(l.books.positions, sym) - Held(ledgers[b].books.positions, sym)
  {
    hide Held;
    var all := AllBooks(bots, ledgers);
    var i :| 0 <= i < |bots| && bots[i] == b;
    assert AllBooks(bots, ledgers[b := l]) == all[i := l.books];
    TotalUpdate(HeldOf(sym), all, i, l.books);
  }

  lemma {:induction false} AccountTotalUpdate(
    ids: seq<string>, accounts: map<string, Account>, id: string, a: Account, sym: string)
    requires Enumerates(ids, accounts) && id in accounts
    ensures AccountTotal(AllAccounts(ids, accounts[id := a]), sym)
            == AccountTotal(AllAccounts(ids, accounts), sym) + HoldingIn(a, sym) - HoldingIn(accounts[id], sym)
  {
    hide HoldingIn;
    var all := AllAccounts(ids, accounts);
    var i :| 0 <= i < |ids| && ids[i] == id;
    assert AllAccounts(ids, accounts[id := a]) == all[i := a];
    TotalUpdate(HoldingOf(sym), all, i, a);
  }

  ghost predicate AllWellFormed(d: Desk) {
    forall b :: b in d.ledgers ==> WellFormed(d.ledgers[b].books.positions)
  }

  ghost function AllAccounts(ids: seq<string>, accounts: map<string, Account>): (all: seq<Account>)
    requires Enumerates(ids, accounts)
    ensures |all| == |ids| && forall i :: 0 <= i < |ids| ==> all[i] == accounts[ids[i]]
  {
    seq(|ids|, i requires 0 <= i < |ids| && ids[i] in accounts => accounts[ids[i]])
  }

  ghost function HoldingOf(sym: string): Account -> real { (a: Account) => HoldingIn(a, sym) }

  /** The quantity of a symbol over all accounts. */
  ghost function AccountTotal(accounts: seq<Account>, sym: string): real { Total(HoldingOf(sym), accounts) }

  /** Ledgers and accounts hold, over all, the same of every symbol. */
  ghost predicate Agrees(d: Desk, bots: seq<string>, ids: seq<string>) {
    && Enumerates(bots, d.ledgers) && Enumerates(ids, d.accounts)
    && forall sym :: LedgerTotal(AllBooks(bots, d.ledgers), sym) == AccountTotal(AllAccounts(ids, d.accounts), sym)
  }

  lemma HaltsDoNotMatter(d: Desk, risk: RiskState, order: seq<string>, ids: seq<string>)
    ensures Agrees(d.(risk := risk), order, ids) <==> Agrees(d, order, ids)
    ensures AllWellFormed(d.(risk := risk)) <==> AllWellFormed(d)
  {
  }

  /** The reported fill is a buy, or sells no more than its own bot holds. */
  ghost predicate Covered(d: Desk, c: Call) {
    c.intent.botId in d.ledgers && Reported(d, c).Some? ==>
      var f := Reported(d, c).value;
      f.side.Sell? ==> f.quantity <= Held(BooksOf(d, c.intent.botId).positions, f.symbol)
  }

  lemma CoveredMeansNoRaise(d: Desk, c: Call)
    requires AllWellFormed(d)
    ensures Covered(d, c) <==> !OutcomeOf(d, c).LedgerRaised?
    ensures AllWellFormed(AfterIntent(d, c.intent, c.world).0)
  {
    hide AfterIntent, Settle, WellFormed, Reported;
    CallIsLocal(d, c);
    if c.intent.botId in d.ledgers {
      CallSettlesReport(d, c);
      var f := Reported(d, c);
      if f.Some? {
        SellsNeedShares(BooksOf(d, c.intent.botId), f.value);
        FillKeepsWellFormed(BooksOf(d, c.intent.botId), f.value);
      }
    } else {
      UnknownBotIsInert(d, c);
    }
  }

  lemma UnknownBotIsInert(d: Desk, c: Call)
    requires c.intent.botId !in d.ledgers
    ensures AfterIntent(d, c.intent, c.world) == (d, UnknownBot) && Reported(d, c).None?
  {
  }

  /** Over the desk, a call moves the ledgers' total by the reported fill if the ledger accepts it. */
  lemma {:induction false} TotalMovesByAccepted(d: Desk, c: Call, bots: seq<string>, sym: string)
    requires Enumerates(bots, d.ledgers) && c.intent.botId in d.ledgers
    ensures var e := AfterIntent(d, c.intent, c.world).0;
            && Enumerates(bots, e.ledgers)
            && LedgerTotal(AllBooks(bots, e.ledgers), sym)
               == LedgerTotal(AllBooks(bots, d.ledgers), sym)
                  + (if Reported(d, c).Some? && !OutcomeOf(d, c).LedgerRaised?
                     then SharesIn(sym)(Reported(d, c).value) else 0.0)
  {
    hide AfterIntent, Settle, Reported, SharesIn;
    CallIsLocal(d, c);
    CallSettlesReport(d, c);
    var e, b := AfterIntent(d, c.intent, c.world).0, BooksOf(d, c.intent.botId);
    var i :| 0 <= i < |bots| && bots[i] == c.intent.botId;
    var all := AllBooks(bots, d.ledgers);
    var b' := BooksOf(e, c.intent.botId);
    assert AllBooks(bots, e.ledgers) == all[i := b'];
    TotalUpdate(HeldOf(sym), all, i, b');
    if Reported(d, c).Some? {
      if OutcomeOf(d, c).LedgerRaised? {
        RejectedFillIsInert(b, Reported(d, c).value);
      } else {
        FillMovesShares(b, Reported(d, c).value, sym);
      }
    }
  }

  /** Over the brokers, a call moves the accounts' total by the reported fill, wherever it was routed. */
  lemma {:induction false} AccountsMoveByReport(d: Desk, c: Call, ids: seq<string>, sym: string)
    requires Enumerates(ids, d.accounts) && c.intent.botId in d.ledgers
    ensures var e := AfterIntent(d, c.intent, c.world).0;
            && Enumerates(ids, e.accounts)
            && AccountTotal(AllAccounts(ids, e.accounts), sym)
               == AccountTotal(AllAccounts(ids, d.accounts), sym)
                  + (if Reported(d, c).Some? then SharesIn(sym)(Reported(d, c).value) else 0.0)
  {
    hide AfterIntent, Settle, Submits, SharesIn, HoldingIn;
    CallIsLocal(d, c);
    CallSettlesReport(d, c);
    var e, all := AfterIntent(d, c.intent, c.world).0, AllAccounts(ids, d.accounts);
    forall id | id in d.accounts
      ensures c.world.account != Some(id) ==> e.accounts[id] == d.accounts[id]
    {
      AccountMovesByReport(d, c, id);
    }
    if Served(d, c.world) {
      var id := c.world.account.value;
      AccountMovesByReport(d, c, id);
      var i :| 0 <= i < |ids| && ids[i] == id;
      assert AllAccounts(ids, e.accounts) == all[i := e.accounts[id]];
      TotalUpdate(HoldingOf(sym), all, i, e.accounts[id]);
    } else {
      assert AllAccounts(ids, e.accounts) == all;
    }
  }

  /** From agreement, a call keeps agreement exactly when its ledger does not refuse the fill: an oversell is
      noticed only by the ledger, after the broker has filled it. */
  lemma {:induction false} AgreementKeptIff(d: Desk, c: Call, bots: seq<string>, ids: seq<string>)
    requires Agrees(d, bots, ids) && AllWellFormed(d)
    ensures Agrees(AfterIntent(d, c.intent, c.world).0, bots, ids) <==> Covered(d, c)
  {
    hide AfterIntent, Settle, Reported, SharesIn, AllBooks, AllAccounts, LedgerTotal, AccountTotal;
    CoveredMeansNoRaise(d, c);
    CallIsLocal(d, c);
    var e := AfterIntent(d, c.intent, c.world).0;
    if c.intent.botId !in d.ledgers {
      UnknownBotIsInert(d, c);
    } else {
      CallSettlesReport(d, c);
      forall sym
        ensures Enumerates(bots, e.ledgers) && Enumerates(ids, e.accounts)
        ensures LedgerTotal(AllBooks(bots, e.ledgers), sym) - AccountTotal(AllAccounts(ids, e.accounts), sym)
                == if OutcomeOf(d, c).LedgerRaised? then -SharesIn(sym)(Reported(d, c).value) else 0.0
      {
        TotalMovesByAccepted(d, c, bots, sym);
        AccountsMoveByReport(d, c, ids, sym);
      }
      if OutcomeOf(d, c).LedgerRaised? {
        OwnSharesMove(Reported(d, c).value);
        assert AccountTotal(AllAccounts(ids, e.accounts), c.intent.symbol)
            != LedgerTotal(AllBooks(bots, e.ledgers), c.intent.symbol);
      }
    }
  }

  lemma OwnSharesMove(f: Fill)
    requires f.quantity > 0.0
    ensures SharesIn(f.symbol)(f) != 0.0
  {
  }

  /** Everything that decides, before the broker answers, whether the call sends its order. */
  predicate Admits(d: Desk, i: TradeIntent, w: World) {
    && i.botId in d.ledgers && !i.action.ActHold? && !i.action.ActNoop?
    && !GateCloses(d, i.orgId, w) && Served(d, w)
    && var prices := PricesFor(SymbolsFor(i, d.ledgers[i.botId].books), w.quotes);
       prices.Some? && Decide(d.cfg, d.risk, i, d.ledgers[i.botId].books, prices.value).Approved?
  }

  lemma SubmitsIffAdmitted(d: Desk, c: Call)
    ensures Submits(d, c) <==> Admits(d, c.intent, c.world)
  {
    hide Decide, AfterFill, AfterSubmit, PricesFor, SymbolsFor, EffectiveHalted, EffectiveReason;
  }

  /** An order to sell more than the bot holds that nothing stops: the bot is known, neither it nor the desk is
      halted, the halt gate is open, a broker serves the org, and no quote raises. */
  ghost predicate Oversells(d: Desk, i: TradeIntent, w: World) {
    && i.botId in d.ledgers && (i.action.ActSell? || i.action.ActClose?)
    && i.quantity > Held(BooksOf(d, i.botId).positions, i.symbol)
    && !Stopped(d.risk, i.botId) && !GateCloses(d, i.orgId, w) && Served(d, w)
    && PricesFor(SymbolsFor(i, BooksOf(d, i.botId)), w.quotes).Some?
  }

  lemma OversellsAreAdmitted(d: Desk, i: TradeIntent, w: World)
    ensures Oversells(d, i, w) <==>
            && Admits(d, i, w) && IntentToSide(i.action).Sell?
            && i.quantity > Held(BooksOf(d, i.botId).positions, i.symbol)
  {
    hide Decide, PricesFor, SymbolsFor, EffectiveHalted, Held;
    if i.botId in d.ledgers && (i.action.ActSell? || i.action.ActClose?) {
      var prices := PricesFor(SymbolsFor(i, BooksOf(d, i.botId)), w.quotes);
      if prices.Some? {
        SellsStoppedOnlyByHalt(d.cfg, d.risk, i, BooksOf(d, i.botId), prices.value);
      }
    }
  }

  predicate FillsAtMost(reply: Reply, quantity: real) {
    reply.Reports? ==> reply.result.filledQuantity <= quantity
  }

  /** Decided before the call: against a broker that fills at most what was ordered, agreement survives every
      answer exactly when the call is not an oversell that nothing stops. */
  lemma {:induction false} OversellBreaksAgreementIff(
    d: Desk, i: TradeIntent, w: World, bots: seq<string>, ids: seq<string>)
    requires Agrees(d, bots, ids) && AllWellFormed(d)
    ensures (forall reply :: FillsAtMost(reply, i.quantity) ==>
               Agrees(AfterIntent(d, i, w.(reply := reply)).0, bots, ids))
            <==> !Oversells(d, i, w)
  {
    hide AfterIntent, Submits, Agrees, AllWellFormed, Admits, Oversells;
    OversellsAreAdmitted(d, i, w);
    forall reply
      ensures Agrees(AfterIntent(d, i, w.(reply := reply)).0, bots, ids) <==> Covered(d, Call(i, w.(reply := reply)))
      ensures Submits(d, Call(i, w.(reply := reply))) <==> Admits(d, i, w)
    {
      AgreementKeptIff(d, Call(i, w.(reply := reply)), bots, ids);
      SubmitsIffAdmitted(d, Call(i, w.(reply := reply)));
      AdmissionIgnoresReply(d, i, w, reply);
    }
    if Oversells(d, i, w) {
      var reply := Reports(OrderResult(i.quantity, 0.0, NO_FEES));
      AdmittedIsKnown(d, i, w);
      KnownHeldNonNegative(d, i.botId, i.symbol);
      assert !Covered(d, Call(i, w.(reply := reply)));
      assert FillsAtMost(reply, i.quantity);
    }
  }

  lemma AdmissionIgnoresReply(d: Desk, i: TradeIntent, w: World, reply: Reply)
    ensures Admits(d, i, w.(reply := reply)) <==> Admits(d, i, w)
  {
    hide Decide, PricesFor, SymbolsFor, EffectiveHalted;
  }

  lemma AdmittedIsKnown(d: Desk, i: TradeIntent, w: World)
    requires Admits(d, i, w)
    ensures i.botId in d.ledgers
  {
  }

  lemma KnownHeldNonNegative(d: Desk, botId: string, sym: string)
    requires botId in d.ledgers && AllWellFormed(d)
    ensures Held(BooksOf(d, botId).positions, sym) >= 0.0
  {
    HeldNonNegative(BooksOf(d, botId).positions, sym);
  }

  /** Agreement over runs: from a desk that agrees with its brokers, any run in which every sell fill is
      covered by the selling bot's own holding ends in agreement, with at most one position per symbol in
      each ledger and none of them negative. */
  lemma {:induction false} AgreementOverRuns(d: Desk, calls: seq<Call>, bots: seq<string>, ids: seq<string>)
    requires Agrees(d, bots, ids) && AllWellFormed(d)
    requires forall k :: 0 <= k < |calls| ==> Covered(RunDesk(d, calls[..k]), calls[k])
    ensures Agrees(RunDesk(d, calls), bots, ids) && AllWellFormed(RunDesk(d, calls))
  {
    hide AfterIntent, Agrees, AllWellFormed, Covered;
    if |calls| > 0 {
      var before, c := calls[..|calls| - 1], calls[|calls| - 1];
      assert calls[|before|] == c && calls[..|before|] == before;
      forall k | 0 <= k < |before|
        ensures Covered(RunDesk(d, before[..k]), before[k])
      {
        assert calls[..k] == before[..k] && calls[k] == before[k];
      }
      AgreementOverRuns(d, before, bots, ids);
      CoveredMeansNoRaise(RunDesk(d, before), c);
      AgreementKeptIff(RunDesk(d, before), c, bots, ids);
    }
  }

  /** The positions a broker reports for an account. */
  ghost predicate Lists(ps: seq<BrokerPosition>, a: Account) {
    forall sym :: BrokerTotal(ps, sym) == HoldingIn(a, sym)
  }

  /** The quantity of a symbol over the accounts other than `home`. */
  ghost function OthersTotal(ids: seq<string>, accounts: map<string, Account>, home: string, sym: string): real
    requires Enumerates(ids, accounts) && home in accounts
  {
    AccountTotal(AllAccounts(ids, accounts[home := Account([], map[])]), sym)
  }

  /** The accounts other than `home` hold, over all, nothing of any symbol. */
  ghost predicate OthersFlat(d: Desk, ids: seq<string>, home: string)
    requires Enumerates(ids, d.accounts) && home in d.accounts
  {
    forall sym :: OthersTotal(ids, d.accounts, home, sym) == 0.0
  }

  lemma {:induction false} HomeAndOthers(d: Desk, ids: seq<string>, home: string, sym: string)
    requires Enumerates(ids, d.accounts) && home in d.accounts
    ensures AccountTotal(AllAccounts(ids, d.accounts), sym)
            == HoldingIn(d.accounts[home], sym) + OthersTotal(ids, d.accounts, home, sym)
  {
    var all, nothing := AllAccounts(ids, d.accounts), Account([], map[]);
    var i :| 0 <= i < |ids| && ids[i] == home;
    assert AllAccounts(ids, d.accounts[home := nothing]) == all[i := nothing];
    TotalUpdate(HoldingOf(sym), all, i, nothing);
  }

  /** The auditor compares all ledgers with the positions of one account, `home`.  On a desk that agrees with
      its brokers it passes exactly when the other accounts are flat over all; and if they are, it passes
      exactly when desk and brokers agree. */
  lemma {:induction false} AuditPassesIffOthersFlat(
    d: Desk, bots: seq<string>, ids: seq<string>, home: string, ps: seq<BrokerPosition>)
    requires Enumerates(bots, d.ledgers) && Enumerates(ids, d.accounts)
    requires home in d.accounts && Lists(ps, d.accounts[home])
    ensures Agrees(d, bots, ids) ==> (PositionsMatch(AllBooks(bots, d.ledgers), ps) <==> OthersFlat(d, ids, home))
    ensures OthersFlat(d, ids, home) ==> (PositionsMatch(AllBooks(bots, d.ledgers), ps) <==> Agrees(d, bots, ids))
  {
    hide AllBooks, AllAccounts, LedgerTotal, AccountTotal, BrokerTotal, OthersTotal;
    forall sym
      ensures AccountTotal(AllAccounts(ids, d.accounts), sym)
           == BrokerTotal(ps, sym) + OthersTotal(ids, d.accounts, home, sym)
    {
      HomeAndOthers(d, ids, home, sym);
    }
  }

  /** So with one account for the whole desk the auditor passes exactly when desk and broker agree. */
  lemma {:induction false} OneAccountHasNoOthers(d: Desk, home: string)
    requires Enumerates([home], d.accounts)
    ensures OthersFlat(d, [home], home)
  {
    var nothing := Account([], map[]);
    assert AllAccounts([home], d.accounts[home := nothing]) == [nothing];
    forall sym
      ensures OthersTotal([home], d.accounts, home, sym) == 0.0
    {
      TotalSingle(HoldingOf(sym), nothing);
    }
  }

  // ---------- Restart ----------

  /** Every stored snapshot has the books that are in memory. */
  ghost predicate SnapshotsCurrent(d: Desk) {
    d.store.Some? ==>
      forall b :: b in d.ledgers && b in d.store.value.snapshots ==>
        d.store.value.snapshots[b].books == d.ledgers[b].books
  }

  /** Without failing saves every stored snapshot keeps up with memory through any run, refused fills
      included, so a bot restarted between calls resumes with the books it had. */
  lemma {:induction false} SnapshotsStayCurrent(d: Desk, calls: seq<Call>)
    requires SnapshotsCurrent(d) && forall c :: c in calls ==> !c.world.faults.saveFails
    ensures SnapshotsCurrent(RunDesk(d, calls))
  {
    hide AfterIntent, SnapshotsCurrent;
    if |calls| > 0 {
      var before, c := calls[..|calls| - 1], calls[|calls| - 1];
      assert c in calls && forall x :: x in before ==> x in calls;
      SnapshotsStayCurrent(d, before);
      CallKeepsSnapshots(RunDesk(d, before), c);
    }
  }

  /** The call stores a snapshot: it settles a reported fill, and the save does not fail. */
  predicate Saves(d: Desk, c: Call) {
    && c.intent.botId in d.ledgers && d.store.Some? && !c.world.faults.saveFails
    && Reported(d, c).Some? && Settle(BooksOf(d, c.intent.botId), Reported(d, c).value).1.Recorded?
  }

  lemma CallSaves(d: Desk, c: Call)
    ensures var e := AfterIntent(d, c.intent, c.world).0;
            && (d.store.None? ==> e.store.None?)
            && (Saves(d, c) ==> c.intent.botId in e.ledgers)
            && (d.store.Some? ==>
                  && e.store.Some?
                  && e.store.value.snapshots
                     == if Saves(d, c) then d.store.value.snapshots[c.intent.botId := e.ledgers[c.intent.botId]]
                        else d.store.value.snapshots)
  {
    hide Decide, Settle, PricesFor, EffectiveHalted, EffectiveReason, AfterSubmit;
  }

  lemma CallKeepsSnapshots(d: Desk, c: Call)
    requires SnapshotsCurrent(d) && !c.world.faults.saveFails
    ensures SnapshotsCurrent(AfterIntent(d, c.intent, c.world).0)
  {
    hide Decide, Settle, PricesFor, EffectiveHalted, EffectiveReason, AfterSubmit;
    if c.intent.botId in d.ledgers {
      var reply := c.world.reply;
      var f := FillFor(c.intent, if reply.Reports? then reply.result else OrderResult(0.0, 0.0, NO_FEES));
      if !Settle(BooksOf(d, c.intent.botId), f).1.Recorded? {
        RejectedFillIsInert(BooksOf(d, c.intent.botId), f);
      }
    }
  }
}
