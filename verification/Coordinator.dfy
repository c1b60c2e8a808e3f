/**
 The trade pipeline (src/trading_strands/coordinator/coordinator.py): halt gate, broker, risk gate, order,
 ledger.  `AfterIntent` is one call of `execute` on the state of the desk; the class follows it in place.

 What the outside world answers during a call (quotes, the broker's reply, failing reads and writes) is the
 `World` of that call, and so is which account serves the intent's org.  A broker stands for the account that
 its credentials open, so several orgs may share one; an account holds what its reported fills add up to.
 */
module Coordination {
  import opened Prelude
  import opened LedgerModel
  import opened LedgerPersistence
  import opened HaltControl
  import opened Risk

  datatype Order = Order(symbol: string, side: Side, quantity: real)

  datatype OrderResult = OrderResult(filledQuantity: real, filledPrice: real, fees: FeeBreakdown)

  /** A submission raises, leaving the account alone, or reports what was filled. */
  datatype Reply = Raises | Reports(result: OrderResult)

  /** A quote with a price, with none that is a number, or an exception. */
  datatype Quote = Priced(price: real) | Unpriced | QuoteRaises

  /** `account` names the account that serves the org of the intent; nothing if no broker can be had. */
  datatype World = World(
    haltReadFails: bool, reasonReadFails: bool, account: Option<string>, quotes: string -> Quote, reply: Reply,
    faults: Faults)

  // ---------- The broker ----------

  datatype Account = Account(orders: seq<Order>, holdings: map<string, real>)

  function HoldingIn(a: Account, sym: string): real {
    if sym in a.holdings then a.holdings[sym] else 0.0
  }

  function AfterSubmit(a: Account, o: Order, reply: Reply): Account {
    var sent := a.(orders := a.orders + [o]);
    if reply.Raises? || reply.result.filledQuantity <= 0.0 then sent
    else
      var moved := if o.side.Buy? then reply.result.filledQuantity else -reply.result.filledQuantity;
      sent.(holdings := a.holdings[o.symbol := HoldingIn(a, o.symbol) + moved])
  }

  class Broker {
    const account: string
    var orders: seq<Order>
    var holdings: map<string, real>

    function View(): Account
      reads this
    {
      Account(orders, holdings)
    }

    method SubmitOrder(o: Order, reply: Reply) returns (r: Option<OrderResult>)
      modifies this
      ensures View() == AfterSubmit(old(View()), o, reply)
      ensures r == if reply.Raises? then None else Some(reply.result)
    {
      orders := orders + [o];
      if reply.Raises? {
        return None;
      }
      var filled := reply.result.filledQuantity;
      if filled > 0.0 {
        holdings := holdings[o.symbol := (if o.symbol in holdings then holdings[o.symbol] else 0.0)
                                         + (if o.side.Buy? then filled else -filled)];
      }
      r := Some(reply.result);
    }
  }

  // ---------- One call ----------

  datatype Outcome =
    | UnknownBot
    | NoTrade
    | ReasonUnreadable
    | HaltedByStore(text: string)
    | BrokerUnavailable
    | QuoteFailed
    | Refused(reason: Reason)
    | SubmitFailed
    | Executed(result: OrderResult)
    | LedgerRaised(why: FillOutcome)
    | PersistenceFailed

  /** The desk with all the broker accounts it trades in, by name. */
  datatype Desk = Desk(
    cfg: RiskConfig, risk: RiskState, halts: Option<map<string, HaltRow>>,
    ledgers: map<string, LedgerState>, store: Option<StoreState>, accounts: map<string, Account>)

  function IntentToSide(action: IntentAction): Side {
    if action.ActSell? || action.ActClose? then Sell else Buy
  }

  function IntentToOrder(i: TradeIntent): Order { Order(i.symbol, IntentToSide(i.action), i.quantity) }

  function FillFor(i: TradeIntent, r: OrderResult): Fill {
    Fill(i.symbol, IntentToSide(i.action), r.filledQuantity, r.filledPrice, r.fees)
  }

  /** The intent's symbol and every symbol held. */
  function SymbolsFor(i: TradeIntent, b: Books): set<string> {
    {i.symbol} + set h | h in b.positions :: h.symbol
  }

  /** All prices that are numbers, or nothing if one quote raises. */
  function PricesFor(symbols: set<string>, quotes: string -> Quote): Option<Prices> {
    if exists s | s in symbols :: quotes(s).QuoteRaises? then None
    else Some(map s | s in symbols && quotes(s).Priced? :: quotes(s).price)
  }

  /** Recording the broker's answer in the ledger, and in the store if there is one. */
  function AfterRecord(l: LedgerState, st: Option<StoreState>, i: TradeIntent, r: OrderResult, faults: Faults)
    : (LedgerState, Option<StoreState>, Outcome)
  {
    if r.filledQuantity <= 0.0 then (l, st, Executed(r))
    else if st.None? then
      var (m, o) := AfterFill(l, FillFor(i, r));
      (m, st, if o.Recorded? then Executed(r) else LedgerRaised(o))
    else
      var (m, st', o) := AfterPersist(l, st.value, i.botId, FillFor(i, r), faults);
      (m, Some(st'), match o
                     case Persisted => Executed(r)
                     case NotAccepted(why) => LedgerRaised(why)
                     case _ => PersistenceFailed)
  }

  /** Some account of the desk serves the call. */
  predicate Served(d: Desk, w: World) { w.account.Some? && w.account.value in d.accounts }

  /** Submitting an approved order and recording what was filled. */
  function Fulfil(d: Desk, i: TradeIntent, w: World): (Desk, Outcome)
    requires i.botId in d.ledgers && Served(d, w)
  {
    var id := w.account.value;
    var sent := d.(accounts := d.accounts[id := AfterSubmit(d.accounts[id], IntentToOrder(i), w.reply)]);
    if w.reply.Raises? then (sent, SubmitFailed)
    else
      var (m, st, o) := AfterRecord(d.ledgers[i.botId], d.store, i, w.reply.result, w.faults);
      (sent.(ledgers := d.ledgers[i.botId := m], store := st), o)
  }

  /** The part of the call after the gates that need no broker. */
  function Trade(d: Desk, i: TradeIntent, w: World): (Desk, Outcome)
    requires i.botId in d.ledgers && Served(d, w)
  {
    var l := d.ledgers[i.botId];
    var prices := PricesFor(SymbolsFor(i, l.books), w.quotes);
    if prices.None? then (d, QuoteFailed)
    else
      match Decide(d.cfg, d.risk, i, l.books, prices.value)
      case Rejected(reason) => (d, Refused(reason))
      case Approved => Fulfil(d, i, w)
  }

  /** The stored halt flag stops the org; a read that fails counts as not halted. */
  predicate GateCloses(d: Desk, orgId: string, w: World) {
    d.halts.Some? && !w.haltReadFails && EffectiveHalted(d.halts.value, orgId)
  }

  function RefusalText(reason: Option<string>): string {
    "halted: " + (if reason.Some? then reason.value else "desk halted")
  }

  function HaltText(d: Desk, orgId: string): string
    requires d.halts.Some?
  {
    RefusalText(EffectiveReason(d.halts.value, orgId))
  }

  function AfterIntent(d: Desk, i: TradeIntent, w: World): (Desk, Outcome) {
    if i.botId !in d.ledgers then (d, UnknownBot)
    else if i.action.ActHold? || i.action.ActNoop? then (d, NoTrade)
    else if GateCloses(d, i.orgId, w) then
      (d, if w.reasonReadFails then ReasonUnreadable else HaltedByStore(HaltText(d, i.orgId)))
    else if !Served(d, w) then (d, BrokerUnavailable)
    else Trade(d, i, w)
  }

  // ---------- The mutable coordinator ----------

  /** One broker object per account. */
  ghost predicate DistinctAccounts(brokers: set<Broker>) {
    forall b, c :: b in brokers && c in brokers && b.account == c.account ==> b == c
  }

  ghost function AccountViews(brokers: set<Broker>): (accounts: map<string, Account>)
    requires DistinctAccounts(brokers)
    reads brokers
    ensures forall b :: b in brokers ==> b.account in accounts && accounts[b.account] == b.View()
  {
    map b | b in brokers :: b.account := b.View()
  }

  /** The broker, if any, is one of the desk's and stands for the account that serves the call. */
  ghost predicate Stands(broker: Broker?, brokers: set<Broker>, w: World) {
    if broker == null then w.account.None? else broker in brokers && w.account == Some(broker.account)
  }

  class TradeCoordinator {
    const riskManager: RiskManager
    const ledgerStore: LedgerStore?
    const haltStore: HaltStore?
    var brokerCache: map<string, Broker>
    var ledgers: map<string, Ledger>

    /** Ledgers share nothing. */
    ghost predicate Valid()
      reads this, set b | b in ledgers :: ledgers[b]
    {
      && (forall b :: b in ledgers ==> ledgers[b].Valid())
      && (forall b, c :: b in ledgers && c in ledgers && b != c ==>
            ledgers[b] != ledgers[c] && ledgers[b].cells !! ledgers[c].cells)
    }

    ghost function LedgerViews(): map<string, LedgerState>
      requires Valid()
      reads this, set b | b in ledgers :: ledgers[b]
      reads set b, p | b in ledgers && p in ledgers[b].cells :: p
    {
      map b | b in ledgers :: ledgers[b].View()
    }

    /** The broker that serves an org: the cached one, or what the factory gives. */
    ghost function BrokerServing(orgId: string, made: Broker?): Broker?
      reads this
    {
      if orgId in brokerCache then brokerCache[orgId] else made
    }

    ghost function View(brokers: set<Broker>): Desk
      requires Valid() && DistinctAccounts(brokers)
      reads this, set b | b in ledgers :: ledgers[b]
      reads set b, p | b in ledgers && p in ledgers[b].cells :: p
      reads riskManager, ledgerStore, haltStore, brokers
    {
      Desk(riskManager.config, riskManager.View(),
           if haltStore == null then None else Some(haltStore.rows),
           LedgerViews(),
           if ledgerStore == null then None else Some(ledgerStore.View()),
           AccountViews(brokers))
    }

    constructor (riskManager: RiskManager, ledgerStore: LedgerStore?, haltStore: HaltStore?)
      ensures Valid() && ledgers == map[] && brokerCache == map[]
      ensures this.riskManager == riskManager && this.ledgerStore == ledgerStore && this.haltStore == haltStore
    {
      this.riskManager, this.ledgerStore, this.haltStore := riskManager, ledgerStore, haltStore;
      brokerCache, ledgers := map[], map[];
    }

    /** `made` is what the factory would give for this org, null if it raises. */
    method BrokerFor(orgId: string, made: Broker?) returns (broker: Broker?)
      requires Valid()
      modifies `brokerCache
      ensures Valid() && broker == old(BrokerServing(orgId, made))
      ensures brokerCache == if broker == null then old(brokerCache) else old(brokerCache)[orgId := broker]
    {
      if orgId in brokerCache {
        broker := brokerCache[orgId];
        return;
      }
      if made == null {
        return null;
      }
      brokerCache := brokerCache[orgId := made];
      broker := made;
    }

    method InvalidateBroker(orgId: string)
      requires Valid()
      modifies `brokerCache
      ensures Valid() && brokerCache == old(brokerCache) - {orgId}
    {
      brokerCache := brokerCache - {orgId};
    }

    method GetMarketPrices(symbols: set<string>, quotes: string -> Quote) returns (prices: Option<Prices>)
      ensures prices == PricesFor(symbols, quotes)
    {
      var found: Prices := map[];
      var left := symbols;
      while left != {}
        invariant left <= symbols
        invariant forall s :: s in symbols - left ==> !quotes(s).QuoteRaises?
        invariant found == map s | s in symbols - left && quotes(s).Priced? :: quotes(s).price
      {
        var s :| s in left;
        match quotes(s) {
          case QuoteRaises =>
            return None;
          case Unpriced =>
          case Priced(price) =>
            found := found[s := price];
        }
        left := left - {s};
      }
      assert symbols - left == symbols;
      prices := Some(found);
    }

    method RecordFill(i: TradeIntent, r: OrderResult, ledger: Ledger, faults: Faults) returns (outcome: Outcome)
      requires ledger.Valid()
      modifies ledger, ledger.cells, ledgerStore
      ensures ledger.Valid() && fresh(ledger.cells - old(ledger.cells))
      ensures var st := if ledgerStore == null then None else Some(old(ledgerStore.View()));
              var st' := if ledgerStore == null then None else Some(ledgerStore.View());
              (ledger.View(), st', outcome) == AfterRecord(old(ledger.View()), st, i, r, faults)
    {
      hide AfterFill;
      if r.filledQuantity <= 0.0 {
        return Executed(r);
      }
      var fill := FillFor(i, r);
      if ledgerStore == null {
        var o := ledger.RecordFill(fill);
        outcome := if o.Recorded? then Executed(r) else LedgerRaised(o);
      } else {
        var o := ledgerStore.RecordAndPersist(i.botId, ledger, fill, faults);
        outcome := match o
                   case Persisted => Executed(r)
                   case NotAccepted(why) => LedgerRaised(why)
                   case _ => PersistenceFailed;
      }
    }

    /** Recording in one bot's ledger leaves the ledgers of the others alone. */
    method RecordForBot(i: TradeIntent, r: OrderResult, faults: Faults) returns (outcome: Outcome)
      requires Valid() && i.botId in ledgers
      modifies ledgerStore, ledgers[i.botId], ledgers[i.botId].cells
      ensures Valid()
      ensures var st := if ledgerStore == null then None else Some(old(ledgerStore.View()));
              var st' := if ledgerStore == null then None else Some(ledgerStore.View());
              (ledgers[i.botId].View(), st', outcome)
              == AfterRecord(old(ledgers[i.botId].View()), st, i, r, faults)
      ensures LedgerViews() == old(LedgerViews())[i.botId := ledgers[i.botId].View()]
      ensures fresh(ledgers[i.botId].cells - old(ledgers[i.botId].cells))
    {
      hide AfterRecord, Ledger.View;
      outcome := RecordFill(i, r, ledgers[i.botId], faults);
      forall b | b in ledgers && b != i.botId
        ensures ledgers[b].View() == old(ledgers[b].View())
      {
      }
      assert Valid();
    }

    /** An order moves the account of its broker and no other. */
    method SubmitThrough(o: Order, broker: Broker, reply: Reply, ghost brokers: set<Broker>)
      returns (r: Option<OrderResult>)
      requires broker in brokers && DistinctAccounts(brokers)
      modifies broker
      ensures var a, id := old(AccountViews(brokers)), broker.account;
              id in a && AccountViews(brokers) == a[id := AfterSubmit(a[id], o, reply)]
      ensures r == if reply.Raises? then None else Some(reply.result)
    {
      hide AfterSubmit;
      r := broker.SubmitOrder(o, reply);
      forall b | b in brokers && b != broker
        ensures b.View() == old(b.View()) && b.account != broker.account
      {
      }
    }

    method SubmitAndRecord(i: TradeIntent, broker: Broker, w: World, ghost brokers: set<Broker>)
      returns (outcome: Outcome)
      requires Valid() && i.botId in ledgers && DistinctAccounts(brokers) && Stands(broker, brokers, w)
      modifies ledgerStore, broker, ledgers[i.botId], ledgers[i.botId].cells
      ensures Valid()
      ensures (View(brokers), outcome) == Fulfil(old(View(brokers)), i, w)
      ensures fresh(ledgers[i.botId].cells - old(ledgers[i.botId].cells))
    {
      hide AfterRecord, AfterSubmit, Ledger.View, Broker.View, AccountViews, DistinctAccounts, Valid;
      var result := SubmitThrough(IntentToOrder(i), broker, w.reply, brokers);
      assert LedgerViews() == old(LedgerViews());
      if result.None? {
        return SubmitFailed;
      }
      ghost var accounts := AccountViews(brokers);
      outcome := RecordForBot(i, result.value, w.faults);
      assert AccountViews(brokers) == accounts;
    }

    /** From the prices to the ledger, through the broker that serves the org. */
    method TradeThrough(i: TradeIntent, broker: Broker, w: World, ghost brokers: set<Broker>)
      returns (outcome: Outcome)
      requires Valid() && i.botId in ledgers && DistinctAccounts(brokers) && Stands(broker, brokers, w)
      modifies ledgerStore, broker, ledgers[i.botId], ledgers[i.botId].cells
      ensures Valid()
      ensures (View(brokers), outcome) == Trade(old(View(brokers)), i, w)
      ensures fresh(ledgers[i.botId].cells - old(ledgers[i.botId].cells))
    {
      hide Decide, Fulfil, PricesFor, SymbolsFor, Ledger.View, AccountViews;
      ghost var before := View(brokers);
      var books := ledgers[i.botId].View().books;
      var prices := GetMarketPrices(SymbolsFor(i, books), w.quotes);
      assert View(brokers) == before;
      if prices.None? {
        return QuoteFailed;
      }
      var decision := riskManager.Evaluate(i, books, prices.value);
      if decision.Rejected? {
        return Refused(decision.reason);
      }
      outcome := SubmitAndRecord(i, broker, w, brokers);
    }

    /** Past the halt gate: the broker for the org, then the trade. */
    method Route(i: TradeIntent, made: Broker?, w: World, ghost brokers: set<Broker>) returns (outcome: Outcome)
      requires Valid() && i.botId in ledgers && DistinctAccounts(brokers)
      requires Stands(BrokerServing(i.orgId, made), brokers, w)
      modifies `brokerCache, ledgerStore, BrokerServing(i.orgId, made), ledgers[i.botId], ledgers[i.botId].cells
      ensures Valid() && ledgers == old(ledgers)
      ensures var d := old(View(brokers));
              (View(brokers), outcome) == (if !Served(d, w) then (d, BrokerUnavailable) else Trade(d, i, w))
      ensures var broker := old(BrokerServing(i.orgId, made));
              brokerCache == if broker == null then old(brokerCache) else old(brokerCache)[i.orgId := broker]
      ensures fresh(ledgers[i.botId].cells - old(ledgers[i.botId].cells))
    {
      hide Trade, Ledger.View, AccountViews, DistinctAccounts;
      ghost var before := View(brokers);
      var broker := BrokerFor(i.orgId, made);
      assert LedgerViews() == before.ledgers && AccountViews(brokers) == before.accounts;
      if broker == null {
        return BrokerUnavailable;
      }
      outcome := TradeThrough(i, broker, w, brokers);
    }

    /** The whole pipeline for one intent; `made` is what the broker factory would give for its org, and the
        broker that then serves the org stands for the account the call's world names. */
    method Execute(i: TradeIntent, made: Broker?, w: World, ghost brokers: set<Broker>) returns (outcome: Outcome)
      requires Valid() && DistinctAccounts(brokers) && Stands(BrokerServing(i.orgId, made), brokers, w)
      modifies `brokerCache, ledgerStore, BrokerServing(i.orgId, made)
      modifies if i.botId in ledgers then {ledgers[i.botId]} else {}
      modifies if i.botId in ledgers then ledgers[i.botId].cells else {}
      ensures Valid() && ledgers == old(ledgers)
      ensures (View(brokers), outcome) == AfterIntent(old(View(brokers)), i, w)
      ensures var broker := old(BrokerServing(i.orgId, made));
              brokerCache == old(brokerCache)
              || (broker != null && brokerCache == old(brokerCache)[i.orgId := broker])
      ensures i.botId in ledgers ==> fresh(ledgers[i.botId].cells - old(ledgers[i.botId].cells))
    {
      hide Trade, EffectiveHalted, EffectiveReason, RefusalText, Ledger.View;
      if i.botId !in ledgers {
        return UnknownBot;
      }
      if i.action.ActHold? || i.action.ActNoop? {
        return NoTrade;
      }
      if haltStore != null {
        var halted := !w.haltReadFails && haltStore.IsEffectiveHalted(i.orgId);
        if halted {
          if w.reasonReadFails {
            return ReasonUnreadable;
          }
          return HaltedByStore(RefusalText(haltStore.GetEffectiveReason(i.orgId)));
        }
      }
      outcome := Route(i, made, w, brokers);
    }
  }
}
