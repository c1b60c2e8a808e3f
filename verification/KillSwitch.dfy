/**
 Kill-switch verbs (src/trading_strands/risk/killswitch.py).  Liquidation orders go through the desk's
 default broker, past the gates, and straight into the ledgers; the halt is set last.
 */
module KillSwitches {
  import opened Prelude
  import opened LedgerModel
  import opened LedgerPersistence
  import opened Risk
  import opened Coordination
  import opened DeskRuns
  import opened Auditor

  /** The default broker as one verb meets it: the account it stands for, if there is a default broker, and
      what it answers to an order placed for a bot. */
  datatype Venue = Venue(home: Option<string>, replies: (string, Order) -> Reply)

  function SellAll(h: Holding): Order { Order(h.symbol, Sell, h.quantity) }

  function SaleFill(h: Holding, r: OrderResult): Fill {
    Fill(h.symbol, Sell, r.filledQuantity, r.filledPrice, r.fees)
  }

  /** Selling one position; false where the program raises.  Without a default broker it raises. */
  function SellOne(l: LedgerState, a: Option<Account>, bot: string, h: Holding, v: Venue)
    : (LedgerState, Option<Account>, bool)
  {
    if a.None? then (l, a, false)
    else
      var reply := v.replies(bot, SellAll(h));
      var sent := Some(AfterSubmit(a.value, SellAll(h), reply));
      if reply.Raises? then (l, sent, false)
      else if reply.result.filledQuantity <= 0.0 then (l, sent, true)
      else
        var (m, o) := AfterFill(l, SaleFill(h, reply.result));
        (m, sent, o.Recorded?)
  }

  /** Going through the positions `hs` in order and selling those wanted, until one raises. */
  function Sweep(
    l: LedgerState, a: Option<Account>, bot: string, hs: seq<Holding>, wanted: Holding -> bool, v: Venue)
    : (LedgerState, Option<Account>, bool)
    decreases |hs|
  {
    if |hs| == 0 then (l, a, true)
    else if !wanted(hs[0]) then Sweep(l, a, bot, hs[1..], wanted, v)
    else
      var (m, sent, ok) := SellOne(l, a, bot, hs[0], v);
      if ok then Sweep(m, sent, bot, hs[1..], wanted, v) else (m, sent, false)
  }

  /** The account liquidation goes through. */
  function HomeAccount(d: Desk, v: Venue): Option<Account> {
    if v.home.Some? && v.home.value in d.accounts then Some(d.accounts[v.home.value]) else None
  }

  function SweepBot(d: Desk, bot: string, wanted: Holding -> bool, v: Venue): (Desk, bool)
    requires bot in d.ledgers
  {
    var (l, a, ok) := Sweep(d.ledgers[bot], HomeAccount(d, v), bot, d.ledgers[bot].books.positions, wanted, v);
    (d.(ledgers := d.ledgers[bot := l],
        accounts := if v.home.Some? && a.Some? then d.accounts[v.home.value := a.value] else d.accounts), ok)
  }

  function SweepAll(d: Desk, bots: seq<string>, wanted: Holding -> bool, v: Venue): (Desk, bool)
    requires forall b :: b in bots ==> b in d.ledgers
    decreases |bots|
  {
    if |bots| == 0 then (d, true)
    else
      var (e, ok) := SweepBot(d, bots[0], wanted, v);
      if ok then SweepAll(e, bots[1..], wanted, v) else (e, false)
  }

  lemma SweepStep(
    l: LedgerState, a: Option<Account>, bot: string, hs: seq<Holding>, i: nat,
    wanted: Holding -> bool, v: Venue)
    requires i < |hs|
    ensures Sweep(l, a, bot, hs[i..], wanted, v)
            == if !wanted(hs[i]) then Sweep(l, a, bot, hs[i + 1..], wanted, v)
               else
                 var (m, sent, ok) := SellOne(l, a, bot, hs[i], v);
                 if ok then Sweep(m, sent, bot, hs[i + 1..], wanted, v) else (m, sent, false)
  {
    assert hs[i..][1..] == hs[i + 1..];
  }

  lemma SweepNothing(l: LedgerState, a: Option<Account>, bot: string, wanted: Holding -> bool, v: Venue)
    ensures Sweep(l, a, bot, [], wanted, v) == (l, a, true)
  {
  }

  lemma SweepAllStep(d: Desk, bots: seq<string>, i: nat, wanted: Holding -> bool, v: Venue)
    requires i < |bots| && forall b :: b in bots ==> b in d.ledgers
    ensures var (e, ok) := SweepBot(d, bots[i], wanted, v);
            SweepAll(d, bots[i..], wanted, v) == if ok then SweepAll(e, bots[i + 1..], wanted, v) else (e, false)
  {
    assert bots[i..][1..] == bots[i + 1..];
  }

  lemma SweepAllNothing(d: Desk, wanted: Holding -> bool, v: Venue)
    ensures SweepAll(d, [], wanted, v) == (d, true)
  {
  }

  /** A verb is for one bot, or for the desk if no bot (or an empty name) is given. */
  predicate ForDesk(botId: Option<string>) { botId.None? || botId.value == "" }

  function Targets<V>(ledgers: map<string, V>, order: seq<string>, botId: Option<string>): seq<string> {
    if ForDesk(botId) then order
    else if botId.value in ledgers then [botId.value] else []
  }

  ghost predicate Targeted(d: Desk, botId: Option<string>, b: string) {
    b in d.ledgers && (botId == None || botId == Some("") || botId == Some(b))
  }

  function AfterHalt(risk: RiskState, botId: Option<string>): RiskState {
    if ForDesk(botId) then risk.(deskHalted := true)
    else risk.(haltedBots := risk.haltedBots + {botId.value})
  }

  /** Selling what is wanted and then halting; an exception on the way leaves the halt unset. */
  function SellAndHalt(
    d: Desk, order: seq<string>, botId: Option<string>, wanted: Holding -> bool, v: Venue): (Desk, bool)
    requires Enumerates(order, d.ledgers)
  {
    var (e, ok) := SweepAll(d, Targets(d.ledgers, order, botId), wanted, v);
    (if ok then e.(risk := AfterHalt(d.risk, botId)) else e, ok)
  }

  function Everything(): Holding -> bool { (h: Holding) => true }

  function Winners(prices: Prices): Holding -> bool {
    (h: Holding) => h.symbol in prices && prices[h.symbol] > h.costBasis
  }

  datatype Verb = HaltAndStop | HaltAndLiquidate | HaltAndSellGains

  function WantedBy(verb: Verb, prices: Prices): Holding -> bool {
    match verb
    case HaltAndStop => (h: Holding) => false
    case HaltAndLiquidate => Everything()
    case HaltAndSellGains => Winners(prices)
  }

  /** One verb on the desk; false where an order raises. */
  function AfterVerb(
    d: Desk, order: seq<string>, verb: Verb, botId: Option<string>, prices: Prices, v: Venue): (Desk, bool)
    requires Enumerates(order, d.ledgers)
  {
    if verb.HaltAndStop? then (d.(risk := AfterHalt(d.risk, botId)), true)
    else SellAndHalt(d, order, botId, WantedBy(verb, prices), v)
  }

  // ---------- One sale ----------

  /** Selling from a position that stands after others: a sale of at most what it holds is accepted, shrinks
      or removes it, and leaves all others as they are. */
  lemma {:induction false} SaleShrinks(b: Books, kept: seq<Holding>, hs: seq<Holding>, f: Fill)
    returns (left: seq<Holding>)
    requires |hs| > 0 && b.positions == kept + hs && WellFormed(b.positions)
    requires f.side.Sell? && f.symbol == hs[0].symbol && f.quantity > 0.0
    ensures Settle(b, f).1.Recorded? <==> f.quantity <= hs[0].quantity
    ensures f.quantity <= hs[0].quantity ==>
              Settle(b, f).0.positions == kept + left + hs[1..] && WellFormed(kept + left + hs[1..])
    ensures f.quantity == hs[0].quantity ==> left == []
  {
    hide RealizedBy;
    var ps, i, h := b.positions, |kept|, hs[0];
    assert ps[i] == h;
    FirstIsWhereItStands(ps, i);
    left := if f.quantity == h.quantity then [] else [h.(quantity := h.quantity - f.quantity)];
    assert ps[..i] == kept && ps[i + 1..] == hs[1..];
    if 0.0 < f.quantity < h.quantity {
      assert ps[i := left[0]] == kept + left + hs[1..];
    } else {
      assert kept + [] + hs[1..] == kept + hs[1..];
    }
    if f.quantity <= h.quantity {
      FillKeepsWellFormed(b, f);
    }
  }

  lemma FirstIsWhereItStands(ps: seq<Holding>, i: nat)
    requires WellFormed(ps) && i < |ps|
    ensures FirstIn(ps, ps[i].symbol) == i && ps[i].quantity > 0.0
  {
    assert ps[i] in ps;
  }

  // ---------- When a verb gets as far as its halt ----------

  /** The sale of a position does not raise: the broker answers, with a fill of at most what is held. */
  ghost predicate GoesThrough(bot: string, h: Holding, v: Venue) {
    var reply := v.replies(bot, SellAll(h));
    reply.Reports? && reply.result.filledQuantity <= h.quantity
  }

  lemma {:induction false} SweepEndsIff(
    l: LedgerState, a: Option<Account>, bot: string, kept: seq<Holding>, hs: seq<Holding>,
    wanted: Holding -> bool, v: Venue)
    requires l.books.positions == kept + hs && WellFormed(kept + hs)
    ensures var (m, sent, ok) := Sweep(l, a, bot, hs, wanted, v);
            && (ok <==> forall h :: h in hs && wanted(h) ==> a.Some? && GoesThrough(bot, h, v))
            && (sent.Some? <==> a.Some?)
    decreases |hs|
  {
    hide Settle, WellFormed;
    if |hs| > 0 {
      var h, rest := hs[0], hs[1..];
      assert hs == [h] + rest;
      var reply := v.replies(bot, SellAll(h));
      if !wanted(h) {
        assert kept + hs == (kept + [h]) + rest;
        SweepEndsIff(l, a, bot, kept + [h], rest, wanted, v);
      } else if a.Some? && reply.Reports? {
        var (m, sent, ok) := SellOne(l, a, bot, h, v);
        var left := [h];
        assert kept + hs == kept + left + rest;
        if reply.result.filledQuantity > 0.0 {
          left := SaleShrinks(l.books, kept, hs, SaleFill(h, reply.result));
        } else {
          SoldNothing(kept, hs);
        }
        if ok {
          SweepEndsIff(m, sent, bot, kept + left, rest, wanted, v);
        }
      }
    }
  }

  lemma SoldNothing(kept: seq<Holding>, hs: seq<Holding>)
    requires |hs| > 0 && WellFormed(kept + hs)
    ensures hs[0].quantity > 0.0
  {
    assert hs[0] in kept + hs;
  }

  /** Every wanted position of the bot can be sold without an exception. */
  ghost predicate BotGoesThrough(d: Desk, b: string, wanted: Holding -> bool, v: Venue)
    requires b in d.ledgers
  {
    forall h :: h in BooksOf(d, b).positions && wanted(h) ==> HomeAccount(d, v).Some? && GoesThrough(b, h, v)
  }

  ghost predicate AllGoThrough(d: Desk, botId: Option<string>, wanted: Holding -> bool, v: Venue) {
    forall b :: Targeted(d, botId, b) ==> BotGoesThrough(d, b, wanted, v)
  }

  lemma {:induction false} SweepBotEndsIff(d: Desk, b: string, wanted: Holding -> bool, v: Venue)
    requires AllWellFormed(d) && b in d.ledgers
    ensures var (e, ok) := SweepBot(d, b, wanted, v);
            && (ok <==> BotGoesThrough(d, b, wanted, v))
            && AllWellFormed(e) && e.ledgers.Keys == d.ledgers.Keys
            && forall c :: c in d.ledgers && c != b ==>
                 (BotGoesThrough(e, c, wanted, v) <==> BotGoesThrough(d, c, wanted, v))
  {
    hide Sweep, LedgerModel.WellFormed, GoesThrough;
    var ps := d.ledgers[b].books.positions;
    assert [] + ps == ps;
    SweepEndsIff(d.ledgers[b], HomeAccount(d, v), b, [], ps, wanted, v);
    SweepKeepsWellFormed(d, b, wanted, v);
  }

  lemma {:induction false} SweepAllEndsIff(d: Desk, bots: seq<string>, wanted: Holding -> bool, v: Venue)
    requires AllWellFormed(d) && forall b :: b in bots ==> b in d.ledgers
    requires forall i, j :: 0 <= i < j < |bots| ==> bots[i] != bots[j]
    ensures SweepAll(d, bots, wanted, v).1 <==> forall b :: b in bots ==> BotGoesThrough(d, b, wanted, v)
    decreases |bots|
  {
    hide SweepBot, AllWellFormed, BotGoesThrough;
    if |bots| > 0 {
      var b, rest := bots[0], bots[1..];
      SweepBotEndsIff(d, b, wanted, v);
      var (e, ok) := SweepBot(d, b, wanted, v);
      assert bots == [b] + rest && b !in rest;
      if ok {
        SweepAllEndsIff(e, rest, wanted, v);
      }
    }
  }

  lemma SweepKeepsWellFormed(d: Desk, bot: string, wanted: Holding -> bool, v: Venue)
    requires AllWellFormed(d) && bot in d.ledgers
    ensures AllWellFormed(SweepBot(d, bot, wanted, v).0)
  {
    hide LedgerModel.WellFormed, Sweep;
    SweptIsWellFormed(d.ledgers[bot], HomeAccount(d, v), bot, d.ledgers[bot].books.positions, wanted, v);
  }

  lemma {:induction false} SweptIsWellFormed(
    l: LedgerState, a: Option<Account>, bot: string, hs: seq<Holding>, wanted: Holding -> bool, v: Venue)
    requires WellFormed(l.books.positions)
    ensures WellFormed(Sweep(l, a, bot, hs, wanted, v).0.books.positions)
    decreases |hs|
  {
    hide Settle, WellFormed;
    if |hs| > 0 {
      if wanted(hs[0]) {
        var reply := v.replies(bot, SellAll(hs[0]));
        if reply.Reports? && reply.result.filledQuantity > 0.0 {
          FillKeepsWellFormed(l.books, SaleFill(hs[0], reply.result));
        }
        var (m, sent, ok) := SellOne(l, a, bot, hs[0], v);
        SweptIsWellFormed(m, sent, bot, hs[1..], wanted, v);
      } else {
        SweptIsWellFormed(l, a, bot, hs[1..], wanted, v);
      }
    }
  }

  lemma TargetsAre(d: Desk, order: seq<string>, botId: Option<string>)
    requires Enumerates(order, d.ledgers)
    ensures var bots := Targets(d.ledgers, order, botId);
            && (forall b :: b in bots <==> Targeted(d, botId, b))
            && (forall i, j :: 0 <= i < j < |bots| ==> bots[i] != bots[j])
  {
  }

  /** A verb sets its halt exactly when there is a default broker for what it has to sell and no order of it
      raises or is filled beyond the position; otherwise nothing is halted that was not before. */
  lemma {:induction false} HaltIsSetIff(
    d: Desk, order: seq<string>, botId: Option<string>, wanted: Holding -> bool, v: Venue)
    requires AllWellFormed(d) && Enumerates(order, d.ledgers)
    ensures var (e, ok) := SellAndHalt(d, order, botId, wanted, v);
            && (ok <==> AllGoThrough(d, botId, wanted, v))
            && e.ledgers.Keys == d.ledgers.Keys
            && e.risk == (if AllGoThrough(d, botId, wanted, v) then AfterHalt(d.risk, botId) else d.risk)
            && (e.risk.deskHalted <==>
                  || d.risk.deskHalted
                  || (AllGoThrough(d, botId, wanted, v) && (botId == None || botId == Some(""))))
            && (forall b :: Targeted(d, botId, b) && !Stopped(d.risk, b) ==>
                  (Stopped(e.risk, b) <==> AllGoThrough(d, botId, wanted, v)))
            && forall b :: b in d.ledgers && !Targeted(d, botId, b) ==>
                 (Stopped(e.risk, b) <==> Stopped(d.risk, b))
  {
    hide SweepAll, AllWellFormed, BotGoesThrough;
    var bots := Targets(d.ledgers, order, botId);
    TargetsAre(d, order, botId);
    SweepAllEndsIff(d, bots, wanted, v);
    SweepAllKeepsSettings(d, bots, wanted, v);
  }

  lemma {:induction false} SweepAllKeepsSettings(d: Desk, bots: seq<string>, wanted: Holding -> bool, v: Venue)
    requires forall b :: b in bots ==> b in d.ledgers
    ensures var e := SweepAll(d, bots, wanted, v).0;
            && e.risk == d.risk && e.store == d.store && e.cfg == d.cfg && e.halts == d.halts
            && e.ledgers.Keys == d.ledgers.Keys && e.accounts.Keys == d.accounts.Keys
            && forall id :: id in d.accounts && v.home != Some(id) ==> e.accounts[id] == d.accounts[id]
    decreases |bots|
  {
    hide SellOne;
    if |bots| > 0 {
      var b := bots[0];
      SweepKeepsHome(d.ledgers[b], HomeAccount(d, v), b, d.ledgers[b].books.positions, wanted, v);
      hide Sweep;
      SweepAllKeepsSettings(SweepBot(d, b, wanted, v).0, bots[1..], wanted, v);
    }
  }

  lemma {:induction false} SweepKeepsHome(
    l: LedgerState, a: Option<Account>, bot: string, hs: seq<Holding>, wanted: Holding -> bool, v: Venue)
    ensures Sweep(l, a, bot, hs, wanted, v).1.Some? <==> a.Some?
    decreases |hs|
  {
    hide AfterFill, AfterSubmit;
    if |hs| > 0 {
      var (m, sent, ok) := SellOne(l, a, bot, hs[0], v);
      SweepKeepsHome(m, sent, bot, hs[1..], wanted, v);
      SweepKeepsHome(l, a, bot, hs[1..], wanted, v);
    }
  }

  /** Positions sold and no halt: liquidating a bot that holds two symbols, of which the second order raises,
      sells the first and leaves the bot and the desk unhalted. */
  lemma {:induction false} PartlySoldAndUnhalted(cfg: RiskConfig)
    ensures var a, b := Holding("A", 1.0, 1.0), Holding("B", 1.0, 1.0);
            var l := LedgerState(Books(100.0, 0.0, 100.0, [a, b]), [], []);
            var d := Desk(cfg, RiskState({}, false, 0.0), None, map["bot" := l], None,
                          map["home" := Account([], map[])]);
            var v := Venue(Some("home"), (bot: string, o: Order) =>
                       if o.symbol == "A" then Reports(OrderResult(o.quantity, 1.0, NO_FEES)) else Raises);
            var (e, ok) := SellAndHalt(d, ["bot"], None, Everything(), v);
            && !ok && e.ledgers["bot"].books.positions == [b]
            && e.risk == d.risk && !Stopped(e.risk, "bot")
  {
    hide Settle, AfterSubmit, WellFormed;
    var a, b := Holding("A", 1.0, 1.0), Holding("B", 1.0, 1.0);
    var l := LedgerState(Books(100.0, 0.0, 100.0, [a, b]), [], []);
    var d := Desk(cfg, RiskState({}, false, 0.0), None, map["bot" := l], None, map["home" := Account([], map[])]);
    var v := Venue(Some("home"), (bot: string, o: Order) =>
               if o.symbol == "A" then Reports(OrderResult(o.quantity, 1.0, NO_FEES)) else Raises);
    TwoPositions(a, b);
    var sold := SaleFill(a, OrderResult(1.0, 1.0, NO_FEES));
    assert [] + [a, b] == [a, b] && [a, b][1..] == [b] && [b][1..] == [];
    var left := SaleShrinks(l.books, [], [a, b], sold);
    assert [] + left + [b] == [b];
    var (m, sent, ok) := SellOne(l, HomeAccount(d, v), "bot", a, v);
    assert ok && m.books.positions == [b];
    assert !SellOne(m, sent, "bot", b, v).2;
    assert Sweep(m, sent, "bot", [b], Everything(), v).0 == m;
    assert Targets(d.ledgers, ["bot"], None) == ["bot"];
  }

  lemma TwoPositions(a: Holding, b: Holding)
    requires a.symbol != b.symbol && a.quantity > 0.0 && b.quantity > 0.0
    ensures WellFormed([a, b])
  {
  }

  // ---------- What a sweep sends, records and earns ----------

  /** The fill that the broker's answer for a position stands for, if it fills anything. */
  ghost function Answer(bot: string, h: Holding, v: Venue): seq<Fill> {
    match v.replies(bot, Order(h.symbol, Sell, h.quantity))
    case Raises => []
    case Reports(r) =>
      if r.filledQuantity <= 0.0 then [] else [Fill(h.symbol, Sell, r.filledQuantity, r.filledPrice, r.fees)]
  }

  ghost function Answers(bot: string, hs: seq<Holding>, wanted: Holding -> bool, v: Venue): seq<Fill> {
    if |hs| == 0 then []
    else (if wanted(hs[0]) then Answer(bot, hs[0], v) else []) + Answers(bot, hs[1..], wanted, v)
  }

  ghost function FeesOf(fills: seq<Fill>): seq<FeeBreakdown> {
    if |fills| == 0 then [] else [fills[0].fees] + FeesOf(fills[1..])
  }

  /** The fills are added to the order history and their fees to the fee ledger. */
  ghost predicate Records(l: LedgerState, fills: seq<Fill>, m: LedgerState) {
    m.orderHistory == l.orderHistory + fills && m.feeLedger == l.feeLedger + FeesOf(fills)
  }

  lemma RecordsNothing(l: LedgerState)
    ensures Records(l, [], l)
  {
  }

  lemma RecordsMore(l: LedgerState, fills: seq<Fill>, m: LedgerState, more: seq<Fill>, n: LedgerState)
    requires Records(l, fills, m) && Records(m, more, n)
    ensures Records(l, fills + more, n)
  {
    FeesOfConcat(fills, more);
  }

  lemma Associates<T>(a: seq<T>, b: seq<T>, c: seq<T>)
    ensures (a + b) + c == a + (b + c)
  {
  }

  /** One market order for the whole of each wanted position. */
  ghost function OrdersFor(hs: seq<Holding>, wanted: Holding -> bool): seq<Order> {
    if |hs| == 0 then []
    else (if wanted(hs[0]) then [Order(hs[0].symbol, Sell, hs[0].quantity)] else []) + OrdersFor(hs[1..], wanted)
  }

  /** The cash the answers bring less the basis of what they sell. */
  ghost function Profit(bot: string, hs: seq<Holding>, wanted: Holding -> bool, v: Venue): real {
    if |hs| == 0 then 0.0
    else
      var sold := if wanted(hs[0]) then Answer(bot, hs[0], v) else [];
      (if sold == [] then 0.0 else CashFlow(sold[0]) - hs[0].costBasis * sold[0].quantity)
      + Profit(bot, hs[1..], wanted, v)
  }

  lemma {:induction false} SaleOfOne(
    l: LedgerState, a: Option<Account>, bot: string, kept: seq<Holding>, hs: seq<Holding>, v: Venue)
    returns (left: seq<Holding>)
    requires a.Some? && |hs| > 0 && l.books.positions == kept + hs && WellFormed(kept + hs)
    ensures var (m, sent, ok) := SellOne(l, a, bot, hs[0], v);
            var sold := Answer(bot, hs[0], v);
            && Records(l, sold, m)
            && sent.Some? && sent.value.orders == a.value.orders + [Order(hs[0].symbol, Sell, hs[0].quantity)]
            && (ok ==>
                  && m.books.positions == kept + left + hs[1..] && WellFormed(kept + left + hs[1..])
                  && m.books.realizedPnl
                     == l.books.realizedPnl
                        + (if sold == [] then 0.0 else CashFlow(sold[0]) - hs[0].costBasis * sold[0].quantity))
  {
    hide Settle, WellFormed, CashFlow;
    var h, reply := hs[0], v.replies(bot, SellAll(hs[0]));
    left := [h];
    assert kept + hs == kept + [h] + hs[1..];
    assert l.orderHistory + [] == l.orderHistory && l.feeLedger + [] == l.feeLedger;
    if reply.Reports? && reply.result.filledQuantity > 0.0 {
      var f := SaleFill(h, reply.result);
      assert FeesOf([f]) == [f.fees];
      left := SaleShrinks(l.books, kept, hs, f);
      if Settle(l.books, f).1.Recorded? {
        SellRealizes(l.books, f);
        FirstIsWhereItStands(kept + hs, |kept|);
      }
    }
  }

  /** What a sweep sends, records and earns, said of the broker's answers alone.  The fills recorded, with
      their prices and fees, are the first of the answers; when nothing raises they are all of them, the
      account has one order for the whole of each wanted position, and the realized profit grows by the cash
      of the answers less the basis of what was sold. */
  lemma {:induction false} SweepRecordsAnswers(
    l: LedgerState, a: Option<Account>, bot: string, kept: seq<Holding>, hs: seq<Holding>,
    wanted: Holding -> bool, v: Venue) returns (done: seq<Fill>)
    requires a.Some? && l.books.positions == kept + hs && WellFormed(kept + hs)
    ensures var (m, sent, ok) := Sweep(l, a, bot, hs, wanted, v);
            && done <= Answers(bot, hs, wanted, v) && Records(l, done, m)
            && (ok ==>
                  && done == Answers(bot, hs, wanted, v)
                  && sent.Some? && sent.value.orders == a.value.orders + OrdersFor(hs, wanted)
                  && m.books.realizedPnl == l.books.realizedPnl + Profit(bot, hs, wanted, v))
    decreases |hs|
  {
    hide WellFormed, SellOne, Answer, CashFlow, Records;
    done := [];
    RecordsNothing(l);
    assert a.value.orders + [] == a.value.orders;
    if |hs| > 0 {
      var h, rest := hs[0], hs[1..];
      if !wanted(h) {
        assert kept + hs == (kept + [h]) + rest;
        done := SweepRecordsAnswers(l, a, bot, kept + [h], rest, wanted, v);
        assert [] + Answers(bot, rest, wanted, v) == Answers(bot, rest, wanted, v);
        assert [] + OrdersFor(rest, wanted) == OrdersFor(rest, wanted);
      } else {
        var (m, sent, ok) := SellOne(l, a, bot, h, v);
        var left := SaleOfOne(l, a, bot, kept, hs, v);
        var sold := Answer(bot, h, v);
        done := sold;
        if ok {
          var more := SweepRecordsAnswers(m, sent, bot, kept + left, rest, wanted, v);
          RecordsMore(l, sold, m, more, Sweep(m, sent, bot, rest, wanted, v).0);
          Associates(a.value.orders, [Order(h.symbol, Sell, h.quantity)], OrdersFor(rest, wanted));
          done := sold + more;
        }
      }
    }
  }

  lemma {:induction false} FeesOfConcat(fills: seq<Fill>, more: seq<Fill>)
    ensures FeesOf(fills + more) == FeesOf(fills) + FeesOf(more)
  {
    if |fills| > 0 {
      assert (fills + more)[1..] == fills[1..] + more;
      FeesOfConcat(fills[1..], more);
    } else {
      assert fills + more == more;
    }
  }

  // ---------- What the sweeps leave ----------

  /** The broker fills every order in full. */
  ghost predicate FillsInFull(v: Venue) {
    forall bot, o :: v.replies(bot, o).Reports? && v.replies(bot, o).result.filledQuantity == o.quantity
  }

  function Kept(hs: seq<Holding>, wanted: Holding -> bool): seq<Holding> {
    if |hs| == 0 then []
    else (if wanted(hs[0]) then [] else [hs[0]]) + Kept(hs[1..], wanted)
  }

  lemma {:induction false} SaleInFull(
    l: LedgerState, a: Option<Account>, bot: string, kept: seq<Holding>, hs: seq<Holding>, v: Venue)
    requires a.Some? && FillsInFull(v) && |hs| > 0
    requires l.books.positions == kept + hs && WellFormed(kept + hs)
    ensures var (m, sent, ok) := SellOne(l, a, bot, hs[0], v);
            && ok && sent.Some?
            && m.books.positions == kept + hs[1..] && WellFormed(kept + hs[1..])
  {
    hide Settle, WellFormed;
    SoldNothing(kept, hs);
    var reply := v.replies(bot, SellAll(hs[0]));
    var left := SaleShrinks(l.books, kept, hs, SaleFill(hs[0], reply.result));
    assert kept + left + hs[1..] == kept + hs[1..];
  }

  /** Against a broker that fills in full, a sweep sells exactly the wanted positions and leaves the others
      unchanged and in order. */
  lemma {:induction false} SweepKeepsUnwanted(
    l: LedgerState, a: Option<Account>, bot: string, kept: seq<Holding>, hs: seq<Holding>,
    wanted: Holding -> bool, v: Venue)
    requires a.Some? && FillsInFull(v)
    requires l.books.positions == kept + hs && WellFormed(kept + hs)
    ensures var (m, sent, ok) := Sweep(l, a, bot, hs, wanted, v);
            && ok && sent.Some? && m.books.positions == kept + Kept(hs, wanted)
    decreases |hs|
  {
    hide WellFormed, SellOne, FillsInFull;
    if |hs| > 0 {
      var h, rest := hs[0], hs[1..];
      if wanted(h) {
        SaleInFull(l, a, bot, kept, hs, v);
        var (m, sent, ok) := SellOne(l, a, bot, h, v);
        SweepKeepsUnwanted(m, sent, bot, kept, rest, wanted, v);
        assert Kept(hs, wanted) == Kept(rest, wanted);
      } else {
        assert kept + hs == (kept + [h]) + rest;
        SweepKeepsUnwanted(l, a, bot, kept + [h], rest, wanted, v);
        assert kept + Kept(hs, wanted) == (kept + [h]) + Kept(rest, wanted);
      }
    } else {
      assert kept + hs == kept + Kept(hs, wanted);
    }
  }

  lemma {:induction false} SweepAllKeepsUnwanted(
    d: Desk, bots: seq<string>, wanted: Holding -> bool, v: Venue)
    requires HomeAccount(d, v).Some? && FillsInFull(v) && AllWellFormed(d)
    requires forall b :: b in bots ==> b in d.ledgers
    requires forall i, j :: 0 <= i < j < |bots| ==> bots[i] != bots[j]
    ensures var (e, ok) := SweepAll(d, bots, wanted, v);
            && ok && e.ledgers.Keys == d.ledgers.Keys
            && (forall b :: b in d.ledgers && b !in bots ==> e.ledgers[b] == d.ledgers[b])
            && (forall b :: b in bots ==>
                  BooksOf(e, b).positions == Kept(BooksOf(d, b).positions, wanted))
    decreases |bots|
  {
    hide Sweep, LedgerModel.WellFormed, Kept;
    if |bots| > 0 {
      var b := bots[0];
      var ps := d.ledgers[b].books.positions;
      assert [] + ps == ps;
      SweepKeepsUnwanted(d.ledgers[b], HomeAccount(d, v), b, [], ps, wanted, v);
      assert [] + Kept(ps, wanted) == Kept(ps, wanted);
      SweepKeepsWellFormed(d, b, wanted, v);
      SweepAllKeepsUnwanted(SweepBot(d, b, wanted, v).0, bots[1..], wanted, v);
      assert forall c :: c in bots <==> c == b || c in bots[1..];
      assert b !in bots[1..];
    }
  }

  lemma {:induction false} KeptIsWellFormed(ps: seq<Holding>, wanted: Holding -> bool)
    requires WellFormed(ps)
    ensures WellFormed(Kept(ps, wanted))
    ensures forall h :: h in Kept(ps, wanted) <==> h in ps && !wanted(h)
  {
    if |ps| > 0 {
      assert WellFormed(ps[1..]);
      KeptIsWellFormed(ps[1..], wanted);
      assert ps == [ps[0]] + ps[1..];
      forall h | h in Kept(ps[1..], wanted)
        ensures h.symbol != ps[0].symbol
      {
        var i :| 0 <= i < |ps[1..]| && ps[1..][i] == h;
        assert ps[i + 1] == h;
      }
    }
  }

  lemma {:induction false} KeptOfEverything(ps: seq<Holding>)
    ensures Kept(ps, Everything()) == []
  {
    if |ps| > 0 {
      KeptOfEverything(ps[1..]);
    }
  }

  lemma TargetedIsHalted(d: Desk, botId: Option<string>)
    ensures forall b :: Targeted(d, botId, b) ==> b in d.ledgers && Stopped(AfterHalt(d.risk, botId), b)
  {
  }

  /** Halt-and-liquidate against a broker that fills in full: every targeted ledger ends flat and halted,
      and no other ledger changes. */
  lemma {:induction false} LiquidateFlattens(d: Desk, order: seq<string>, botId: Option<string>, v: Venue)
    requires HomeAccount(d, v).Some? && FillsInFull(v) && AllWellFormed(d) && Enumerates(order, d.ledgers)
    ensures var (e, ok) := SellAndHalt(d, order, botId, Everything(), v);
            && ok && e.ledgers.Keys == d.ledgers.Keys
            && forall b :: b in d.ledgers ==>
                 if Targeted(d, botId, b) then BooksOf(e, b).positions == [] && Stopped(e.risk, b)
                 else e.ledgers[b] == d.ledgers[b]
  {
    hide SweepAll, AllWellFormed, Targets, Targeted, FillsInFull, Kept;
    var bots := Targets(d.ledgers, order, botId);
    TargetsAre(d, order, botId);
    TargetedIsHalted(d, botId);
    SweepAllKeepsUnwanted(d, bots, Everything(), v);
    forall b | b in bots
      ensures Kept(BooksOf(d, b).positions, Everything()) == []
    {
      KeptOfEverything(BooksOf(d, b).positions);
    }
  }

  /** Halt-and-sell-gains: a targeted ledger keeps, unchanged, exactly the positions that have no price or
      are priced at or below their basis. */
  lemma {:induction false} SellGainsKeepsLosers(
    d: Desk, order: seq<string>, botId: Option<string>, prices: Prices, v: Venue)
    requires HomeAccount(d, v).Some? && FillsInFull(v) && AllWellFormed(d) && Enumerates(order, d.ledgers)
    ensures var (e, ok) := SellAndHalt(d, order, botId, Winners(prices), v);
            && ok && e.ledgers.Keys == d.ledgers.Keys
            && forall b :: b in d.ledgers ==>
                 if Targeted(d, botId, b) then
                   && Stopped(e.risk, b)
                   && DistinctSymbols(BooksOf(e, b).positions)
                   && (forall h :: h in BooksOf(e, b).positions <==>
                         h in BooksOf(d, b).positions && (h.symbol !in prices || prices[h.symbol] <= h.costBasis))
                 else e.ledgers[b] == d.ledgers[b]
  {
    hide SweepAll, Kept, Targets, Targeted, FillsInFull;
    var bots := Targets(d.ledgers, order, botId);
    TargetsAre(d, order, botId);
    TargetedIsHalted(d, botId);
    SweepAllKeepsUnwanted(d, bots, Winners(prices), v);
    forall b | b in bots
      ensures DistinctSymbols(Kept(BooksOf(d, b).positions, Winners(prices)))
      ensures forall h :: h in Kept(BooksOf(d, b).positions, Winners(prices))
                <==> h in BooksOf(d, b).positions && (h.symbol !in prices || prices[h.symbol] <= h.costBasis)
    {
      KeptIsWellFormed(BooksOf(d, b).positions, Winners(prices));
    }
  }

  /** Whatever bots the ledgers belong to, the shares are sold from the default account: the accounts of their
      orgs are left as they were. */
  lemma {:induction false} OnlyHomeIsTouched(
    d: Desk, order: seq<string>, verb: Verb, botId: Option<string>, prices: Prices, v: Venue, id: string)
    requires Enumerates(order, d.ledgers) && id in d.accounts && v.home != Some(id)
    ensures var e := AfterVerb(d, order, verb, botId, prices, v).0;
            id in e.accounts && e.accounts[id] == d.accounts[id]
  {
    SweepAllKeepsSettings(d, Targets(d.ledgers, order, botId), WantedBy(verb, prices), v);
  }

  // ---------- After the verb ----------

  /** After any verb that got as far as its halt, no run of the pipeline submits an order for a targeted bot
      or changes its ledger in any respect. */
  lemma {:induction false} KilledBotsStayFrozen(
    d: Desk, order: seq<string>, verb: Verb, botId: Option<string>, prices: Prices, v: Venue, calls: seq<Call>,
    b: string)
    requires AllWellFormed(d) && Enumerates(order, d.ledgers) && Targeted(d, botId, b)
    requires AllGoThrough(d, botId, WantedBy(verb, prices), v)
    ensures var e := AfterVerb(d, order, verb, botId, prices, v).0;
            && b in e.ledgers && b in RunDesk(e, calls).ledgers
            && RunDesk(e, calls).ledgers[b] == e.ledgers[b]
            && forall k :: 0 <= k < |calls| && calls[k].intent.botId == b ==>
                 !Submits(RunDesk(e, calls[..k]), calls[k])
  {
    hide SellAndHalt, RunDesk, Submits, AllGoThrough;
    HaltIsSetIff(d, order, botId, WantedBy(verb, prices), v);
    HaltedBotIsFrozen(AfterVerb(d, order, verb, botId, prices, v).0, calls, b);
  }

  // ---------- What is not saved ----------

  /** Selling never adds shares. */
  lemma {:induction false} SweepNeverAdds(
    l: LedgerState, a: Option<Account>, bot: string, hs: seq<Holding>, wanted: Holding -> bool, v: Venue, sym: string)
    requires WellFormed(l.books.positions)
    ensures Held(Sweep(l, a, bot, hs, wanted, v).0.books.positions, sym) <= Held(l.books.positions, sym)
    decreases |hs|
  {
    hide Settle, WellFormed, Held;
    if |hs| > 0 {
      if wanted(hs[0]) {
        var (m, sent, ok) := SellOne(l, a, bot, hs[0], v);
        SaleNeverAdds(l, a, bot, hs[0], v, sym);
        SweepNeverAdds(m, sent, bot, hs[1..], wanted, v, sym);
      } else {
        SweepNeverAdds(l, a, bot, hs[1..], wanted, v, sym);
      }
    }
  }

  lemma {:induction false} SaleNeverAdds(
    l: LedgerState, a: Option<Account>, bot: string, h: Holding, v: Venue, sym: string)
    requires WellFormed(l.books.positions)
    ensures var m := SellOne(l, a, bot, h, v).0;
            WellFormed(m.books.positions) && Held(m.books.positions, sym) <= Held(l.books.positions, sym)
  {
    hide Settle, WellFormed, Held;
    var reply := v.replies(bot, SellAll(h));
    if a.Some? && reply.Reports? && reply.result.filledQuantity > 0.0 {
      var f := SaleFill(h, reply.result);
      FillKeepsWellFormed(l.books, f);
      if Settle(l.books, f).1.Recorded? {
        FillMovesShares(l.books, f, sym);
      } else {
        RejectedFillIsInert(l.books, f);
      }
    }
  }

  /** Some wanted position is sold at least in part before any order raises or is overfilled. */
  ghost predicate Trades(bot: string, hs: seq<Holding>, wanted: Holding -> bool, v: Venue)
    decreases |hs|
  {
    |hs| > 0
    && if !wanted(hs[0]) then Trades(bot, hs[1..], wanted, v)
       else
         && GoesThrough(bot, hs[0], v)
         && (v.replies(bot, SellAll(hs[0])).result.filledQuantity > 0.0 || Trades(bot, hs[1..], wanted, v))
  }

  /** A sweep changes the books exactly if it trades. */
  lemma {:induction false} SweepChangesIff(
    l: LedgerState, a: Option<Account>, bot: string, kept: seq<Holding>, hs: seq<Holding>,
    wanted: Holding -> bool, v: Venue)
    requires a.Some? && l.books.positions == kept + hs && WellFormed(kept + hs)
    ensures Sweep(l, a, bot, hs, wanted, v).0.books != l.books <==> Trades(bot, hs, wanted, v)
    decreases |hs|
  {
    hide Settle, WellFormed, Held;
    if |hs| > 0 {
      var h, rest := hs[0], hs[1..];
      var reply := v.replies(bot, SellAll(h));
      assert kept + hs == (kept + [h]) + rest;
      if !wanted(h) {
        SweepChangesIff(l, a, bot, kept + [h], rest, wanted, v);
      } else if reply.Reports? {
        var (m, sent, ok) := SellOne(l, a, bot, h, v);
        if reply.result.filledQuantity <= 0.0 {
          SoldNothing(kept, hs);
          SweepChangesIff(m, sent, bot, kept + [h], rest, wanted, v);
        } else {
          var f := SaleFill(h, reply.result);
          var left := SaleShrinks(l.books, kept, hs, f);
          if ok {
            FillMovesShares(l.books, f, h.symbol);
            SweepNeverAdds(m, sent, bot, rest, wanted, v, h.symbol);
          } else {
            RejectedFillIsInert(l.books, f);
          }
        }
      }
    }
  }

  lemma {:induction false} SweepWithoutHome(
    l: LedgerState, bot: string, hs: seq<Holding>, wanted: Holding -> bool, v: Venue)
    ensures Sweep(l, None, bot, hs, wanted, v).0 == l
    decreases |hs|
  {
    if |hs| > 0 && !wanted(hs[0]) {
      SweepWithoutHome(l, bot, hs[1..], wanted, v);
    }
  }

  /** The sweep of this bot's ledger would trade. */
  ghost predicate BotTrades(d: Desk, b: string, wanted: Holding -> bool, v: Venue)
    requires b in d.ledgers
  {
    HomeAccount(d, v).Some? && Trades(b, BooksOf(d, b).positions, wanted, v)
  }

  lemma {:induction false} SweepBotChangesIff(d: Desk, b: string, wanted: Holding -> bool, v: Venue)
    requires AllWellFormed(d) && b in d.ledgers
    ensures var e := SweepBot(d, b, wanted, v).0;
            && e.ledgers.Keys == d.ledgers.Keys
            && (BooksOf(e, b) != BooksOf(d, b) <==> BotTrades(d, b, wanted, v))
            && forall c :: c in d.ledgers && c != b ==>
                 e.ledgers[c] == d.ledgers[c] && BotTrades(e, c, wanted, v) == BotTrades(d, c, wanted, v)
  {
    hide Sweep, LedgerModel.WellFormed, Trades;
    var l, a, ps := d.ledgers[b], HomeAccount(d, v), BooksOf(d, b).positions;
    SweepKeepsHome(l, a, b, ps, wanted, v);
    if a.Some? {
      assert [] + ps == ps;
      SweepChangesIff(l, a, b, [], ps, wanted, v);
    } else {
      SweepWithoutHome(l, b, ps, wanted, v);
    }
  }

  /** Bot `i` has its turn, all before it going through, and trades in it. */
  ghost predicate TradesInTurn(d: Desk, bots: seq<string>, i: nat, wanted: Holding -> bool, v: Venue)
    requires i < |bots| && forall b :: b in bots ==> b in d.ledgers
  {
    && (forall j :: 0 <= j < i ==> BotGoesThrough(d, bots[j], wanted, v))
    && BotTrades(d, bots[i], wanted, v)
  }

  lemma {:induction false} UnsweptStays(d: Desk, bots: seq<string>, wanted: Holding -> bool, v: Venue, b: string)
    requires b in d.ledgers && b !in bots && forall c :: c in bots ==> c in d.ledgers
    ensures var e := SweepAll(d, bots, wanted, v).0; b in e.ledgers && e.ledgers[b] == d.ledgers[b]
    decreases |bots|
  {
    hide Sweep;
    if |bots| > 0 {
      UnsweptStays(SweepBot(d, bots[0], wanted, v).0, bots[1..], wanted, v, b);
    }
  }

  lemma {:induction false} SweepAllChangesIff(
    d: Desk, bots: seq<string>, wanted: Holding -> bool, v: Venue, i: nat)
    requires AllWellFormed(d) && (forall b :: b in bots ==> b in d.ledgers) && i < |bots|
    requires forall i, j :: 0 <= i < j < |bots| ==> bots[i] != bots[j]
    ensures var e := SweepAll(d, bots, wanted, v).0;
            && bots[i] in e.ledgers
            && (BooksOf(e, bots[i]) != BooksOf(d, bots[i]) <==> TradesInTurn(d, bots, i, wanted, v))
    decreases |bots|
  {
    hide SweepBot, AllWellFormed, BotGoesThrough, BotTrades;
    var b, rest := bots[0], bots[1..];
    assert bots == [b] + rest && b !in rest;
    SweepBotEndsIff(d, b, wanted, v);
    SweepBotChangesIff(d, b, wanted, v);
    var (e, ok) := SweepBot(d, b, wanted, v);
    if i == 0 {
      UnsweptStays(e, rest, wanted, v, b);
    } else if ok {
      SweepAllChangesIff(e, rest, wanted, v, i - 1);
      LaterTurn(d, e, bots, i, wanted, v);
    }
  }

  lemma LaterTurn(d: Desk, e: Desk, bots: seq<string>, i: nat, wanted: Holding -> bool, v: Venue)
    requires 0 < i < |bots| && (forall b :: b in bots ==> b in d.ledgers) && e.ledgers.Keys == d.ledgers.Keys
    requires BotGoesThrough(d, bots[0], wanted, v)
    requires forall b :: b in bots[1..] ==>
               && BotGoesThrough(e, b, wanted, v) == BotGoesThrough(d, b, wanted, v)
               && BotTrades(e, b, wanted, v) == BotTrades(d, b, wanted, v)
    ensures TradesInTurn(e, bots[1..], i - 1, wanted, v) <==> TradesInTurn(d, bots, i, wanted, v)
  {
    hide BotGoesThrough, BotTrades;
    var rest := bots[1..];
    if TradesInTurn(e, rest, i - 1, wanted, v) {
      forall j | 0 <= j < i
        ensures BotGoesThrough(d, bots[j], wanted, v)
      {
        if j > 0 {
          assert bots[j] == rest[j - 1];
        }
      }
    }
    forall j | 0 <= j < i
      ensures rest[j] == bots[j + 1] && rest[j] in rest
    {
    }
  }

  /** What a verb sells is not persisted.  With every snapshot up to date before, whatever the broker answers,
      they all are afterwards exactly when no bot with a snapshot trades in its turn; and a snapshot still
      reloads the positions from before the verb. */
  lemma {:induction false} SalesAreSavedIff(
    d: Desk, order: seq<string>, botId: Option<string>, wanted: Holding -> bool, v: Venue)
    requires AllWellFormed(d) && Enumerates(order, d.ledgers)
    requires d.store.Some? && SnapshotsCurrent(d)
    ensures var e, bots := SellAndHalt(d, order, botId, wanted, v).0, Targets(d.ledgers, order, botId);
            && e.store == d.store
            && (SnapshotsCurrent(e) <==>
                  forall i: nat :: i < |bots| && bots[i] in d.store.value.snapshots ==>
                    !TradesInTurn(d, bots, i, wanted, v))
            && forall b :: b in d.ledgers && b in e.store.value.snapshots ==>
                 Reload(e.store.value.snapshots[b]).books.positions == BooksOf(d, b).positions
  {
    hide SweepAll, AllWellFormed, TradesInTurn;
    var e, bots := SellAndHalt(d, order, botId, wanted, v).0, Targets(d.ledgers, order, botId);
    TargetsAre(d, order, botId);
    SweepAllKeepsSettings(d, bots, wanted, v);
    forall i: nat | i < |bots|
      ensures BooksOf(e, bots[i]) != BooksOf(d, bots[i]) <==> TradesInTurn(d, bots, i, wanted, v)
    {
      SweepAllChangesIff(d, bots, wanted, v, i);
    }
    forall b | b in d.ledgers && b !in bots
      ensures e.ledgers[b] == d.ledgers[b]
    {
      UnsweptStays(d, bots, wanted, v, b);
    }
    if forall i: nat :: i < |bots| && bots[i] in d.store.value.snapshots ==> !TradesInTurn(d, bots, i, wanted, v) {
      forall b | b in e.ledgers && b in e.store.value.snapshots
        ensures BooksOf(e, b) == BooksOf(d, b)
      {
        if b in bots {
          var i :| 0 <= i < |bots| && bots[i] == b;
        }
      }
    }
  }

  // ---------- Agreement with the brokers ----------

  /** The first order of the sweep to be filled beyond its position, if the sweep gets to one. */
  function Overfill(bot: string, hs: seq<Holding>, wanted: Holding -> bool, v: Venue): Option<Fill>
    decreases |hs|
  {
    if |hs| == 0 then None
    else if !wanted(hs[0]) then Overfill(bot, hs[1..], wanted, v)
    else
      var reply := v.replies(bot, SellAll(hs[0]));
      if reply.Raises? then None
      else if reply.result.filledQuantity > hs[0].quantity then Some(SaleFill(hs[0], reply.result))
      else Overfill(bot, hs[1..], wanted, v)
  }

  /** What an overfilled order takes from the account and not from the ledger. */
  ghost function Excess(f: Option<Fill>, sym: string): real {
    if f.Some? && f.value.symbol == sym then f.value.quantity else 0.0
  }

  /** A sweep takes the same from ledger and account, but for an overfilled order. */
  lemma {:induction false} SweepBalances(
    l: LedgerState, a: Option<Account>, bot: string, kept: seq<Holding>, hs: seq<Holding>,
    wanted: Holding -> bool, v: Venue, sym: string)
    requires a.Some? && l.books.positions == kept + hs && WellFormed(kept + hs)
    ensures var (m, sent, ok) := Sweep(l, a, bot, hs, wanted, v);
            && sent.Some?
            && Held(m.books.positions, sym) - HoldingIn(sent.value, sym)
               == Held(l.books.positions, sym) - HoldingIn(a.value, sym) + Excess(Overfill(bot, hs, wanted, v), sym)
    ensures Overfill(bot, hs, wanted, v).Some? ==> Overfill(bot, hs, wanted, v).value.quantity > 0.0
    decreases |hs|
  {
    hide Settle, WellFormed, Held;
    if |hs| > 0 {
      var h, rest := hs[0], hs[1..];
      var reply := v.replies(bot, SellAll(h));
      assert kept + hs == (kept + [h]) + rest;
      SoldNothing(kept, hs);
      if !wanted(h) {
        SweepBalances(l, a, bot, kept + [h], rest, wanted, v, sym);
      } else if reply.Reports? {
        var (m, sent, ok) := SellOne(l, a, bot, h, v);
        if reply.result.filledQuantity <= 0.0 {
          SweepBalances(m, sent, bot, kept + [h], rest, wanted, v, sym);
        } else {
          var f := SaleFill(h, reply.result);
          var left := SaleShrinks(l.books, kept, hs, f);
          if ok {
            FillMovesShares(l.books, f, sym);
            SweepBalances(m, sent, bot, kept + left, rest, wanted, v, sym);
          } else {
            RejectedFillIsInert(l.books, f);
          }
        }
      }
    }
  }

  /** The first order of the verb to be filled beyond its position, if the verb gets to one. */
  ghost function DeskOverfill(d: Desk, bots: seq<string>, wanted: Holding -> bool, v: Venue): Option<Fill>
    requires forall b :: b in bots ==> b in d.ledgers
    decreases |bots|
  {
    if |bots| == 0 || HomeAccount(d, v).None? then None
    else
      var f := Overfill(bots[0], BooksOf(d, bots[0]).positions, wanted, v);
      if f.Some? || !BotGoesThrough(d, bots[0], wanted, v) then f else DeskOverfill(d, bots[1..], wanted, v)
  }

  ghost function Gap(d: Desk, order: seq<string>, ids: seq<string>, sym: string): real
    requires Enumerates(order, d.ledgers) && Enumerates(ids, d.accounts)
  {
    LedgerTotal(AllBooks(order, d.ledgers), sym) - AccountTotal(AllAccounts(ids, d.accounts), sym)
  }

  lemma {:induction false} SweepBotGap(
    d: Desk, b: string, wanted: Holding -> bool, v: Venue, order: seq<string>, ids: seq<string>, sym: string)
    requires Enumerates(order, d.ledgers) && Enumerates(ids, d.accounts) && AllWellFormed(d) && b in d.ledgers
    ensures var e, f := SweepBot(d, b, wanted, v).0, Overfill(b, BooksOf(d, b).positions, wanted, v);
            && Enumerates(order, e.ledgers) && Enumerates(ids, e.accounts)
            && Gap(e, order, ids, sym)
               == Gap(d, order, ids, sym) + (if HomeAccount(d, v).Some? then Excess(f, sym) else 0.0)
  {
    hide Sweep, LedgerModel.WellFormed, Overfill, Excess, HoldingIn, Held;
    hide AllBooks, AllAccounts, LedgerTotal, AccountTotal;
    var l, a, ps := d.ledgers[b], HomeAccount(d, v), BooksOf(d, b).positions;
    var (m, sent, ok) := Sweep(l, a, b, ps, wanted, v);
    SweepKeepsHome(l, a, b, ps, wanted, v);
    LedgerTotalUpdate(order, d.ledgers, b, m, sym);
    if a.Some? {
      assert [] + ps == ps;
      SweepBalances(l, a, b, [], ps, wanted, v, sym);
      AccountTotalUpdate(ids, d.accounts, v.home.value, sent.value, sym);
    } else {
      SweepWithoutHome(l, b, ps, wanted, v);
    }
  }

  lemma {:induction false} SweepAllGap(
    d: Desk, bots: seq<string>, wanted: Holding -> bool, v: Venue, order: seq<string>, ids: seq<string>, sym: string)
    requires Enumerates(order, d.ledgers) && Enumerates(ids, d.accounts) && AllWellFormed(d)
    requires forall b :: b in bots ==> b in d.ledgers
    requires forall i, j :: 0 <= i < j < |bots| ==> bots[i] != bots[j]
    ensures var e := SweepAll(d, bots, wanted, v).0;
            && Enumerates(order, e.ledgers) && Enumerates(ids, e.accounts)
            && Gap(e, order, ids, sym) == Gap(d, order, ids, sym) + Excess(DeskOverfill(d, bots, wanted, v), sym)
    decreases |bots|
  {
    hide Gap, Overfill, AllWellFormed, BotGoesThrough;
    if |bots| > 0 {
      var b, rest := bots[0], bots[1..];
      assert bots == [b] + rest && b !in rest;
      SweepBotEndsIff(d, b, wanted, v);
      SweepBotGap(d, b, wanted, v, order, ids, sym);
      var (e, ok) := SweepBot(d, b, wanted, v);
      OverfillDoesNotGoThrough(d, b, wanted, v);
      if ok {
        SweepAllGap(e, rest, wanted, v, order, ids, sym);
        SameOverfill(d, e, rest, wanted, v);
      }
    }
  }

  lemma {:induction false} OverfillDoesNotGoThrough(d: Desk, b: string, wanted: Holding -> bool, v: Venue)
    requires b in d.ledgers
    ensures HomeAccount(d, v).Some? && Overfill(b, BooksOf(d, b).positions, wanted, v).Some? ==>
              !BotGoesThrough(d, b, wanted, v)
  {
    OverfilledPosition(b, BooksOf(d, b).positions, wanted, v);
  }

  lemma {:induction false} OverfilledPosition(bot: string, hs: seq<Holding>, wanted: Holding -> bool, v: Venue)
    ensures Overfill(bot, hs, wanted, v).Some? ==> exists h :: h in hs && wanted(h) && !GoesThrough(bot, h, v)
    decreases |hs|
  {
    if |hs| > 0 {
      assert hs == [hs[0]] + hs[1..];
      OverfilledPosition(bot, hs[1..], wanted, v);
    }
  }

  lemma {:induction false} SameOverfill(d: Desk, e: Desk, bots: seq<string>, wanted: Holding -> bool, v: Venue)
    requires (forall b :: b in bots ==> b in d.ledgers) && e.ledgers.Keys == d.ledgers.Keys
    requires HomeAccount(e, v).Some? == HomeAccount(d, v).Some?
    requires forall b :: b in bots ==> e.ledgers[b] == d.ledgers[b]
    ensures DeskOverfill(e, bots, wanted, v) == DeskOverfill(d, bots, wanted, v)
    decreases |bots|
  {
    if |bots| > 0 {
      SameOverfill(d, e, bots[1..], wanted, v);
    }
  }

  /** Agreement and the verbs: from agreement with the brokers a verb keeps it exactly when no order that it
      gets to is filled beyond its position. */
  lemma {:induction false} VerbKeepsAgreementIff(
    d: Desk, order: seq<string>, ids: seq<string>, verb: Verb, botId: Option<string>, prices: Prices, v: Venue)
    requires Agrees(d, order, ids) && AllWellFormed(d)
    ensures Agrees(AfterVerb(d, order, verb, botId, prices, v).0, order, ids)
            <==> verb.HaltAndStop?
                 || DeskOverfill(d, Targets(d.ledgers, order, botId), WantedBy(verb, prices), v).None?
  {
    hide SweepAll, AllWellFormed, DeskOverfill, Agrees, Gap, Excess;
    var bots, wanted := Targets(d.ledgers, order, botId), WantedBy(verb, prices);
    AgreesMeansNoGap(d, order, ids);
    HaltsDoNotMatter(d, AfterHalt(d.risk, botId), order, ids);
    if !verb.HaltAndStop? {
      TargetsAre(d, order, botId);
      var e, f := SweepAll(d, bots, wanted, v).0, DeskOverfill(d, bots, wanted, v);
      SweepAllGap(d, bots, wanted, v, order, ids, "");
      SweepAllKeepsSettings(d, bots, wanted, v);
      HaltsDoNotMatter(e, AfterHalt(d.risk, botId), order, ids);
      AgreesMeansNoGap(e, order, ids);
      forall sym
        ensures Gap(e, order, ids, sym) == Excess(f, sym)
      {
        SweepAllGap(d, bots, wanted, v, order, ids, sym);
      }
      OverfillIsPositive(d, bots, wanted, v);
      ExcessOf(f);
    }
  }

  lemma ExcessOf(f: Option<Fill>)
    ensures f.None? ==> forall sym :: Excess(f, sym) == 0.0
    ensures f.Some? ==> Excess(f, f.value.symbol) == f.value.quantity
  {
  }

  lemma AgreesMeansNoGap(d: Desk, order: seq<string>, ids: seq<string>)
    ensures Agrees(d, order, ids) <==>
            && Enumerates(order, d.ledgers) && Enumerates(ids, d.accounts)
            && forall sym :: Gap(d, order, ids, sym) == 0.0
  {
    hide AllBooks, AllAccounts, LedgerTotal, AccountTotal;
    if Enumerates(order, d.ledgers) && Enumerates(ids, d.accounts) {
      forall sym
        ensures Gap(d, order, ids, sym) == 0.0 <==>
                LedgerTotal(AllBooks(order, d.ledgers), sym) == AccountTotal(AllAccounts(ids, d.accounts), sym)
      {
      }
    }
  }

  lemma {:induction false} OverfillIsPositive(d: Desk, bots: seq<string>, wanted: Holding -> bool, v: Venue)
    requires AllWellFormed(d) && forall b :: b in bots ==> b in d.ledgers
    ensures var f := DeskOverfill(d, bots, wanted, v); f.Some? ==> f.value.quantity > 0.0
    decreases |bots|
  {
    hide LedgerModel.WellFormed, Overfill;
    if |bots| > 0 && HomeAccount(d, v).Some? {
      var ps := BooksOf(d, bots[0]).positions;
      assert [] + ps == ps;
      SweepBalances(d.ledgers[bots[0]], HomeAccount(d, v), bots[0], [], ps, wanted, v, "");
      OverfillIsPositive(d, bots[1..], wanted, v);
    }
  }

  // ---------- The mutable kill switch ----------

  /** The part of `copy` from `i` on still stands at the end of `now`. */
  predicate StillAhead<T(==)>(now: seq<T>, copy: seq<T>, i: nat) {
    i <= |copy| && |now| >= |copy| - i && now[|now| - (|copy| - i)..] == copy[i..]
  }

  lemma TakingOutKeepsAhead<T>(was: seq<T>, now: seq<T>, copy: seq<T>, i: nat, j: nat)
    requires StillAhead(was, copy, i) && i < |copy|
    requires TakesOutAtMost(was, j, now) && j <= |was| - (|copy| - i)
    ensures StillAhead(now, copy, i + 1)
  {
    var p := |was| - (|copy| - i);
    assert copy[i + 1..] == copy[i..][1..] == was[p..][1..] == was[p + 1..];
    if now != was {
      assert was[j + 1..][p - j..] == was[p + 1..];
    }
  }

  class KillSwitch {
    const coordinator: TradeCoordinator
    const defaultBroker: Broker?
    var log: seq<(Verb, Option<string>)>

    constructor (coordinator: TradeCoordinator, defaultBroker: Broker?)
      ensures this.coordinator == coordinator && this.defaultBroker == defaultBroker && log == []
    {
      this.coordinator, this.defaultBroker, log := coordinator, defaultBroker, [];
    }

    ghost function AccountNow(): Option<Account>
      reads defaultBroker
    {
      if defaultBroker == null then None else Some(defaultBroker.View())
    }

    method SellPosition(bot: string, ledger: Ledger, pos: Position, v: Venue) returns (ok: bool)
      requires ledger.Valid() && pos in ledger.openPositions
      modifies ledger, ledger.cells, defaultBroker
      ensures ledger.Valid() && ledger.cells == old(ledger.cells)
      ensures (ledger.View(), AccountNow(), ok)
              == SellOne(old(ledger.View()), old(AccountNow()), bot, old(pos.Value()), v)
      ensures var was, j := old(ledger.openPositions), old(FirstIn(Values(ledger.openPositions), pos.symbol));
              && TakesOutAtMost(was, j, ledger.openPositions)
              && forall k :: j < k < |was| ==> was[k].Value() == old(was[k].Value())
    {
      hide AfterFill, AfterSubmit, FirstIn, Ledger.View;
      if defaultBroker == null {
        return false;
      }
      var h := pos.Value();
      var result := defaultBroker.SubmitOrder(SellAll(h), v.replies(bot, SellAll(h)));
      if result.None? {
        return false;
      }
      ok := true;
      if result.value.filledQuantity > 0.0 {
        var outcome := ledger.RecordFill(SaleFill(h, result.value));
        ok := outcome.Recorded?;
      }
    }

    /** Selling an entry of a copy of the list leaves the later entries in the list, with their values. */
    method SellEntry(bot: string, ledger: Ledger, copy: seq<Position>, i: nat, v: Venue) returns (ok: bool)
      requires ledger.Valid() && i < |copy| && StillAhead(ledger.openPositions, copy, i)
      modifies ledger, ledger.cells, defaultBroker
      ensures ledger.Valid() && ledger.cells == old(ledger.cells)
      ensures StillAhead(ledger.openPositions, copy, i + 1)
      ensures (ledger.View(), AccountNow(), ok)
              == SellOne(old(ledger.View()), old(AccountNow()), bot, old(copy[i].Value()), v)
      ensures forall k :: i < k < |copy| ==> copy[k].Value() == old(copy[k].Value())
    {
      hide SellOne, FirstIn, Ledger.View, StillAhead, TakesOutAtMost;
      ghost var was := ledger.openPositions;
      FirstIsNotAhead(was, copy, i);
      ghost var j := FirstIn(Values(was), copy[i].symbol);
      ok := SellPosition(bot, ledger, copy[i], v);
      TakingOutKeepsAhead(was, ledger.openPositions, copy, i, j);
      forall k | i < k < |copy|
        ensures copy[k].Value() == old(copy[k].Value())
      {
        assert was[|was| - (|copy| - k)] == copy[k];
      }
    }

    /** Goes through a copy of the list while selling changes the list itself. */
    method SellPositions(bot: string, ledger: Ledger, wanted: Holding -> bool, v: Venue) returns (ok: bool)
      requires ledger.Valid()
      modifies ledger, ledger.cells, defaultBroker
      ensures ledger.Valid() && ledger.cells == old(ledger.cells)
      ensures (ledger.View(), AccountNow(), ok)
              == Sweep(old(ledger.View()), old(AccountNow()), bot, old(Values(ledger.openPositions)), wanted, v)
    {
      hide SellOne, Sweep, Ledger.View;
      var copy := ledger.openPositions;
      ghost var hs := Values(copy);
      ghost var final := Sweep(ledger.View(), AccountNow(), bot, hs, wanted, v);
      var i := 0;
      assert hs[0..] == hs;
      while i < |copy|
        invariant i <= |copy| && StillAhead(ledger.openPositions, copy, i)
        invariant ledger.Valid() && ledger.cells == old(ledger.cells)
        invariant forall k :: i <= k < |copy| ==> copy[k].Value() == hs[k]
        invariant Sweep(ledger.View(), AccountNow(), bot, hs[i..], wanted, v) == final
      {
        hide StillAhead, Ledger.Valid;
        StepAhead(ledger.openPositions, copy, i);
        SweepStep(ledger.View(), AccountNow(), bot, hs, i, wanted, v);
        if wanted(copy[i].Value()) {
          ok := SellEntry(bot, ledger, copy, i, v);
          if !ok {
            return;
          }
        }
        i := i + 1;
      }
      assert hs[i..] == [];
      SweepNothing(ledger.View(), AccountNow(), bot, wanted, v);
      ok := true;
    }

    /** Selling from one bot's ledger leaves the ledgers of the others alone. */
    method SellForBot(bot: string, wanted: Holding -> bool, v: Venue) returns (ok: bool)
      requires coordinator.Valid() && bot in coordinator.ledgers
      modifies defaultBroker, coordinator.ledgers[bot], coordinator.ledgers[bot].cells
      ensures coordinator.Valid() && coordinator.ledgers[bot].cells == old(coordinator.ledgers[bot].cells)
      ensures var l := old(coordinator.ledgers[bot].View());
              var (m, a, sold) := Sweep(l, old(AccountNow()), bot, l.books.positions, wanted, v);
              && coordinator.LedgerViews() == old(coordinator.LedgerViews())[bot := m]
              && AccountNow() == a && ok == sold
    {
      hide Sweep, Broker.View, Ledger.View, Ledger.ViewBooks, Values;
      var ledger := coordinator.ledgers[bot];
      ghost var l := ledger.View();
      ledger.ViewHasPositions();
      ok := SellPositions(bot, ledger, wanted, v);
      forall b | b in coordinator.ledgers && b != bot
        ensures coordinator.ledgers[b].View() == old(coordinator.ledgers[b].View())
      {
      }
    }

    /** The default broker, if any, is one of the desk's and stands for the venue's account. */
    ghost predicate HomeIs(brokers: set<Broker>, v: Venue) {
      if defaultBroker == null then v.home.None?
      else defaultBroker in brokers && v.home == Some(defaultBroker.account)
    }

    /** The same, seen from the whole desk: no other account moves either. */
    method SellOnDesk(bot: string, wanted: Holding -> bool, v: Venue, ghost brokers: set<Broker>) returns (ok: bool)
      requires coordinator.Valid() && bot in coordinator.ledgers && DistinctAccounts(brokers) && HomeIs(brokers, v)
      modifies defaultBroker, coordinator.ledgers[bot], coordinator.ledgers[bot].cells
      ensures coordinator.Valid() && coordinator.ledgers[bot].cells == old(coordinator.ledgers[bot].cells)
      ensures (coordinator.View(brokers), ok) == SweepBot(old(coordinator.View(brokers)), bot, wanted, v)
    {
      hide Sweep, Ledger.View, TradeCoordinator.Valid, Broker.View;
      ghost var d := coordinator.View(brokers);
      assert HomeAccount(d, v) == AccountNow();
      ok := SellForBot(bot, wanted, v);
      forall b | b in brokers && b != defaultBroker
        ensures b.View() == old(b.View())
      {
      }
      if defaultBroker != null {
        assert AccountViews(brokers) == d.accounts[defaultBroker.account := AccountNow().value];
      } else {
        assert AccountViews(brokers) == d.accounts;
      }
    }

    method SellAcross(bots: seq<string>, wanted: Holding -> bool, v: Venue, ghost brokers: set<Broker>)
      returns (ok: bool)
      requires coordinator.Valid() && forall b :: b in bots ==> b in coordinator.ledgers
      requires DistinctAccounts(brokers) && HomeIs(brokers, v)
      modifies defaultBroker
      modifies set b | b in coordinator.ledgers :: coordinator.ledgers[b]
      modifies set b, p | b in coordinator.ledgers && p in coordinator.ledgers[b].cells :: p
      ensures coordinator.Valid()
      ensures (coordinator.View(brokers), ok)
              == SweepAll(old(coordinator.View(brokers)), bots, wanted, v)
    {
      hide SweepBot, SweepAll, Ledger.View, AccountViews, DistinctAccounts;
      ghost var final := SweepAll(coordinator.View(brokers), bots, wanted, v);
      var i := 0;
      assert bots[0..] == bots;
      while i < |bots|
        invariant i <= |bots| && coordinator.Valid()
        invariant forall b :: b in coordinator.ledgers ==>
                    coordinator.ledgers[b].cells == old(coordinator.ledgers[b].cells)
        invariant SweepAll(coordinator.View(brokers), bots[i..], wanted, v) == final
      {
        SweepAllStep(coordinator.View(brokers), bots, i, wanted, v);
        ok := SellOnDesk(bots[i], wanted, v, brokers);
        if !ok {
          return;
        }
        i := i + 1;
      }
      assert bots[i..] == [];
      SweepAllNothing(coordinator.View(brokers), wanted, v);
      ok := true;
    }

    method Halt(botId: Option<string>, ghost brokers: set<Broker>)
      requires coordinator.Valid() && DistinctAccounts(brokers)
      modifies coordinator.riskManager
      ensures coordinator.Valid()
      ensures coordinator.View(brokers)
              == (var d := old(coordinator.View(brokers)); d.(risk := AfterHalt(d.risk, botId)))
    {
      hide Ledger.View, AccountViews, DistinctAccounts;
      if ForDesk(botId) {
        coordinator.riskManager.HaltDesk();
      } else {
        coordinator.riskManager.HaltBot(botId.value);
      }
      assert coordinator.LedgerViews() == old(coordinator.LedgerViews());
      assert AccountViews(brokers) == old(AccountViews(brokers));
    }

    /** `order` is the order of the ledger dictionary; the flag is set only if nothing raised before. */
    method SellThenHalt(
      wanted: Holding -> bool, botId: Option<string>, order: seq<string>, v: Venue, ghost brokers: set<Broker>)
      returns (ok: bool)
      requires coordinator.Valid() && Enumerates(order, coordinator.LedgerViews())
      requires DistinctAccounts(brokers) && HomeIs(brokers, v)
      modifies defaultBroker, coordinator.riskManager
      modifies set b | b in coordinator.ledgers :: coordinator.ledgers[b]
      modifies set b, p | b in coordinator.ledgers && p in coordinator.ledgers[b].cells :: p
      ensures coordinator.Valid()
      ensures (coordinator.View(brokers), ok)
              == SellAndHalt(old(coordinator.View(brokers)), order, botId, wanted, v)
    {
      hide SweepAll, Ledger.View, TradeCoordinator.Valid, AfterHalt, AccountViews, DistinctAccounts;
      ok := SellAcross(Targets(coordinator.ledgers, order, botId), wanted, v, brokers);
      if ok {
        SweepAllKeepsSettings(
          old(coordinator.View(brokers)), Targets(old(coordinator.LedgerViews()), order, botId), wanted, v);
        Halt(botId, brokers);
      }
    }

    /** Every verb is logged before anything else. */
    method Execute(
      verb: Verb, botId: Option<string>, prices: Prices, order: seq<string>, v: Venue, ghost brokers: set<Broker>)
      returns (ok: bool)
      requires coordinator.Valid() && Enumerates(order, coordinator.LedgerViews())
      requires DistinctAccounts(brokers) && HomeIs(brokers, v)
      modifies this, defaultBroker, coordinator.riskManager
      modifies set b | b in coordinator.ledgers :: coordinator.ledgers[b]
      modifies set b, p | b in coordinator.ledgers && p in coordinator.ledgers[b].cells :: p
      ensures coordinator.Valid() && log == old(log) + [(verb, botId)]
      ensures (coordinator.View(brokers), ok)
              == AfterVerb(old(coordinator.View(brokers)), order, verb, botId, prices, v)
    {
      hide SellAndHalt, AfterHalt, Ledger.View, TradeCoordinator.Valid, Enumerates, AccountViews, DistinctAccounts;
      log := log + [(verb, botId)];
      assert coordinator.LedgerViews() == old(coordinator.LedgerViews());
      assert AccountViews(brokers) == old(AccountViews(brokers));
      match verb {
        case HaltAndStop =>
          Halt(botId, brokers);
          ok := true;
        case HaltAndLiquidate =>
          ok := SellThenHalt(Everything(), botId, order, v, brokers);
        case HaltAndSellGains =>
          ok := SellThenHalt(Winners(prices), botId, order, v, brokers);
      }
    }
  }

  lemma StepAhead<T>(now: seq<T>, copy: seq<T>, i: nat)
    requires StillAhead(now, copy, i) && i < |copy|
    ensures StillAhead(now, copy, i + 1)
  {
    TakingOutKeepsAhead(now, now, copy, i, 0);
  }

  lemma FirstIsNotAhead(now: seq<Position>, copy: seq<Position>, i: nat)
    requires i < |copy| && StillAhead(now, copy, i)
    ensures copy[i] in now
    ensures FirstIn(Values(now), copy[i].symbol) <= |now| - (|copy| - i)
    ensures forall k :: i <= k < |copy| ==> now[|now| - (|copy| - k)] == copy[k]
  {
    var p := |now| - (|copy| - i);
    forall k | i <= k < |copy|
      ensures now[|now| - (|copy| - k)] == copy[k]
    {
      assert now[p..][k - i] == copy[i..][k - i];
    }
    assert Values(now)[p].symbol == copy[i].symbol;
  }
}
