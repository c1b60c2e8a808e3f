/**
 The tick loop (src/trading_strands/orchestrator/engine.py): remote halt check, waking bots by their
 predicates, trading, auditing, and the context kept for the next tick.

 `AfterTick` is one tick and `RunTicks` a run of them; the class follows it in place.  A bot's decision is
 whatever the world of the tick says.  What-if tracking, tick recording and publishing leave no trace here.
 */
module Orchestration {
  import opened Prelude
  import opened LedgerModel
  import opened LedgerPersistence
  import opened Risk
  import opened Coordination
  import opened Auditor
  import opened DeskRuns
  import opened KillSwitches
  import opened Tta

  /** A registered bot; without a predicate it wakes on every tick. */
  datatype Watch = Watch(botId: string, tta: Option<Pred>)

  datatype HaltRead = Unreadable | Flag(halted: bool)

  datatype Wish = Silent | DecideRaises | Wants(intent: TradeIntent)

  /** What the outside world does in one tick: the stored halt flag, the prices and the broker's positions
      (absent if fetching them raises), and what each bot decides and meets. */
  datatype TickWorld = TickWorld(
    halt: HaltRead, prices: Option<Prices>, wishes: string -> Wish, calls: string -> World,
    listing: Option<seq<BrokerPosition>>)

  /** `order` enumerates the ledgers. */
  datatype Setup = Setup(publishes: bool, auditor: Option<AuditConfig>, bots: seq<Watch>, order: seq<string>)

  datatype Engine = Engine(
    desk: Desk, cyclesFailed: int, lastReconcile: int, prev: Option<Context>, executed: int, rejected: int)

  datatype Ending = NoBots | MarketDown | PredicateRaised | Completed

  const RECONCILE_INTERVAL := 60

  function AtStart(d: Desk): Engine { Engine(d, 0, -1, None, 0, 0) }

  // ---------- Contexts ----------

  const PREFIX := "price."

  function SymbolOf(key: string): string { if |key| >= 6 then key[6..] else "" }

  function PriceKey(sym: string): (key: string)
    ensures SymbolOf(key) == sym && IsPriceKey(key)
  {
    PREFIX + sym
  }

  predicate IsPriceKey(key: string) { |key| >= 6 && key[..6] == PREFIX }

  function PriceContext(prices: Prices): Context {
    var keys := set sym | sym in prices :: PriceKey(sym);
    map key | key in keys :: prices[SymbolOf(key)]
  }

  function BookContext(b: Books): Context {
    map["ledger.equity" := b.Equity(), "ledger.realized_pnl" := b.realizedPnl,
        "ledger.drawdown_pct" := b.DrawdownPct(), "ledger.high_water_mark" := b.highWaterMark,
        "ledger.position_count" := |b.positions| as real]
  }

  function BuildContext(prices: Prices, books: Option<Books>): Context {
    if books.None? then PriceContext(prices) else PriceContext(prices) + BookContext(books.value)
  }

  lemma PriceContextHolds(prices: Prices, books: Option<Books>, sym: string)
    ensures var ctx := BuildContext(prices, books);
            && PriceKey(sym) == "price." + sym
            && (PriceKey(sym) in ctx <==> sym in prices)
            && (sym in prices ==> ctx[PriceKey(sym)] == prices[sym])
    ensures forall key :: key in PriceContext(prices) ==> IsPriceKey(key)
  {
    var keys := set s | s in prices :: PriceKey(s);
    if PriceKey(sym) in keys {
      var s :| s in prices && PriceKey(s) == PriceKey(sym);
      assert SymbolOf(PriceKey(s)) == s;
    }
    if books.Some? {
      assert forall key :: key in BookContext(books.value) ==> key[0] == 'l';
      assert PriceKey(sym)[0] == 'p';
    }
  }

  // ---------- What a predicate sees of the ledger ----------

  function SymbolsOf(ps: seq<Holding>): set<string> { set h | h in ps :: h.symbol }

  lemma {:induction false} OnePositionPerSymbol(ps: seq<Holding>)
    requires LedgerModel.WellFormed(ps)
    ensures |SymbolsOf(ps)| == |ps|
  {
    if |ps| > 0 {
      var h, rest := ps[0], ps[1..];
      assert ps == [h] + rest;
      OnePositionPerSymbol(rest);
      assert SymbolsOf(ps) == {h.symbol} + SymbolsOf(rest);
      assert h.symbol !in SymbolsOf(rest);
    }
  }

  /** The ledger fields of a context, in terms of the fills since the ledger was opened: the profit is their
      net cash and what the open positions cost, the equity is that on top of the capital, the mark is the
      largest equity there has been, the drawdown is the fraction of the mark by which the equity is below it,
      and the count is that of the symbols bought more than sold. */
  lemma {:induction false} FieldsTellTheRun(capital: real, fills: seq<Fill>, prices: Prices) returns (open: set<string>)
    requires PositiveFills(fills)
    ensures var start := FreshBooks(capital);
            var b, accepted := RunBooks(start, fills), Accepted(start, fills);
            var ctx := BuildContext(prices, Some(b));
            && {"ledger.realized_pnl", "ledger.equity", "ledger.high_water_mark", "ledger.drawdown_pct",
                "ledger.position_count"} <= ctx.Keys
            && ctx["ledger.realized_pnl"] == Total(CashFlow, accepted) + BookValue(b.positions)
            && ctx["ledger.equity"] == capital + ctx["ledger.realized_pnl"]
            && IsPeakEquity(start, fills, ctx["ledger.high_water_mark"])
            && (if ctx["ledger.high_water_mark"] == 0.0 then ctx["ledger.drawdown_pct"] == 0.0
                else TimesMark(ctx["ledger.drawdown_pct"], ctx["ledger.high_water_mark"])
                     == ctx["ledger.high_water_mark"] - ctx["ledger.equity"])
            && ctx["ledger.position_count"] == |open| as real
            && forall sym :: sym in open <==> NetShares(accepted, sym) > 0.0
  {
    hide RunBooks, Accepted, BookValue, IsPeakEquity, CashFlow, Total, NetShares, Held, BuildContext;
    hide LedgerModel.WellFormed;
    var start := FreshBooks(capital);
    var b := RunBooks(start, fills);
    MoneyIsConserved(capital, fills);
    MarkIsPeak(start, fills);
    LedgerFields(prices, b);
    PositionsAreNetShares(capital, fills, "");
    OnePositionPerSymbol(b.positions);
    open := SymbolsOf(b.positions);
    forall sym
      ensures sym in open <==> NetShares(Accepted(start, fills), sym) > 0.0
    {
      PositionsAreNetShares(capital, fills, sym);
      HeldNonNegative(b.positions, sym);
    }
  }

  function TimesMark(fraction: real, mark: real): real { fraction * mark }

  lemma LedgerFields(prices: Prices, b: Books)
    ensures var ctx := BuildContext(prices, Some(b));
            && {"ledger.realized_pnl", "ledger.equity", "ledger.high_water_mark", "ledger.drawdown_pct",
                "ledger.position_count"} <= ctx.Keys
            && ctx["ledger.realized_pnl"] == b.realizedPnl
            && ctx["ledger.equity"] == b.Equity()
            && ctx["ledger.high_water_mark"] == b.highWaterMark
            && (if b.highWaterMark == 0.0 then ctx["ledger.drawdown_pct"] == 0.0
                else TimesMark(ctx["ledger.drawdown_pct"], b.highWaterMark) == b.highWaterMark - b.Equity())
            && ctx["ledger.position_count"] == |b.positions| as real
  {
    hide PriceContext;
  }

  // ---------- One tick ----------

  /** The desk flag follows the stored one whenever that can be read. */
  function AfterRemoteCheck(risk: RiskState, publishes: bool, read: HaltRead): RiskState {
    if !publishes || read.Unreadable? then risk
    else if read.halted && !risk.deskHalted then risk.(deskHalted := true)
    else if !read.halted && risk.deskHalted then risk.(deskHalted := false)
    else risk
  }

  /** The bots of a tick that have had their turn; `raised` once a predicate has. */
  datatype Round = Round(desk: Desk, executed: int, rejected: int, raised: bool)

  /** Whether the predicate lets the bot decide, if it does not raise. */
  function Wakes(bot: Watch, ctx: Context, prev: Option<Context>): Result<bool, Failure> {
    if bot.tta.None? then Ok(true) else Evaluate(bot.tta.value, ctx, prev)
  }

  function CountOutcome(r: Round, d: Desk, o: Outcome): Round {
    match o
    case Executed(_) => Round(d, r.executed + 1, r.rejected, false)
    case HaltedByStore(_) => Round(d, r.executed, r.rejected + 1, false)
    case BrokerUnavailable => Round(d, r.executed, r.rejected + 1, false)
    case Refused(_) => Round(d, r.executed, r.rejected + 1, false)
    case _ => Round(d, r.executed, r.rejected, false)
  }

  /** The intent a bot puts to the coordinator in its turn, if it gets that far. */
  function Turn(d: Desk, bot: Watch, prices: Prices, prev: Option<Context>, w: TickWorld)
    : Result<Option<TradeIntent>, Failure>
  {
    if bot.botId !in d.ledgers then Ok(None)
    else
      match Wakes(bot, BuildContext(prices, Some(d.ledgers[bot.botId].books)), prev)
      case Err(e) => Err(e)
      case Ok(fires) =>
        var wish := w.wishes(bot.botId);
        if !fires || !wish.Wants? || wish.intent.action.ActHold? || wish.intent.action.ActNoop? then Ok(None)
        else Ok(Some(wish.intent))
  }

  function AfterTurn(r: Round, bot: Watch, prices: Prices, prev: Option<Context>, w: TickWorld): Round {
    match Turn(r.desk, bot, prices, prev, w)
    case Err(_) => r.(raised := true)
    case Ok(None) => r
    case Ok(Some(intent)) =>
      var (d, o) := AfterIntent(r.desk, intent, w.calls(bot.botId));
      CountOutcome(r, d, o)
  }

  function AfterRound(r: Round, bots: seq<Watch>, prices: Prices, prev: Option<Context>, w: TickWorld): Round {
    if |bots| == 0 then r
    else
      var s := AfterRound(r, bots[..|bots| - 1], prices, prev, w);
      if s.raised then s else AfterTurn(s, bots[|bots| - 1], prices, prev, w)
  }

  ghost predicate Drifts(d: Desk, order: seq<string>, listing: Option<seq<BrokerPosition>>)
    requires Enumerates(order, d.ledgers)
  {
    listing.Some? && !PositionsMatch(AllBooks(order, d.ledgers), listing.value)
  }

  /** An audit counts mismatches in a row and halts the desk at the configured number.  A listing that
      cannot be fetched leaves the count. */
  ghost function Audited(e: Engine, s: Setup, listing: Option<seq<BrokerPosition>>): Engine
    requires Enumerates(s.order, e.desk.ledgers) && s.auditor.Some?
  {
    if listing.None? then e
    else if !Drifts(e.desk, s.order, listing) then e.(cyclesFailed := 0)
    else
      var f := e.(cyclesFailed := e.cyclesFailed + 1);
      if ShouldKillSwitch(s.auditor.value, 0.0, f.cyclesFailed)
      then f.(desk := e.desk.(risk := e.desk.risk.(deskHalted := true))) else f
  }

  /** The audit, if one is due; it uses up its turn even if the listing cannot be fetched. */
  ghost function AfterAudit(e: Engine, s: Setup, tick: int, listing: Option<seq<BrokerPosition>>): Engine
    requires Enumerates(s.order, e.desk.ledgers)
  {
    if s.auditor.None? || tick - e.lastReconcile < RECONCILE_INTERVAL then e
    else Audited(e.(lastReconcile := tick), s, listing)
  }

  function Checked(e: Engine, s: Setup, w: TickWorld): Desk {
    e.desk.(risk := AfterRemoteCheck(e.desk.risk, s.publishes, w.halt))
  }

  function Opening(e: Engine, s: Setup, w: TickWorld): Round {
    Round(Checked(e, s, w), e.executed, e.rejected, false)
  }

  function Traded(e: Engine, s: Setup, w: TickWorld): Round
    requires w.prices.Some?
  {
    AfterRound(Opening(e, s, w), s.bots, w.prices.value, e.prev, w)
  }

  ghost function AfterTick(e: Engine, s: Setup, tick: int, w: TickWorld): (result: (Engine, Ending))
    requires Enumerates(s.order, e.desk.ledgers)
    ensures result.0.desk.ledgers.Keys == e.desk.ledgers.Keys
  {
    if |s.bots| == 0 then (e.(desk := Checked(e, s, w)), NoBots)
    else if w.prices.None? then (e.(desk := Checked(e, s, w)), MarketDown)
    else
      var r := Traded(e, s, w);
      RoundKeepsSettings(e, s, w);
      var f := e.(desk := r.desk, executed := r.executed, rejected := r.rejected);
      if r.raised then (f, PredicateRaised)
      else
        var g := AfterAudit(f, s, tick, w.listing);
        (g.(prev := Some(BuildContext(w.prices.value, None))), Completed)
  }

  // ---------- A tick's trading is a run of calls ----------

  /** The calls of `execute` a round makes, in order. */
  function Calls(r: Round, bots: seq<Watch>, prices: Prices, prev: Option<Context>, w: TickWorld): seq<Call> {
    if |bots| == 0 then []
    else
      var before, bot := bots[..|bots| - 1], bots[|bots| - 1];
      var s, calls := AfterRound(r, before, prices, prev, w), Calls(r, before, prices, prev, w);
      if s.raised then calls
      else
        match Turn(s.desk, bot, prices, prev, w)
        case Ok(Some(intent)) => calls + [Call(intent, w.calls(bot.botId))]
        case _ => calls
  }

  /** So everything proved of runs of the pipeline holds in a tick. */
  lemma {:induction false} RoundIsRun(
    r: Round, bots: seq<Watch>, prices: Prices, prev: Option<Context>, w: TickWorld)
    ensures AfterRound(r, bots, prices, prev, w).desk == RunDesk(r.desk, Calls(r, bots, prices, prev, w))
  {
    hide AfterIntent, Turn, AfterTurn;
    if |bots| > 0 {
      var before, bot := bots[..|bots| - 1], bots[|bots| - 1];
      RoundIsRun(r, before, prices, prev, w);
      var s, calls := AfterRound(r, before, prices, prev, w), Calls(r, before, prices, prev, w);
      if !s.raised {
        TurnIsCall(s, bot, prices, prev, w);
        match Turn(s.desk, bot, prices, prev, w) {
          case Ok(Some(intent)) =>
            assert (calls + [Call(intent, w.calls(bot.botId))])[..|calls|] == calls;
          case _ =>
        }
      }
    }
  }

  /** A bot puts an intent to the coordinator exactly when it has a ledger, its predicate fires or it has none,
      and it wants to trade; the tick is ended exactly by a predicate of a bot with a ledger that raises. */
  lemma TurnMeans(d: Desk, bot: Watch, prices: Prices, prev: Option<Context>, w: TickWorld, i: TradeIntent)
    ensures var seen := if bot.botId in d.ledgers then BuildContext(prices, Some(BooksOf(d, bot.botId))) else map[];
            var answer := if bot.tta.Some? then Evaluate(bot.tta.value, seen, prev) else Ok(true);
            && (Turn(d, bot, prices, prev, w) == Ok(Some(i)) <==>
                  && bot.botId in d.ledgers && answer == Ok(true)
                  && w.wishes(bot.botId) == Wants(i) && i.action in {ActBuy, ActSell, ActClose})
            && (Turn(d, bot, prices, prev, w).Err? <==> bot.botId in d.ledgers && answer.Err?)
  {
    hide Evaluate, BuildContext;
  }

  ghost function OutcomesWith(d: Desk, calls: seq<Call>, p: Outcome -> bool): nat {
    if |calls| == 0 then 0
    else
      var c := calls[|calls| - 1];
      var before := calls[..|calls| - 1];
      OutcomesWith(d, before, p) + (if p(AfterIntent(RunDesk(d, before), c.intent, c.world).1) then 1 else 0)
  }

  ghost function IsExecuted(): Outcome -> bool { (o: Outcome) => o.Executed? }

  /** Turned down with an answer: by a stored halt, for want of a broker, or by the risk checks. */
  ghost function IsRejected(): Outcome -> bool {
    (o: Outcome) => o.HaltedByStore? || o.BrokerUnavailable? || o.Refused?
  }

  lemma {:induction false} OneMoreOutcome(d: Desk, calls: seq<Call>, c: Call, p: Outcome -> bool)
    ensures OutcomesWith(d, calls + [c], p)
            == OutcomesWith(d, calls, p) + (if p(AfterIntent(RunDesk(d, calls), c.intent, c.world).1) then 1 else 0)
  {
    hide AfterIntent, RunDesk;
    assert (calls + [c])[..|calls|] == calls;
  }

  lemma TurnCounts(r: Round, bot: Watch, prices: Prices, prev: Option<Context>, w: TickWorld)
    ensures var s := AfterTurn(r, bot, prices, prev, w);
            match Turn(r.desk, bot, prices, prev, w)
            case Ok(Some(intent)) =>
              var o := AfterIntent(r.desk, intent, w.calls(bot.botId)).1;
              && s.executed == r.executed + (if IsExecuted()(o) then 1 else 0)
              && s.rejected == r.rejected + (if IsRejected()(o) then 1 else 0)
            case _ => s.executed == r.executed && s.rejected == r.rejected
  {
    hide AfterIntent, Turn;
  }

  /** The two counters of a round grow by the numbers of its calls that were executed and that were turned
      down; calls that raise count in neither. */
  lemma {:induction false} CountersCountOutcomes(
    r: Round, bots: seq<Watch>, prices: Prices, prev: Option<Context>, w: TickWorld)
    ensures var s, calls := AfterRound(r, bots, prices, prev, w), Calls(r, bots, prices, prev, w);
            && s.executed == r.executed + OutcomesWith(r.desk, calls, IsExecuted())
            && s.rejected == r.rejected + OutcomesWith(r.desk, calls, IsRejected())
  {
    hide AfterIntent, Turn, AfterTurn, RunDesk, IsExecuted, IsRejected;
    if |bots| > 0 {
      var before, bot := bots[..|bots| - 1], bots[|bots| - 1];
      CountersCountOutcomes(r, before, prices, prev, w);
      RoundIsRun(r, before, prices, prev, w);
      var s, calls := AfterRound(r, before, prices, prev, w), Calls(r, before, prices, prev, w);
      hide OutcomesWith;
      if !s.raised {
        TurnCounts(s, bot, prices, prev, w);
        match Turn(s.desk, bot, prices, prev, w) {
          case Ok(Some(intent)) =>
            var c := Call(intent, w.calls(bot.botId));
            OneMoreOutcome(r.desk, calls, c, IsExecuted());
            OneMoreOutcome(r.desk, calls, c, IsRejected());
          case _ =>
        }
      }
    }
  }

  lemma TurnIsCall(r: Round, bot: Watch, prices: Prices, prev: Option<Context>, w: TickWorld)
    ensures AfterTurn(r, bot, prices, prev, w).desk
            == match Turn(r.desk, bot, prices, prev, w)
               case Ok(Some(intent)) => AfterIntent(r.desk, intent, w.calls(bot.botId)).0
               case _ => r.desk
  {
    hide AfterIntent, Turn;
  }

  lemma RoundKeepsSettings(e: Engine, s: Setup, w: TickWorld)
    requires w.prices.Some?
    ensures var d, c := Traded(e, s, w).desk, Checked(e, s, w);
            && d.cfg == c.cfg && d.risk == c.risk && d.halts == c.halts && d.ledgers.Keys == c.ledgers.Keys
            && d.accounts.Keys == c.accounts.Keys
  {
    hide RunDesk, AfterRound, Calls;
    RoundIsRun(Opening(e, s, w), s.bots, w.prices.value, e.prev, w);
    SettingsAreFixed(Checked(e, s, w), Calls(Opening(e, s, w), s.bots, w.prices.value, e.prev, w));
  }

  // ---------- Runs ----------

  /** A run from tick 0; a predicate that raises ends it. */
  ghost function RunTicks(e: Engine, s: Setup, ws: seq<TickWorld>): (result: (Engine, bool))
    requires Enumerates(s.order, e.desk.ledgers)
    ensures result.0.desk.ledgers.Keys == e.desk.ledgers.Keys
  {
    if |ws| == 0 then (e, true)
    else
      var (m, alive) := RunTicks(e, s, ws[..|ws| - 1]);
      if !alive then (m, false)
      else
        var (n, ending) := AfterTick(m, s, |ws| - 1, ws[|ws| - 1]);
        (n, !ending.PredicateRaised?)
  }

  // ---------- Crossings, as the loop sees them ----------

  /** The prices of the completed ticks, oldest first. */
  ghost function History(e: Engine, s: Setup, ws: seq<TickWorld>): seq<Context>
    requires Enumerates(s.order, e.desk.ledgers)
  {
    if |ws| == 0 then []
    else
      var n := |ws| - 1;
      var (m, alive) := RunTicks(e, s, ws[..n]);
      var before := History(e, s, ws[..n]);
      if alive && ws[n].prices.Some? && AfterTick(m, s, n, ws[n]).1.Completed?
      then before + [PriceContext(ws[n].prices.value)] else before
  }

  ghost function Last(h: seq<Context>): Option<Context> { if |h| == 0 then None else Some(h[|h| - 1]) }

  /** Ticks without market data, or without bots, leave no context: the next tick is compared with the last
      one that completed. */
  lemma {:induction false} PrevIsLastCompleted(e: Engine, s: Setup, ws: seq<TickWorld>)
    requires Enumerates(s.order, e.desk.ledgers) && e.prev.None?
    ensures RunTicks(e, s, ws).0.prev == Last(History(e, s, ws))
    ensures forall ctx, key :: ctx in History(e, s, ws) && key in ctx ==> IsPriceKey(key)
  {
    hide Traded, PriceContext;
    if |ws| > 0 {
      var n := |ws| - 1;
      PrevIsLastCompleted(e, s, ws[..n]);
      if ws[n].prices.Some? {
        PriceContextHolds(ws[n].prices.value, None, "");
      }
    }
  }

  /** A crossing on anything but a price never fires: the ledger fields of a context are not kept for the
      next tick. */
  lemma {:induction false} OnlyPricesCross(
    e: Engine, s: Setup, ws: seq<TickWorld>, direction: string, field: string, threshold: real, ctx: Context)
    requires Enumerates(s.order, e.desk.ledgers) && e.prev.None? && !IsPriceKey(field)
    ensures Evaluate(CrossPred(direction, field, threshold), ctx, RunTicks(e, s, ws).0.prev) == Ok(false)
  {
    hide RunTicks, History;
    PrevIsLastCompleted(e, s, ws);
  }

  /** A crossing on a price fires in the loop exactly when it fires over the prices of the completed ticks,
      whatever the bot's ledger holds. */
  lemma {:induction false} WakeIsFiring(
    e: Engine, s: Setup, ws: seq<TickWorld>, direction: string, sym: string, threshold: real,
    prices: Prices, b: Books)
    requires Enumerates(s.order, e.desk.ledgers) && e.prev.None? && direction in {"above", "below"}
    ensures var h := History(e, s, ws);
            Evaluate(CrossPred(direction, PriceKey(sym), threshold), BuildContext(prices, Some(b)),
                     RunTicks(e, s, ws).0.prev)
            == Ok(Fires(direction, PriceKey(sym), threshold, h + [PriceContext(prices)], |h|))
  {
    hide RunTicks, History, BuildContext, PriceContext, PriceKey;
    PrevIsLastCompleted(e, s, ws);
    PriceContextHolds(prices, Some(b), sym);
    PriceContextHolds(prices, None, sym);
    PlainContext(prices);
    var h := History(e, s, ws);
    assert (h + [PriceContext(prices)])[|h|] == PriceContext(prices);
  }

  lemma PlainContext(prices: Prices)
    ensures BuildContext(prices, None) == PriceContext(prices)
  {
  }

  /** The round as bot `j` finds it when its turn comes. */
  function AtTurn(e: Engine, s: Setup, w: TickWorld, j: nat): Round
    requires w.prices.Some? && j < |s.bots|
  {
    AfterRound(Opening(e, s, w), s.bots[..j], w.prices.value, e.prev, w)
  }

  /** The tick completes, and in it bot `j` is woken: in its turn, with the ledger it then has, its predicate
      lets it decide. */
  ghost predicate WokenIn(e: Engine, s: Setup, tick: int, w: TickWorld, j: nat)
    requires Enumerates(s.order, e.desk.ledgers) && j < |s.bots|
  {
    && w.prices.Some? && AfterTick(e, s, tick, w).1.Completed?
    && var bot, ledgers := s.bots[j], AtTurn(e, s, w, j).desk.ledgers;
       && bot.botId in ledgers
       && Wakes(bot, BuildContext(w.prices.value, Some(ledgers[bot.botId].books)), e.prev) == Ok(true)
  }

  /** How often bot `j` is woken in the completed ticks of a run. */
  ghost function WakeCount(e: Engine, s: Setup, ws: seq<TickWorld>, j: nat): int
    requires Enumerates(s.order, e.desk.ledgers) && j < |s.bots|
  {
    if |ws| == 0 then 0
    else
      var n := |ws| - 1;
      var (m, alive) := RunTicks(e, s, ws[..n]);
      WakeCount(e, s, ws[..n], j) + (if alive && WokenIn(m, s, n, ws[n], j) then 1 else 0)
  }

  /** The bot's predicate is a crossing of a price, and it has a ledger. */
  ghost predicate Crosses(d: Desk, bot: Watch, direction: string, sym: string, threshold: real) {
    bot.botId in d.ledgers && bot.tta == Some(CrossPred(direction, PriceKey(sym), threshold))
  }

  lemma {:induction false} TurnKeepsLedgers(e: Engine, s: Setup, w: TickWorld, j: nat)
    requires w.prices.Some? && j < |s.bots|
    ensures AtTurn(e, s, w, j).desk.ledgers.Keys == e.desk.ledgers.Keys
  {
    hide RunDesk, AfterRound, Calls;
    RoundIsRun(Opening(e, s, w), s.bots[..j], w.prices.value, e.prev, w);
    SettingsAreFixed(Checked(e, s, w), Calls(Opening(e, s, w), s.bots[..j], w.prices.value, e.prev, w));
  }

  /** A bot with a crossing is woken exactly as often as the crossing fires over the completed ticks. */
  lemma {:induction false} WakesAreFirings(
    e: Engine, s: Setup, ws: seq<TickWorld>, j: nat, direction: string, sym: string, threshold: real)
    requires Enumerates(s.order, e.desk.ledgers) && e.prev.None? && direction in {"above", "below"}
    requires j < |s.bots| && Crosses(e.desk, s.bots[j], direction, sym, threshold)
    ensures WakeCount(e, s, ws, j) == Firings(direction, PriceKey(sym), threshold, History(e, s, ws))
  {
    hide RunTicks, WokenIn, Crosses, AfterTick, PriceContext, PriceKey, Fires, Firings;
    if |ws| > 0 {
      var n, key := |ws| - 1, PriceKey(sym);
      WakesAreFirings(e, s, ws[..n], j, direction, sym, threshold);
      var h := History(e, s, ws[..n]);
      if RunTicks(e, s, ws[..n]).1 {
        WokenIffFires(e, s, ws[..n], ws[n], j, direction, sym, threshold);
        if ws[n].prices.Some? {
          OneContextMore(direction, key, threshold, h, PriceContext(ws[n].prices.value));
        }
      }
    } else {
      NoFirings(direction, PriceKey(sym), threshold);
    }
  }

  lemma OneContextMore(direction: string, field: string, threshold: real, h: seq<Context>, ctx: Context)
    ensures Firings(direction, field, threshold, h + [ctx])
            == Firings(direction, field, threshold, h)
               + (if Fires(direction, field, threshold, h + [ctx], |h|) then 1 else 0)
  {
    hide Fires;
    assert (h + [ctx])[..|h|] == h;
  }

  lemma NoFirings(direction: string, field: string, threshold: real)
    ensures Firings(direction, field, threshold, []) == 0
  {
  }

  lemma {:induction false} WokenIffFires(
    e: Engine, s: Setup, ws: seq<TickWorld>, w: TickWorld, j: nat, direction: string, sym: string, threshold: real)
    requires Enumerates(s.order, e.desk.ledgers) && e.prev.None? && direction in {"above", "below"}
    requires j < |s.bots| && Crosses(e.desk, s.bots[j], direction, sym, threshold)
    ensures var m, h := RunTicks(e, s, ws).0, History(e, s, ws);
            WokenIn(m, s, |ws|, w, j) <==>
            && w.prices.Some? && AfterTick(m, s, |ws|, w).1.Completed?
            && Fires(direction, PriceKey(sym), threshold, h + [PriceContext(w.prices.value)], |h|)
  {
    hide RunTicks, History, AfterTick, AtTurn, BuildContext, PriceContext, PriceKey, Fires, Evaluate, CrossPred;
    var m := RunTicks(e, s, ws).0;
    if w.prices.Some? {
      TurnKeepsLedgers(m, s, w, j);
      var books := AtTurn(m, s, w, j).desk.ledgers[s.bots[j].botId].books;
      WakeIsFiring(e, s, ws, direction, sym, threshold, w.prices.value, books);
    }
  }

  /** So the crossing law holds of two registered bots that wait for a price to cross the same threshold, one
      upwards and one downwards: how often each is woken over a whole run of the loop. */
  lemma WakesObeyCrossingLaw(
    e: Engine, s: Setup, ws: seq<TickWorld>, up: nat, down: nat, sym: string, threshold: real)
    requires Enumerates(s.order, e.desk.ledgers) && e.prev.None? && up < |s.bots| && down < |s.bots|
    requires Crosses(e.desk, s.bots[up], "above", sym, threshold)
    requires Crosses(e.desk, s.bots[down], "below", sym, threshold)
    requires var h := History(e, s, ws); |h| > 0 && Present(PriceKey(sym), h)
    ensures var h, key := History(e, s, ws), PriceKey(sym);
            WakeCount(e, s, ws, up) - WakeCount(e, s, ws, down)
            == Above(h[|h| - 1][key], threshold) - Above(h[0][key], threshold)
               + Landings(key, threshold, h) - Departures(key, threshold, h)
  {
    WakesAreFirings(e, s, ws, up, "above", sym, threshold);
    WakesAreFirings(e, s, ws, down, "below", sym, threshold);
    CrossingLaw(PriceKey(sym), threshold, History(e, s, ws));
  }

  // ---------- When a tick completes ----------

  ghost predicate Sound(bots: seq<Watch>) {
    forall bot :: bot in bots && bot.tta.Some? ==> Tta.WellFormed(bot.tta.value)
  }

  lemma {:induction false} SoundRoundNeverRaises(
    r: Round, bots: seq<Watch>, prices: Prices, prev: Option<Context>, w: TickWorld)
    requires Sound(bots) && !r.raised
    ensures !AfterRound(r, bots, prices, prev, w).raised
  {
    hide AfterIntent, BuildContext, Evaluate, Tta.WellFormed;
    if |bots| > 0 {
      var n := |bots| - 1;
      assert forall bot :: bot in bots[..n] ==> bot in bots;
      SoundRoundNeverRaises(r, bots[..n], prices, prev, w);
      var d := AfterRound(r, bots[..n], prices, prev, w).desk;
      if bots[n].tta.Some? && bots[n].botId in d.ledgers {
        WellFormedNeverRaises(bots[n].tta.value, BuildContext(prices, Some(d.ledgers[bots[n].botId].books)), prev);
      }
    }
  }

  /** With well-formed predicates no run of ticks is cut short, and the ticks that complete are exactly those
      with a bot and with prices. */
  lemma {:induction false} SoundRunNeverStops(e: Engine, s: Setup, ws: seq<TickWorld>)
    requires Enumerates(s.order, e.desk.ledgers) && Sound(s.bots)
    ensures RunTicks(e, s, ws).1
    ensures |ws| > 0 ==>
              var n := |ws| - 1;
              AfterTick(RunTicks(e, s, ws[..n]).0, s, n, ws[n]).1.Completed?
              <==> |s.bots| > 0 && ws[n].prices.Some?
  {
    hide AfterRound, AfterAudit, Sound;
    if |ws| > 0 {
      var n := |ws| - 1;
      SoundRunNeverStops(e, s, ws[..n]);
      var m := RunTicks(e, s, ws[..n]).0;
      if ws[n].prices.Some? {
        SoundRoundNeverRaises(Opening(m, s, ws[n]), s.bots, ws[n].prices.value, m.prev, ws[n]);
      }
    }
  }

  // ---------- Audits ----------

  /** Every tick has bots and prices, and no predicate can raise. */
  ghost predicate Steady(s: Setup, ws: seq<TickWorld>) {
    |s.bots| > 0 && Sound(s.bots) && s.auditor.Some? && forall w :: w in ws ==> w.prices.Some?
  }

  /** The desk that the audit of tick `n` would look at. */
  ghost function AuditedDesk(e: Engine, s: Setup, ws: seq<TickWorld>, n: nat): Desk
    requires Enumerates(s.order, e.desk.ledgers) && n < |ws| && ws[n].prices.Some?
  {
    Traded(RunTicks(e, s, ws[..n]).0, s, ws[n]).desk
  }

  /** In a steady run the audits fall on ticks 59, 119, 179 and so on. */
  lemma {:induction false} AuditSchedule(e: Engine, s: Setup, ws: seq<TickWorld>)
    requires Enumerates(s.order, e.desk.ledgers) && Steady(s, ws) && e.lastReconcile == -1
    ensures RunTicks(e, s, ws).0.lastReconcile == |ws| / 60 * 60 - 1
  {
    hide Traded, Drifts, Sound;
    if |ws| > 0 {
      AuditSchedule(e, s, ws[..|ws| - 1]);
      SteadyStep(e, s, ws);
      NextAudit(|ws| - 1);
    }
  }

  /** Every audit that falls due in the run finds a mismatch. */
  ghost predicate AlwaysDrifts(e: Engine, s: Setup, ws: seq<TickWorld>)
    requires Enumerates(s.order, e.desk.ledgers) && forall w :: w in ws ==> w.prices.Some?
  {
    forall n: nat :: n < |ws| && (n + 1) % RECONCILE_INTERVAL == 0 ==>
      var d := AuditedDesk(e, s, ws, n);
      d.ledgers.Keys == e.desk.ledgers.Keys && Drifts(d, s.order, ws[n].listing)
  }

  /** Without a publisher, a mismatch that persists halts the desk at exactly the configured number of
      audits: with the default of three, from tick 179 on. */
  lemma {:induction false} DriftHaltsOnSchedule(e: Engine, s: Setup, ws: seq<TickWorld>)
    requires Enumerates(s.order, e.desk.ledgers) && Steady(s, ws) && !s.publishes
    requires e.lastReconcile == -1 && e.cyclesFailed == 0 && s.auditor.value.feeDriftAbs >= 0.0
    requires AlwaysDrifts(e, s, ws)
    ensures var m, audits := RunTicks(e, s, ws).0, |ws| / 60;
            && m.cyclesFailed == audits
            && (m.desk.risk.deskHalted <==>
                  e.desk.risk.deskHalted || (audits > 0 && audits >= s.auditor.value.positionMismatchCycles))
  {
    hide AfterTick, RunTicks, Traded, Drifts, Sound, AlwaysDrifts;
    if |ws| > 0 {
      var n := |ws| - 1;
      SteadyStep(e, s, ws);
      AlwaysDriftsSplit(e, s, ws);
      DriftHaltsOnSchedule(e, s, ws[..n]);
      AuditSchedule(e, s, ws[..n]);
      NextAudit(n);
      DriftTick(RunTicks(e, s, ws[..n]).0, s, n, ws[n]);
    } else {
      NoTicks(e, s);
      assert ws == [];
    }
  }

  lemma NoTicks(e: Engine, s: Setup)
    requires Enumerates(s.order, e.desk.ledgers)
    ensures RunTicks(e, s, []) == (e, true)
  {
  }

  lemma AlwaysDriftsSplit(e: Engine, s: Setup, ws: seq<TickWorld>)
    requires Enumerates(s.order, e.desk.ledgers) && Steady(s, ws) && |ws| > 0 && AlwaysDrifts(e, s, ws)
    ensures var n := |ws| - 1;
            && Steady(s, ws[..n]) && AlwaysDrifts(e, s, ws[..n])
            && ((n + 1) % RECONCILE_INTERVAL == 0 ==>
                  var d := Traded(RunTicks(e, s, ws[..n]).0, s, ws[n]).desk;
                  d.ledgers.Keys == e.desk.ledgers.Keys && Drifts(d, s.order, ws[n].listing))
  {
    hide RunTicks, Traded, Drifts, Sound;
    var n := |ws| - 1;
    forall k: nat | k < n
      ensures AuditedDesk(e, s, ws[..n], k) == AuditedDesk(e, s, ws, k)
    {
      assert ws[..n][..k] == ws[..k];
    }
  }

  lemma NextAudit(n: nat)
    ensures n - (n / RECONCILE_INTERVAL * RECONCILE_INTERVAL - 1) < RECONCILE_INTERVAL
            <==> (n + 1) % RECONCILE_INTERVAL != 0
    ensures (n + 1) / RECONCILE_INTERVAL
            == n / RECONCILE_INTERVAL + (if (n + 1) % RECONCILE_INTERVAL == 0 then 1 else 0)
  {
  }

  lemma {:induction false} DriftTick(e: Engine, s: Setup, tick: int, w: TickWorld)
    requires Enumerates(s.order, e.desk.ledgers) && w.prices.Some? && s.auditor.Some? && !s.publishes
    requires AfterTick(e, s, tick, w).1.Completed? && s.auditor.value.feeDriftAbs >= 0.0
    requires tick - e.lastReconcile >= RECONCILE_INTERVAL ==>
               var d := Traded(e, s, w).desk;
               d.ledgers.Keys == e.desk.ledgers.Keys && Drifts(d, s.order, w.listing)
    ensures var m, due := AfterTick(e, s, tick, w).0, tick - e.lastReconcile >= RECONCILE_INTERVAL;
            && m.cyclesFailed == e.cyclesFailed + (if due then 1 else 0)
            && (m.desk.risk.deskHalted <==>
                  e.desk.risk.deskHalted || (due && m.cyclesFailed >= s.auditor.value.positionMismatchCycles))
  {
    hide Traded, PositionsMatch, BuildContext;
    RoundKeepsSettings(e, s, w);
  }

  lemma SteadyStep(e: Engine, s: Setup, ws: seq<TickWorld>)
    requires Enumerates(s.order, e.desk.ledgers) && Steady(s, ws) && |ws| > 0
    ensures var n := |ws| - 1;
            && Steady(s, ws[..n])
            && (RunTicks(e, s, ws).0, Completed) == AfterTick(RunTicks(e, s, ws[..n]).0, s, n, ws[n])
  {
    hide AfterTick, Sound;
    SoundRunNeverStops(e, s, ws[..|ws| - 1]);
    SoundRunNeverStops(e, s, ws);
  }

  lemma {:induction false} HaltedDeskIsInert(d: Desk, calls: seq<Call>)
    requires d.risk.deskHalted
    ensures RunDesk(d, calls) == d
  {
    hide AfterIntent;
    if |calls| > 0 {
      HaltedDeskIsInert(d, calls[..|calls| - 1]);
      StoppedCallIsInert(d, calls[|calls| - 1]);
    }
  }

  /** The stored flag cannot be read in this tick, or says halted. */
  predicate FlagLeavesHalt(s: Setup, w: TickWorld) { !s.publishes || w.halt.Unreadable? || w.halt.halted }

  lemma {:induction false} HaltedTickIsInert(e: Engine, s: Setup, tick: int, w: TickWorld)
    requires Enumerates(s.order, e.desk.ledgers) && e.desk.risk.deskHalted && FlagLeavesHalt(s, w)
    ensures AfterTick(e, s, tick, w).0.desk == e.desk
  {
    hide Drifts, AfterRound, Calls, RunDesk;
    assert Checked(e, s, w) == e.desk;
    if w.prices.Some? {
      RoundIsRun(Opening(e, s, w), s.bots, w.prices.value, e.prev, w);
      HaltedDeskIsInert(e.desk, Calls(Opening(e, s, w), s.bots, w.prices.value, e.prev, w));
    }
  }

  /** Tick `n` of the run, if the run gets to it, reads no cleared flag. */
  ghost predicate NoClearedFlag(e: Engine, s: Setup, ws: seq<TickWorld>, n: nat)
    requires Enumerates(s.order, e.desk.ledgers) && n < |ws|
  {
    RunTicks(e, s, ws[..n]).1 ==> FlagLeavesHalt(s, ws[n])
  }

  /** A halted desk that no read of the stored flag releases stays as it is: no order, no fill, no change to
      any ledger or to the account. */
  lemma {:induction false} HaltStandsUntilFlagClears(e: Engine, s: Setup, ws: seq<TickWorld>, from: nat)
    requires Enumerates(s.order, e.desk.ledgers) && from <= |ws|
    requires RunTicks(e, s, ws[..from]).0.desk.risk.deskHalted
    requires forall n :: from <= n < |ws| ==> NoClearedFlag(e, s, ws, n)
    ensures RunTicks(e, s, ws).0.desk == RunTicks(e, s, ws[..from]).0.desk
  {
    hide AfterTick, FlagLeavesHalt;
    if from == |ws| {
      assert ws[..from] == ws;
    } else {
      var k := |ws| - 1;
      assert ws[..k][..from] == ws[..from];
      forall n | from <= n < k
        ensures NoClearedFlag(e, s, ws[..k], n)
      {
        assert NoClearedFlag(e, s, ws, n);
        assert ws[..k][..n] == ws[..n];
      }
      HaltStandsUntilFlagClears(e, s, ws[..k], from);
      assert NoClearedFlag(e, s, ws, k);
      var (m, alive) := RunTicks(e, s, ws[..k]);
      if alive {
        HaltedTickIsInert(m, s, k, ws[k]);
      }
    }
  }

  /** So without a publisher a persistent mismatch freezes the desk for good. */
  lemma DriftFreezesDesk(e: Engine, s: Setup, ws: seq<TickWorld>, from: nat)
    requires Enumerates(s.order, e.desk.ledgers) && from <= |ws| && Steady(s, ws[..from]) && !s.publishes
    requires e.lastReconcile == -1 && e.cyclesFailed == 0 && s.auditor.value.feeDriftAbs >= 0.0
    requires AlwaysDrifts(e, s, ws[..from])
    requires var audits := from / RECONCILE_INTERVAL; audits > 0 && audits >= s.auditor.value.positionMismatchCycles
    ensures RunTicks(e, s, ws).0.desk == RunTicks(e, s, ws[..from]).0.desk
  {
    hide RunTicks, AlwaysDrifts, Sound;
    DriftHaltsOnSchedule(e, s, ws[..from]);
    HaltStandsUntilFlagClears(e, s, ws, from);
  }

  // ---------- With a publisher ----------

  /** What a tick does with the desk halted or not, before the stored flag is read. */
  ghost predicate SameBut(e: Engine, f: Engine) {
    && e.prev == f.prev && e.executed == f.executed && e.rejected == f.rejected
    && e.desk.(risk := f.desk.risk) == f.desk
    && e.desk.risk.(deskHalted := f.desk.risk.deskHalted) == f.desk.risk
  }

  /** With a publisher whose flag is always readable the auditor is powerless: the run with it and the run
      without it make the same trades, leave the same ledgers, account and store, and wake the same bots.
      Its halt is overwritten by the stored flag before the next bot has a turn. */
  lemma {:induction false} AuditorIsPowerless(e: Engine, s: Setup, ws: seq<TickWorld>)
    requires Enumerates(s.order, e.desk.ledgers) && s.publishes && forall w :: w in ws ==> w.halt.Flag?
    ensures var (m, alive) := RunTicks(e, s, ws);
            var (n, alive') := RunTicks(e, s.(auditor := None), ws);
            alive == alive' && SameBut(m, n)
  {
    hide AfterTick, SameBut;
    SameAsItself(e);
    if |ws| > 0 {
      var k := |ws| - 1;
      AuditorIsPowerless(e, s, ws[..k]);
      var m, n := RunTicks(e, s, ws[..k]).0, RunTicks(e, s.(auditor := None), ws[..k]).0;
      TickIgnoresHalt(m, n, s, k, ws[k]);
    }
  }

  lemma SameAsItself(e: Engine)
    ensures SameBut(e, e)
  {
  }

  lemma {:induction false} TickIgnoresHalt(e: Engine, f: Engine, s: Setup, tick: int, w: TickWorld)
    requires Enumerates(s.order, e.desk.ledgers) && Enumerates(s.order, f.desk.ledgers)
    requires SameBut(e, f) && s.publishes && w.halt.Flag?
    ensures var (m, ending) := AfterTick(e, s, tick, w);
            var (n, ending') := AfterTick(f, s.(auditor := None), tick, w);
            ending == ending' && SameBut(m, n)
  {
    hide Drifts, AfterRound, BuildContext;
    assert Checked(e, s, w) == Checked(f, s, w);
    assert Opening(e, s, w) == Opening(f, s.(auditor := None), w);
  }

  // ---------- False alarms ----------

  /** The broker accounts of the desk, and the one whose positions the auditor is shown. */
  datatype Custody = Custody(ids: seq<string>, home: string)

  /** Every fill reported in the round is covered by the selling bot's own holding. */
  ghost predicate RoundCovered(e: Engine, s: Setup, w: TickWorld)
    requires w.prices.Some?
  {
    var calls := Calls(Opening(e, s, w), s.bots, w.prices.value, e.prev, w);
    forall k :: 0 <= k < |calls| ==> Covered(RunDesk(Checked(e, s, w), calls[..k]), calls[k])
  }

  /** What the auditor is shown, if anything, is account `home` as it stands after the tick's trading. */
  ghost predicate HonestListing(e: Engine, s: Setup, c: Custody, w: TickWorld)
    requires w.prices.Some?
  {
    var accounts := Traded(e, s, w).desk.accounts;
    w.listing.Some? && c.home in accounts ==> Lists(w.listing.value, accounts[c.home])
  }

  ghost predicate InOrder(d: Desk, s: Setup, c: Custody) {
    Agrees(d, s.order, c.ids) && AllWellFormed(d) && c.home in d.accounts
  }

  /** The accounts other than `home` are flat over all when tick `n` has traded. */
  ghost predicate OthersFlatAfter(e: Engine, s: Setup, c: Custody, w: TickWorld)
    requires w.prices.Some? && Enumerates(c.ids, e.desk.accounts) && c.home in e.desk.accounts
  {
    RoundKeepsSettings(e, s, w);
    OthersFlat(Traded(e, s, w).desk, c.ids, c.home)
  }

  /** The tick gets as far as an audit of positions. */
  ghost predicate Audits(e: Engine, s: Setup, tick: int, w: TickWorld) {
    && |s.bots| > 0 && w.prices.Some? && !Traded(e, s, w).raised
    && s.auditor.Some? && tick - e.lastReconcile >= RECONCILE_INTERVAL && w.listing.Some?
  }

  /** A tick whose sells are covered keeps agreement; its audit, against an honest listing, fails exactly when
      shares are held outside the account it is shown. */
  lemma {:induction false} TickAlarmsIff(e: Engine, s: Setup, c: Custody, tick: int, w: TickWorld)
    requires Enumerates(s.order, e.desk.ledgers) && InOrder(e.desk, s, c)
    requires w.prices.Some? ==> RoundCovered(e, s, w) && HonestListing(e, s, c, w)
    ensures var m := AfterTick(e, s, tick, w).0;
            && InOrder(m.desk, s, c)
            && m.cyclesFailed == (if !Audits(e, s, tick, w) then e.cyclesFailed
                                  else if OthersFlatAfter(e, s, c, w) then 0 else e.cyclesFailed + 1)
            && (!s.publishes && (Audits(e, s, tick, w) ==> OthersFlatAfter(e, s, c, w)) ==> m.desk.risk == e.desk.risk)
  {
    hide AfterRound, Calls, RunDesk, AllWellFormed, PositionsMatch, Lists, OthersFlat, BuildContext;
    hide AllBooks, AllAccounts, LedgerTotal, AccountTotal;
    HaltsDoNotMatter(e.desk, Checked(e, s, w).risk, s.order, c.ids);
    if w.prices.Some? {
      var d, calls := Checked(e, s, w), Calls(Opening(e, s, w), s.bots, w.prices.value, e.prev, w);
      AgreementOverRuns(d, calls, s.order, c.ids);
      RoundIsRun(Opening(e, s, w), s.bots, w.prices.value, e.prev, w);
      RoundKeepsSettings(e, s, w);
      var t := Traded(e, s, w).desk;
      if w.listing.Some? {
        AuditPassesIffOthersFlat(t, s.order, c.ids, c.home, w.listing.value);
      }
      HaltsDoNotMatter(t, AfterTick(e, s, tick, w).0.desk.risk, s.order, c.ids);
    }
  }

  /** In every tick of the run the sells are covered and the listing is honest. */
  ghost predicate AllFair(e: Engine, s: Setup, c: Custody, ws: seq<TickWorld>)
    requires Enumerates(s.order, e.desk.ledgers)
  {
    |ws| > 0 ==>
      var n := |ws| - 1;
      var m := RunTicks(e, s, ws[..n]).0;
      AllFair(e, s, c, ws[..n]) && (ws[n].prices.Some? ==> RoundCovered(m, s, ws[n]) && HonestListing(m, s, c, ws[n]))
  }

  /** The tick is audited while shares are held outside the account the auditor is shown. */
  ghost predicate AuditedWithOthers(e: Engine, s: Setup, c: Custody, tick: int, w: TickWorld) {
    && Audits(e, s, tick, w)
    && Enumerates(c.ids, e.desk.accounts) && c.home in e.desk.accounts && !OthersFlatAfter(e, s, c, w)
  }

  ghost predicate NeverAuditedWithOthers(e: Engine, s: Setup, c: Custody, ws: seq<TickWorld>)
    requires Enumerates(s.order, e.desk.ledgers)
  {
    |ws| > 0 ==>
      var n := |ws| - 1;
      var (m, alive) := RunTicks(e, s, ws[..n]);
      NeverAuditedWithOthers(e, s, c, ws[..n]) && !(alive && AuditedWithOthers(m, s, c, n, ws[n]))
  }

  /** At no time in the run has the auditor counted a failure. */
  ghost predicate NeverAlarmed(e: Engine, s: Setup, ws: seq<TickWorld>)
    requires Enumerates(s.order, e.desk.ledgers)
  {
    RunTicks(e, s, ws).0.cyclesFailed == 0 && (|ws| > 0 ==> NeverAlarmed(e, s, ws[..|ws| - 1]))
  }

  /** From agreement with the brokers, any run of ticks whose sells are covered stays in agreement, however its
      orders are routed.  Yet the auditor never counts a failure exactly when, at every audit, the accounts it
      is not shown are flat over all; then it halts nothing either. */
  lemma {:induction false} NoFalseAlarmIff(e: Engine, s: Setup, c: Custody, ws: seq<TickWorld>)
    requires Enumerates(s.order, e.desk.ledgers) && InOrder(e.desk, s, c) && e.cyclesFailed == 0
    requires AllFair(e, s, c, ws)
    ensures InOrder(RunTicks(e, s, ws).0.desk, s, c)
    ensures NeverAlarmed(e, s, ws) <==> NeverAuditedWithOthers(e, s, c, ws)
    ensures !s.publishes && NeverAuditedWithOthers(e, s, c, ws) ==> RunTicks(e, s, ws).0.desk.risk == e.desk.risk
  {
    hide AfterTick, InOrder, RoundCovered, HonestListing, Audits, OthersFlatAfter;
    if |ws| > 0 {
      var k := |ws| - 1;
      NoFalseAlarmIff(e, s, c, ws[..k]);
      var (m, alive) := RunTicks(e, s, ws[..k]);
      InOrderHas(m.desk, s, c);
      if alive {
        TickAlarmsIff(m, s, c, k, ws[k]);
      }
    }
  }

  /** With one account for the whole desk there is nothing the auditor is not shown. */
  lemma {:induction false} OneAccountNeverAlarms(e: Engine, s: Setup, c: Custody, ws: seq<TickWorld>)
    requires Enumerates(s.order, e.desk.ledgers) && InOrder(e.desk, s, c) && e.cyclesFailed == 0
    requires AllFair(e, s, c, ws) && c.ids == [c.home]
    ensures NeverAlarmed(e, s, ws)
  {
    hide AfterTick, InOrder, AllFair, RunTicks, NeverAlarmed, NeverAuditedWithOthers;
    OneAccountHidesNothing(e, s, c, ws);
    NoFalseAlarmIff(e, s, c, ws);
  }

  lemma {:induction false} OneAccountHidesNothing(e: Engine, s: Setup, c: Custody, ws: seq<TickWorld>)
    requires Enumerates(s.order, e.desk.ledgers) && c.ids == [c.home]
    ensures NeverAuditedWithOthers(e, s, c, ws)
  {
    hide AfterTick, Traded, OthersFlatAfter;
    if |ws| > 0 {
      var k := |ws| - 1;
      OneAccountHidesNothing(e, s, c, ws[..k]);
      var m := RunTicks(e, s, ws[..k]).0;
      if AuditedWithOthers(m, s, c, k, ws[k]) {
        OneAccountFlat(m, s, c, ws[k]);
      }
    }
  }

  lemma {:induction false} OneAccountFlat(e: Engine, s: Setup, c: Custody, w: TickWorld)
    requires w.prices.Some? && Enumerates(c.ids, e.desk.accounts) && c.home in e.desk.accounts && c.ids == [c.home]
    ensures OthersFlatAfter(e, s, c, w)
  {
    hide Traded, OthersFlat;
    RoundKeepsSettings(e, s, w);
    OneAccountHasNoOthers(Traded(e, s, w).desk, c.home);
  }

  lemma InOrderHas(d: Desk, s: Setup, c: Custody)
    requires InOrder(d, s, c)
    ensures Enumerates(c.ids, d.accounts) && c.home in d.accounts
  {
  }

  // ---------- The ledgers over a run of ticks ----------

  /** The fills the brokers report for a bot over a run of ticks, in order. */
  ghost function ReportsOverTicks(e: Engine, s: Setup, ws: seq<TickWorld>, botId: string): seq<Fill>
    requires Enumerates(s.order, e.desk.ledgers)
  {
    if |ws| == 0 then []
    else
      var n := |ws| - 1;
      var (m, alive) := RunTicks(e, s, ws[..n]);
      var before := ReportsOverTicks(e, s, ws[..n], botId);
      if !alive || |s.bots| == 0 || ws[n].prices.None? then before
      else before + ReportsFor(Checked(m, s, ws[n]), TickCalls(m, s, ws[n]), botId)
  }

  function TickCalls(e: Engine, s: Setup, w: TickWorld): seq<Call>
    requires w.prices.Some?
  {
    Calls(Opening(e, s, w), s.bots, w.prices.value, e.prev, w)
  }

  /** Whatever the halts in between, every ledger, histories included, is the run of the fills reported for
      it. */
  lemma {:induction false} TicksSettleReports(e: Engine, s: Setup, ws: seq<TickWorld>, botId: string)
    requires Enumerates(s.order, e.desk.ledgers) && botId in e.desk.ledgers
    ensures var m, fills := RunTicks(e, s, ws).0, ReportsOverTicks(e, s, ws, botId);
            && PositiveFills(fills)
            && m.desk.ledgers[botId] == RunLedger(e.desk.ledgers[botId], fills)
            && BooksOf(m.desk, botId) == RunBooks(BooksOf(e.desk, botId), fills)
  {
    hide AfterTick, RunLedger, RunBooks, ReportsFor;
    var l := e.desk.ledgers[botId];
    if |ws| > 0 {
      var n := |ws| - 1;
      var m, alive := RunTicks(e, s, ws[..n]).0, RunTicks(e, s, ws[..n]).1;
      var before := ReportsOverTicks(e, s, ws[..n], botId);
      TicksSettleReports(e, s, ws[..n], botId);
      if alive {
        TickSettlesReports(m, s, n, ws[n], botId);
        if |s.bots| > 0 && ws[n].prices.Some? {
          RunConcat(l, before, ReportsFor(Checked(m, s, ws[n]), TickCalls(m, s, ws[n]), botId));
        }
      }
    } else {
      NoFills(l);
    }
    ReplayAccepted(l, ReportsOverTicks(e, s, ws, botId));
  }

  lemma NoFills(l: LedgerState)
    ensures RunLedger(l, []) == l
  {
  }

  lemma {:induction false} TickSettlesReports(e: Engine, s: Setup, tick: int, w: TickWorld, botId: string)
    requires Enumerates(s.order, e.desk.ledgers) && botId in e.desk.ledgers
    ensures var l := AfterTick(e, s, tick, w).0.desk.ledgers[botId];
            if |s.bots| == 0 || w.prices.None? then l == e.desk.ledgers[botId]
            else
              var fills := ReportsFor(Checked(e, s, w), TickCalls(e, s, w), botId);
              PositiveFills(fills) && l == RunLedger(e.desk.ledgers[botId], fills)
  {
    hide Drifts, AfterRound, Calls, RunDesk, BuildContext, ReportsFor;
    if w.prices.Some? {
      RoundIsRun(Opening(e, s, w), s.bots, w.prices.value, e.prev, w);
      LedgersAreRuns(Checked(e, s, w), TickCalls(e, s, w), botId);
    }
  }

  /** Conservation of money over ticks, for the fills the brokers reported. */
  lemma TicksConserveMoney(e: Engine, s: Setup, ws: seq<TickWorld>, botId: string, capital: real)
    requires Enumerates(s.order, e.desk.ledgers) && botId in e.desk.ledgers
    requires BooksOf(e.desk, botId) == FreshBooks(capital)
    ensures var b := BooksOf(RunTicks(e, s, ws).0.desk, botId);
            b.realizedPnl
            == Total(CashFlow, Accepted(FreshBooks(capital), ReportsOverTicks(e, s, ws, botId)))
               + BookValue(b.positions)
  {
    hide RunTicks, ReportsOverTicks;
    TicksSettleReports(e, s, ws, botId);
    MoneyIsConserved(capital, ReportsOverTicks(e, s, ws, botId));
  }

  /** The fills reported for a bot up to call `k` of the tick after a run of ticks. */
  ghost function ReportsUpTo(e: Engine, s: Setup, ws: seq<TickWorld>, w: TickWorld, k: nat, botId: string): seq<Fill>
    requires Enumerates(s.order, e.desk.ledgers) && w.prices.Some?
    requires k <= |TickCalls(RunTicks(e, s, ws).0, s, w)|
  {
    var m := RunTicks(e, s, ws).0;
    ReportsOverTicks(e, s, ws, botId) + ReportsFor(Checked(m, s, w), TickCalls(m, s, w)[..k], botId)
  }

  /** Drawdown safety in the loop: a buy submitted in any tick finds the bot's equity at or above
      (1 - max_drawdown_pct) times the largest equity it has had since the start of the run, fill by reported
      fill. */
  lemma {:induction false} BuysRespectDrawdownOverTicks(
    e: Engine, s: Setup, ws: seq<TickWorld>, w: TickWorld, k: nat, id: string)
    requires Enumerates(s.order, e.desk.ledgers) && w.prices.Some? && id in e.desk.ledgers
    requires BooksOf(e.desk, id).highWaterMark == BooksOf(e.desk, id).Equity() > 0.0
    ensures var m := RunTicks(e, s, ws).0;
            var calls := TickCalls(m, s, w);
            k < |calls| && calls[k].intent.botId == id ==>
              var d, fills := RunDesk(Checked(m, s, w), calls[..k]), ReportsUpTo(e, s, ws, w, k, id);
              && id in d.ledgers
              && BooksOf(d, id) == RunBooks(BooksOf(e.desk, id), fills)
              && (Submits(d, calls[k]) && calls[k].intent.action.ActBuy? ==>
                    exists peak :: IsPeakEquity(BooksOf(e.desk, id), fills, peak)
                                   && BooksOf(d, id).Equity() >= (1.0 - d.cfg.maxDrawdownPct) * peak)
  {
    hide RunTicks, TickCalls, RunDesk, Submits, IsPeakEquity, RunBooks, RunLedger, ReportsOverTicks, ReportsFor;
    var m := RunTicks(e, s, ws).0;
    var calls := TickCalls(m, s, w);
    if k < |calls| && calls[k].intent.botId == id {
      var start, fills := Checked(m, s, w), ReportsUpTo(e, s, ws, w, k, id);
      var d := RunDesk(start, calls[..k]);
      LedgerUpTo(e, s, ws, w, k, id);
      if Submits(d, calls[k]) && calls[k].intent.action.ActBuy? {
        SubmittedBuyIsAboveFloor(d, calls[k], BooksOf(e.desk, id), fills);
      }
    }
  }

  lemma {:induction false} LedgerUpTo(e: Engine, s: Setup, ws: seq<TickWorld>, w: TickWorld, k: nat, id: string)
    requires Enumerates(s.order, e.desk.ledgers) && w.prices.Some? && id in e.desk.ledgers
    requires k <= |TickCalls(RunTicks(e, s, ws).0, s, w)|
    ensures var m := RunTicks(e, s, ws).0;
            var d, fills := RunDesk(Checked(m, s, w), TickCalls(m, s, w)[..k]), ReportsUpTo(e, s, ws, w, k, id);
            && id in d.ledgers
            && d.ledgers[id] == RunLedger(e.desk.ledgers[id], fills)
            && BooksOf(d, id) == RunBooks(BooksOf(e.desk, id), fills)
  {
    hide RunTicks, TickCalls, RunDesk, RunBooks, RunLedger, ReportsOverTicks, ReportsFor;
    var m, l := RunTicks(e, s, ws).0, e.desk.ledgers[id];
    var start, calls := Checked(m, s, w), TickCalls(m, s, w)[..k];
    TicksSettleReports(e, s, ws, id);
    LedgersAreRuns(start, calls, id);
    RunConcat(l, ReportsOverTicks(e, s, ws, id), ReportsFor(start, calls, id));
    ReplayAccepted(l, ReportsUpTo(e, s, ws, w, k, id));
  }

  // ---------- Kill switches over a run of ticks ----------

  lemma {:induction false} TickKeepsHaltedBot(e: Engine, s: Setup, tick: int, w: TickWorld, b: string)
    requires Enumerates(s.order, e.desk.ledgers) && b in e.desk.ledgers && b in e.desk.risk.haltedBots
    ensures var m := AfterTick(e, s, tick, w).0;
            m.desk.ledgers[b] == e.desk.ledgers[b] && m.desk.risk.haltedBots == e.desk.risk.haltedBots
  {
    hide Drifts, AfterRound, Calls, RunDesk, BuildContext;
    if w.prices.Some? {
      RoundIsRun(Opening(e, s, w), s.bots, w.prices.value, e.prev, w);
      RoundKeepsSettings(e, s, w);
      HaltedBotIsFrozen(Checked(e, s, w), TickCalls(e, s, w), b);
    }
  }

  /** A halted bot trades in no tick, whatever the stored flag says: that flag is about the desk. */
  lemma {:induction false} HaltedBotStaysOut(e: Engine, s: Setup, ws: seq<TickWorld>, b: string)
    requires Enumerates(s.order, e.desk.ledgers) && b in e.desk.ledgers && b in e.desk.risk.haltedBots
    ensures var m := RunTicks(e, s, ws).0;
            m.desk.ledgers[b] == e.desk.ledgers[b] && m.desk.risk.haltedBots == e.desk.risk.haltedBots
  {
    hide AfterTick;
    if |ws| > 0 {
      var n := |ws| - 1;
      HaltedBotStaysOut(e, s, ws[..n], b);
      TickKeepsHaltedBot(RunTicks(e, s, ws[..n]).0, s, n, ws[n], b);
    }
  }

  lemma {:induction false} HaltedBotSubmitsNothing(e: Engine, s: Setup, ws: seq<TickWorld>, b: string, w: TickWorld)
    requires Enumerates(s.order, e.desk.ledgers) && b in e.desk.ledgers && b in e.desk.risk.haltedBots
    requires w.prices.Some?
    ensures var m := RunTicks(e, s, ws).0;
            var calls := TickCalls(m, s, w);
            forall k :: 0 <= k < |calls| && calls[k].intent.botId == b ==>
              !Submits(RunDesk(Checked(m, s, w), calls[..k]), calls[k])
  {
    hide RunTicks, TickCalls, RunDesk, Submits;
    HaltedBotStaysOut(e, s, ws, b);
    var m := RunTicks(e, s, ws).0;
    HaltedBotIsFrozen(Checked(m, s, w), TickCalls(m, s, w), b);
  }

  /** A verb against one bot that got as far as its halt stands over every run of ticks, under every stored
      flag: the bot submits nothing and its ledger stays as the verb left it. */
  lemma {:induction false} BotKillStands(
    e: Engine, s: Setup, verb: Verb, b: string, prices: Prices, v: Venue, ws: seq<TickWorld>, w: TickWorld)
    requires Enumerates(s.order, e.desk.ledgers) && AllWellFormed(e.desk) && b in e.desk.ledgers && b != ""
    requires AllGoThrough(e.desk, Some(b), WantedBy(verb, prices), v) && w.prices.Some?
    ensures var killed := e.(desk := AfterVerb(e.desk, s.order, verb, Some(b), prices, v).0);
            && killed.desk.ledgers.Keys == e.desk.ledgers.Keys
            && var m := RunTicks(killed, s, ws).0;
               var calls := TickCalls(m, s, w);
               && m.desk.ledgers[b] == killed.desk.ledgers[b]
               && forall k :: 0 <= k < |calls| && calls[k].intent.botId == b ==>
                    !Submits(RunDesk(Checked(m, s, w), calls[..k]), calls[k])
  {
    hide RunTicks, TickCalls, RunDesk, Submits, SellAndHalt, AllGoThrough;
    HaltIsSetIff(e.desk, s.order, Some(b), WantedBy(verb, prices), v);
    var killed := e.(desk := AfterVerb(e.desk, s.order, verb, Some(b), prices, v).0);
    HaltedBotStaysOut(killed, s, ws, b);
    HaltedBotSubmitsNothing(killed, s, ws, b, w);
  }

  /** Tick `n` of the run, if the run gets to it, lets its bots have their turns on a halted desk. */
  ghost predicate HaltedIn(e: Engine, s: Setup, ws: seq<TickWorld>, n: nat)
    requires Enumerates(s.order, e.desk.ledgers) && n < |ws|
  {
    var (m, alive) := RunTicks(e, s, ws[..n]);
    alive ==> Checked(m, s, ws[n]).risk.deskHalted
  }

  /** A halt of the desk, by a verb or by the auditor, stands over a run of ticks exactly while no tick reads
      a cleared flag; and while it stands the desk does not change. */
  lemma {:induction false} DeskHaltStandsIff(e: Engine, s: Setup, ws: seq<TickWorld>)
    requires Enumerates(s.order, e.desk.ledgers) && e.desk.risk.deskHalted
    ensures (forall n: nat :: n < |ws| ==> HaltedIn(e, s, ws, n))
            <==> forall n: nat :: n < |ws| ==> NoClearedFlag(e, s, ws, n)
    ensures (forall n: nat :: n < |ws| ==> NoClearedFlag(e, s, ws, n)) ==> RunTicks(e, s, ws).0.desk == e.desk
  {
    hide RunTicks;
    assert ws[..0] == [];
    NoTicks(e, s);
    if forall n: nat :: n < |ws| ==> NoClearedFlag(e, s, ws, n) {
      HaltStandsUntilFlagClears(e, s, ws, 0);
      forall n: nat | n < |ws|
        ensures HaltedIn(e, s, ws, n)
      {
        HaltStandsSoFar(e, s, ws, n);
      }
    } else {
      var n: nat :| n < |ws| && !NoClearedFlag(e, s, ws, n);
      assert !HaltedIn(e, s, ws, n);
    }
  }

  lemma {:induction false} HaltStandsSoFar(e: Engine, s: Setup, ws: seq<TickWorld>, n: nat)
    requires Enumerates(s.order, e.desk.ledgers) && e.desk.risk.deskHalted && n < |ws|
    requires forall i: nat :: i < |ws| ==> NoClearedFlag(e, s, ws, i)
    ensures HaltedIn(e, s, ws, n)
  {
    hide RunTicks, FlagLeavesHalt;
    NoTicks(e, s);
    assert ws[..n][..0] == [];
    forall i: nat | i < n
      ensures NoClearedFlag(e, s, ws[..n], i)
    {
      assert NoClearedFlag(e, s, ws, i);
      assert ws[..n][..i] == ws[..i];
    }
    HaltStandsUntilFlagClears(e, s, ws[..n], 0);
    assert NoClearedFlag(e, s, ws, n);
    FlagKeepsHalt(RunTicks(e, s, ws[..n]).0, s, ws[n]);
  }

  lemma FlagKeepsHalt(e: Engine, s: Setup, w: TickWorld)
    ensures FlagLeavesHalt(s, w) && e.desk.risk.deskHalted ==> Checked(e, s, w).risk.deskHalted
  {
  }

  // ---------- The mutable loop ----------

  lemma {:induction false} RaisedStays(
    r: Round, bots: seq<Watch>, i: nat, prices: Prices, prev: Option<Context>, w: TickWorld)
    requires i <= |bots| && AfterRound(r, bots[..i], prices, prev, w).raised
    ensures AfterRound(r, bots, prices, prev, w) == AfterRound(r, bots[..i], prices, prev, w)
    decreases |bots|
  {
    hide AfterTurn;
    if i < |bots| {
      assert bots[..|bots| - 1][..i] == bots[..i];
      RaisedStays(r, bots[..|bots| - 1], i, prices, prev, w);
    } else {
      assert bots[..i] == bots;
    }
  }

  /** Every intent the bots may put in this tick meets the account its call's world names: the cached broker
      of its org, or the one `factory` gives, which is among the brokers of the desk. */
  ghost predicate AllServed(
    cache: map<string, Broker>, factory: map<string, Broker>, brokers: set<Broker>, w: TickWorld)
  {
    forall b :: w.wishes(b).Wants? ==>
      var org := w.wishes(b).intent.orgId;
      Stands(if org in cache then cache[org] else Made(factory, org), brokers, w.calls(b))
  }

  /** Caching what an org is served by changes nothing for anyone. */
  lemma CachingKeepsServed(
    cache: map<string, Broker>, factory: map<string, Broker>, brokers: set<Broker>, w: TickWorld, orgId: string,
    broker: Broker)
    requires AllServed(cache, factory, brokers, w)
    requires broker == if orgId in cache then cache[orgId] else Made(factory, orgId)
    ensures AllServed(cache[orgId := broker], factory, brokers, w)
  {
  }

  /** What the broker factory gives for an org; it raises for one it has no credentials for. */
  function Made(factory: map<string, Broker>, orgId: string): Broker? {
    if orgId in factory then factory[orgId] else null
  }

  class Orchestrator {
    const coordinator: TradeCoordinator
    const publishes: bool
    const auditor: Option<AuditConfig>
    const bots: seq<Watch>
    var cyclesFailed: int
    var lastReconcile: int
    var prevCtx: Option<Context>
    var executed: int
    var rejected: int

    constructor (coordinator: TradeCoordinator, publishes: bool, auditor: Option<AuditConfig>, bots: seq<Watch>)
      requires coordinator.Valid()
      ensures this.coordinator == coordinator && this.publishes == publishes && this.auditor == auditor
      ensures this.bots == bots
      ensures forall brokers: set<Broker> :: DistinctAccounts(brokers) ==>
                View(brokers) == AtStart(coordinator.View(brokers))
    {
      this.coordinator, this.publishes, this.auditor, this.bots := coordinator, publishes, auditor, bots;
      cyclesFailed, lastReconcile, prevCtx, executed, rejected := 0, -1, None, 0, 0;
    }

    ghost function SetupWith(order: seq<string>): Setup { Setup(publishes, auditor, bots, order) }

    ghost function View(brokers: set<Broker>): Engine
      requires coordinator.Valid() && DistinctAccounts(brokers)
      reads this, coordinator, set b | b in coordinator.ledgers :: coordinator.ledgers[b]
      reads set b, p | b in coordinator.ledgers && p in coordinator.ledgers[b].cells :: p
      reads coordinator.riskManager, coordinator.ledgerStore, coordinator.haltStore, brokers
    {
      Engine(coordinator.View(brokers), cyclesFailed, lastReconcile, prevCtx, executed, rejected)
    }

    ghost predicate Serves(factory: map<string, Broker>, brokers: set<Broker>, w: TickWorld)
      reads coordinator
    {
      AllServed(coordinator.brokerCache, factory, brokers, w)
    }

    method SetDeskHalted(halted: bool, ghost brokers: set<Broker>)
      requires coordinator.Valid() && DistinctAccounts(brokers)
      modifies coordinator.riskManager
      ensures coordinator.Valid()
      ensures coordinator.View(brokers)
              == (var d := old(coordinator.View(brokers)); d.(risk := d.risk.(deskHalted := halted)))
    {
      hide Ledger.View;
      if halted {
        coordinator.riskManager.HaltDesk();
      } else {
        coordinator.riskManager.UnhaltDesk();
      }
      assert coordinator.LedgerViews() == old(coordinator.LedgerViews());
    }

    method CheckRemoteHalt(read: HaltRead, ghost brokers: set<Broker>)
      requires coordinator.Valid() && DistinctAccounts(brokers)
      modifies coordinator.riskManager
      ensures coordinator.Valid()
      ensures coordinator.View(brokers)
              == (var d := old(coordinator.View(brokers)); d.(risk := AfterRemoteCheck(d.risk, publishes, read)))
    {
      hide TradeCoordinator.LedgerViews;
      if !publishes || read.Unreadable? {
        return;
      }
      if read.halted && !coordinator.riskManager.deskHalted {
        SetDeskHalted(true, brokers);
      } else if !read.halted && coordinator.riskManager.deskHalted {
        SetDeskHalted(false, brokers);
      }
    }

    method Count(outcome: Outcome, ghost before: Desk, ghost after: Desk)
      modifies `executed, `rejected
      ensures Round(after, executed, rejected, false)
              == CountOutcome(Round(before, old(executed), old(rejected), false), after, outcome)
    {
      match outcome {
        case Executed(_) =>
          executed := executed + 1;
        case HaltedByStore(_) =>
          rejected := rejected + 1;
        case BrokerUnavailable =>
          rejected := rejected + 1;
        case Refused(_) =>
          rejected := rejected + 1;
        case _ =>
      }
    }

    method CollectBooks(order: seq<string>) returns (books: seq<Books>)
      requires coordinator.Valid() && Enumerates(order, coordinator.LedgerViews())
      ensures books == AllBooks(order, coordinator.LedgerViews())
    {
      books := [];
      for i := 0 to |order|
        invariant books == AllBooks(order, coordinator.LedgerViews())[..i]
      {
        assert order[i] in coordinator.LedgerViews();
        books := books + [coordinator.ledgers[order[i]].ViewBooks()];
      }
    }

    method ComparePositions(order: seq<string>, ps: seq<BrokerPosition>) returns (drifts: bool)
      requires coordinator.Valid() && Enumerates(order, coordinator.LedgerViews())
      ensures drifts <==> Drifts(coordinator.View({}), order, Some(ps))
    {
      hide AllBooks, PositionsMatch, Ledger.View;
      var books := CollectBooks(order);
      var check := ReconcilePositions(books, ps);
      drifts := check.Fail?;
    }

    method Audit(order: seq<string>, listing: Option<seq<BrokerPosition>>, ghost brokers: set<Broker>)
      requires coordinator.Valid() && DistinctAccounts(brokers) && auditor.Some?
      requires Enumerates(order, coordinator.LedgerViews())
      modifies this`cyclesFailed, coordinator.riskManager
      ensures coordinator.Valid()
      ensures View(brokers) == Audited(old(View(brokers)), SetupWith(order), listing)
    {
      hide AllBooks, PositionsMatch, TradeCoordinator.LedgerViews;
      if listing.None? {
        return;
      }
      var drifts := ComparePositions(order, listing.value);
      cyclesFailed := if drifts then cyclesFailed + 1 else 0;
      assert coordinator.View(brokers) == old(coordinator.View(brokers));
      if drifts && ShouldKillSwitch(auditor.value, 0.0, cyclesFailed) {
        SetDeskHalted(true, brokers);
      }
    }

    /** `order` is the order of the ledger dictionary. */
    method MaybeReconcile(
      tick: int, order: seq<string>, listing: Option<seq<BrokerPosition>>, ghost brokers: set<Broker>)
      requires coordinator.Valid() && DistinctAccounts(brokers) && Enumerates(order, coordinator.LedgerViews())
      modifies this`cyclesFailed, this`lastReconcile, coordinator.riskManager
      ensures coordinator.Valid()
      ensures View(brokers) == AfterAudit(old(View(brokers)), SetupWith(order), tick, listing)
    {
      hide Audited, TradeCoordinator.LedgerViews;
      if auditor.None? || tick - lastReconcile < RECONCILE_INTERVAL {
        return;
      }
      lastReconcile := tick;
      assert coordinator.View(brokers) == old(coordinator.View(brokers));
      Audit(order, listing, brokers);
    }

    /** Executing an intent through the broker that serves it, seen from the whole desk. */
    method Submit(
      intent: TradeIntent, factory: map<string, Broker>, call: World, ghost brokers: set<Broker>, ghost w: TickWorld)
      returns (outcome: Outcome)
      requires coordinator.Valid() && DistinctAccounts(brokers) && Serves(factory, brokers, w)
      requires Stands(coordinator.BrokerServing(intent.orgId, Made(factory, intent.orgId)), brokers, call)
      modifies coordinator`brokerCache, coordinator.ledgerStore, brokers
      modifies set b | b in coordinator.ledgers :: coordinator.ledgers[b]
      modifies set b, p | b in coordinator.ledgers && p in coordinator.ledgers[b].cells :: p
      ensures coordinator.Valid() && Serves(factory, brokers, w) && coordinator.ledgers == old(coordinator.ledgers)
      ensures unchanged(this)
      ensures (coordinator.View(brokers), outcome) == AfterIntent(old(coordinator.View(brokers)), intent, call)
      ensures forall b :: b in coordinator.ledgers ==>
                fresh(coordinator.ledgers[b].cells - old(coordinator.ledgers[b].cells))
    {
      hide AfterIntent, TradeCoordinator.LedgerViews, TradeCoordinator.View, AllServed, AccountViews, DistinctAccounts;
      var made := Made(factory, intent.orgId);
      ghost var cache, serving := coordinator.brokerCache, coordinator.BrokerServing(intent.orgId, made);
      outcome := coordinator.Execute(intent, made, call, brokers);
      if coordinator.brokerCache != cache {
        CachingKeepsServed(cache, factory, brokers, w, intent.orgId, serving);
      }
    }

    /** What a bot's turn comes to before the coordinator is asked. */
    method Ask(bot: Watch, prices: Prices, w: TickWorld, ghost brokers: set<Broker>)
      returns (answer: Result<Option<TradeIntent>, Failure>)
      requires coordinator.Valid() && DistinctAccounts(brokers)
      ensures answer == Turn(coordinator.View(brokers), bot, prices, prevCtx, w)
      ensures answer.Ok? && answer.value.Some? ==> w.wishes(bot.botId) == Wants(answer.value.value)
    {
      hide BuildContext, Wakes;
      if bot.botId !in coordinator.ledgers {
        return Ok(None);
      }
      var ledger := coordinator.ledgers[bot.botId];
      var wakes := Wakes(bot, BuildContext(prices, Some(ledger.ViewBooks())), prevCtx);
      if wakes.Err? {
        return Err(wakes.error);
      }
      var wish := w.wishes(bot.botId);
      if !wakes.value || !wish.Wants? || wish.intent.action.ActHold? || wish.intent.action.ActNoop? {
        return Ok(None);
      }
      answer := Ok(Some(wish.intent));
    }

    /** The trade of a turn, with its outcome counted. */
    method SubmitAndCount(
      intent: TradeIntent, factory: map<string, Broker>, call: World, ghost brokers: set<Broker>, ghost w: TickWorld)
      requires coordinator.Valid() && DistinctAccounts(brokers) && Serves(factory, brokers, w)
      requires Stands(coordinator.BrokerServing(intent.orgId, Made(factory, intent.orgId)), brokers, call)
      modifies this`executed, this`rejected, coordinator`brokerCache, coordinator.ledgerStore, brokers
      modifies set b | b in coordinator.ledgers :: coordinator.ledgers[b]
      modifies set b, p | b in coordinator.ledgers && p in coordinator.ledgers[b].cells :: p
      ensures coordinator.Valid() && Serves(factory, brokers, w) && coordinator.ledgers == old(coordinator.ledgers)
      ensures var before := old(coordinator.View(brokers));
              var (after, o) := AfterIntent(before, intent, call);
              Round(coordinator.View(brokers), executed, rejected, false)
              == CountOutcome(Round(before, old(executed), old(rejected), false), after, o)
      ensures forall b :: b in coordinator.ledgers ==>
                fresh(coordinator.ledgers[b].cells - old(coordinator.ledgers[b].cells))
    {
      hide AfterIntent, CountOutcome, TradeCoordinator.LedgerViews, TradeCoordinator.Valid, Serves;
      ghost var before := coordinator.View(brokers);
      var outcome := Submit(intent, factory, call, brokers, w);
      ghost var after := coordinator.View(brokers);
      Count(outcome, before, after);
      assert coordinator.View(brokers) == after;
    }

    /** One bot's turn in the tick; true if its predicate raises. */
    method TakeTurn(
      bot: Watch, prices: Prices, factory: map<string, Broker>, w: TickWorld, ghost brokers: set<Broker>)
      returns (raised: bool)
      requires coordinator.Valid() && DistinctAccounts(brokers) && Serves(factory, brokers, w)
      modifies this`executed, this`rejected, coordinator`brokerCache, coordinator.ledgerStore, brokers
      modifies set b | b in coordinator.ledgers :: coordinator.ledgers[b]
      modifies set b, p | b in coordinator.ledgers && p in coordinator.ledgers[b].cells :: p
      ensures coordinator.Valid() && Serves(factory, brokers, w) && coordinator.ledgers == old(coordinator.ledgers)
      ensures Round(coordinator.View(brokers), executed, rejected, raised)
              == AfterTurn(Round(old(coordinator.View(brokers)), old(executed), old(rejected), false),
                           bot, prices, prevCtx, w)
      ensures forall b :: b in coordinator.ledgers ==>
                fresh(coordinator.ledgers[b].cells - old(coordinator.ledgers[b].cells))
    {
      hide AfterIntent, CountOutcome, Turn, Serves, BuildContext, Wakes, AfterRound;
      hide TradeCoordinator.LedgerViews, TradeCoordinator.View, TradeCoordinator.Valid;
      hide AccountViews, DistinctAccounts, Stands, AllServed;
      var answer := Ask(bot, prices, w, brokers);
      if answer.Err? {
        return true;
      }
      raised := false;
      if answer.value.Some? {
        WishIsServed(bot.botId, factory, brokers, w);
        SubmitAndCount(answer.value.value, factory, w.calls(bot.botId), brokers, w);
      }
    }

    lemma WishIsServed(b: string, factory: map<string, Broker>, brokers: set<Broker>, w: TickWorld)
      requires Serves(factory, brokers, w) && w.wishes(b).Wants?
      ensures var org := w.wishes(b).intent.orgId;
              Stands(coordinator.BrokerServing(org, Made(factory, org)), brokers, w.calls(b))
    {
    }

    method WakeBots(
      prices: Prices, factory: map<string, Broker>, w: TickWorld, ghost brokers: set<Broker>) returns (raised: bool)
      requires coordinator.Valid() && DistinctAccounts(brokers) && Serves(factory, brokers, w)
      modifies this`executed, this`rejected, coordinator`brokerCache, coordinator.ledgerStore, brokers
      modifies set b | b in coordinator.ledgers :: coordinator.ledgers[b]
      modifies set b, p | b in coordinator.ledgers && p in coordinator.ledgers[b].cells :: p
      ensures coordinator.Valid() && coordinator.ledgers == old(coordinator.ledgers)
      ensures Round(coordinator.View(brokers), executed, rejected, raised)
              == AfterRound(Round(old(coordinator.View(brokers)), old(executed), old(rejected), false),
                            bots, prices, prevCtx, w)
      ensures forall b :: b in coordinator.ledgers ==>
                fresh(coordinator.ledgers[b].cells - old(coordinator.ledgers[b].cells))
    {
      hide AfterTurn, TradeCoordinator.LedgerViews, TradeCoordinator.Valid, TradeCoordinator.View, Serves;
      hide AccountViews, DistinctAccounts;
      ghost var opening := Round(coordinator.View(brokers), executed, rejected, false);
      raised := false;
      var i := 0;
      while i < |bots|
        invariant i <= |bots| && coordinator.Valid() && Serves(factory, brokers, w)
        invariant coordinator.ledgers == old(coordinator.ledgers) && !raised
        invariant Round(coordinator.View(brokers), executed, rejected, false)
                  == AfterRound(opening, bots[..i], prices, prevCtx, w)
        invariant forall b :: b in coordinator.ledgers ==>
                    fresh(coordinator.ledgers[b].cells - old(coordinator.ledgers[b].cells))
      {
        assert bots[..i + 1][..i] == bots[..i];
        raised := TakeTurn(bots[i], prices, factory, w, brokers);
        i := i + 1;
        if raised {
          RaisedStays(opening, bots, i, prices, prevCtx, w);
          return;
        }
      }
      assert bots[..i] == bots;
    }

    /** The end of a tick whose bots have all had their turn. */
    method CloseTick(tick: int, prices: Prices, order: seq<string>, listing: Option<seq<BrokerPosition>>,
                     ghost brokers: set<Broker>)
      requires coordinator.Valid() && DistinctAccounts(brokers) && Enumerates(order, coordinator.LedgerViews())
      modifies this`cyclesFailed, this`lastReconcile, this`prevCtx, coordinator.riskManager
      ensures coordinator.Valid()
      ensures View(brokers) == AfterAudit(old(View(brokers)), SetupWith(order), tick, listing)
                              .(prev := Some(BuildContext(prices, None)))
    {
      hide AfterAudit, BuildContext, TradeCoordinator.LedgerViews, TradeCoordinator.Valid, TradeCoordinator.View;
      MaybeReconcile(tick, order, listing, brokers);
      ghost var desk := coordinator.View(brokers);
      prevCtx := Some(BuildContext(prices, None));
      assert coordinator.View(brokers) == desk;
    }

    /** One tick, in place. */
    method Tick(
      tick: int, order: seq<string>, factory: map<string, Broker>, w: TickWorld, ghost brokers: set<Broker>)
      returns (ending: Ending)
      requires coordinator.Valid() && DistinctAccounts(brokers) && Serves(factory, brokers, w)
      requires Enumerates(order, coordinator.LedgerViews())
      modifies this, coordinator.riskManager, coordinator`brokerCache, coordinator.ledgerStore, brokers
      modifies set b | b in coordinator.ledgers :: coordinator.ledgers[b]
      modifies set b, p | b in coordinator.ledgers && p in coordinator.ledgers[b].cells :: p
      ensures coordinator.Valid() && coordinator.ledgers == old(coordinator.ledgers)
      ensures (View(brokers), ending) == AfterTick(old(View(brokers)), SetupWith(order), tick, w)
    {
      hide AfterRound, AfterRemoteCheck, AfterAudit, BuildContext, Serves, Enumerates;
      hide TradeCoordinator.LedgerViews, TradeCoordinator.Valid;
      ghost var e, s := View(brokers), SetupWith(order);
      CheckRemoteHalt(w.halt, brokers);
      if |bots| == 0 {
        return NoBots;
      }
      if w.prices.None? {
        return MarketDown;
      }
      RoundKeepsSettings(e, s, w);
      var raised := WakeBots(w.prices.value, factory, w, brokers);
      if raised {
        return PredicateRaised;
      }
      SameBots(order, e.desk.ledgers, coordinator.LedgerViews());
      CloseTick(tick, w.prices.value, order, w.listing, brokers);
      ending := Completed;
    }
  }

  lemma SameBots(order: seq<string>, a: map<string, LedgerState>, b: map<string, LedgerState>)
    requires Enumerates(order, a) && a.Keys == b.Keys
    ensures Enumerates(order, b)
  {
  }
}
