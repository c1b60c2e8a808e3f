/**
 The whole life of a desk: ticks, kill-switch verbs, changes an operator makes to the halts and limits, and
 restarts from the stored snapshots (src/trading_strands/app.py), in any order.

 A ledger's line is the fills it remembers: a restart goes back to the line of its snapshot.
 */
module Lifetimes {
  import opened Prelude
  import opened LedgerModel
  import opened LedgerPersistence
  import opened HaltControl
  import opened Risk
  import opened Coordination
  import opened DeskRuns
  import opened KillSwitches
  import opened Orchestration

  /** `Operate` stands for any sequence of the risk manager's own methods (halts, unhalts, daily loss) and of
      writes to the halt store: it sets what they can set to whatever is wanted. */
  datatype Happening =
    | Ticked(world: TickWorld)
    | Killed(verb: Verb, botId: Option<string>, prices: Prices, venue: Venue)
    | Operate(risk: RiskState, halts: Option<map<string, HaltRow>>)
    | Restart

  /** The tick loop with the number of its next tick; it is no longer alive once a predicate has raised. */
  datatype Life = Life(engine: Engine, tick: int, alive: bool)

  /** The fills behind the ledger in memory, and behind its snapshot if there is one. */
  datatype Lines = Lines(line: seq<Fill>, saved: Option<seq<Fill>>)

  /** At the start of the process a ledger is what the store has of it, or a new one. */
  function BootLedger(store: Option<StoreState>, b: string, capital: real): LedgerState {
    if store.Some? && b in store.value.snapshots then Reload(store.value.snapshots[b]) else Fresh(capital)
  }

  function Rebooted(d: Desk, capitals: map<string, real>): Desk
    requires d.ledgers.Keys <= capitals.Keys
  {
    d.(ledgers := map b | b in d.ledgers :: BootLedger(d.store, b, capitals[b]), risk := RiskState({}, false, 0.0))
  }

  /** What a restart makes of the desk: no bot is halted, and a ledger has its snapshot's balances, positions
      and histories, with a mark of zero taken for one never set; without a snapshot it is empty. */
  lemma RestartReadsSnapshots(d: Desk, capitals: map<string, real>, b: string)
    requires d.ledgers.Keys <= capitals.Keys && b in d.ledgers
    ensures var e := Rebooted(d, capitals);
            var l := e.ledgers[b];
            && !Stopped(e.risk, b) && e.risk.dailyLoss == 0.0
            && e.store == d.store && e.halts == d.halts && e.accounts == d.accounts
            && if d.store.Some? && b in d.store.value.snapshots then
                 var stored := d.store.value.snapshots[b];
                 && l.orderHistory == stored.orderHistory && l.feeLedger == stored.feeLedger
                 && l.books.positions == stored.books.positions && l.books.Equity() == stored.books.Equity()
                 && l.books.highWaterMark == (if stored.books.highWaterMark == 0.0 then stored.books.startingCapital
                                              else stored.books.highWaterMark)
               else
                 && l.orderHistory == [] && l.feeLedger == [] && l.books.positions == []
                 && l.books.Equity() == capitals[b] == l.books.highWaterMark
  {
  }

  ghost function AfterHappening(l: Life, s: Setup, capitals: map<string, real>, h: Happening): (m: Life)
    requires Enumerates(s.order, l.engine.desk.ledgers) && l.engine.desk.ledgers.Keys <= capitals.Keys
    ensures m.engine.desk.ledgers.Keys == l.engine.desk.ledgers.Keys
  {
    var e := l.engine;
    match h
    case Ticked(w) =>
      if !l.alive then l
      else
        var (f, ending) := AfterTick(e, s, l.tick, w);
        Life(f, l.tick + 1, !ending.PredicateRaised?)
    case Killed(verb, botId, prices, v) =>
      VerbKeepsKeys(e.desk, s.order, verb, botId, prices, v);
      l.(engine := e.(desk := AfterVerb(e.desk, s.order, verb, botId, prices, v).0))
    case Operate(risk, halts) => l.(engine := e.(desk := e.desk.(risk := risk, halts := halts)))
    case Restart => Life(AtStart(Rebooted(e.desk, capitals)), 0, true)
  }

  lemma VerbKeepsKeys(
    d: Desk, order: seq<string>, verb: Verb, botId: Option<string>, prices: Prices, v: Venue)
    requires Enumerates(order, d.ledgers)
    ensures var e := AfterVerb(d, order, verb, botId, prices, v).0;
            e.ledgers.Keys == d.ledgers.Keys && e.store == d.store && e.cfg == d.cfg
  {
    hide SweepAll;
    SweepAllKeepsSettings(d, Targets(d.ledgers, order, botId), WantedBy(verb, prices), v);
  }

  ghost function RunLife(l: Life, s: Setup, capitals: map<string, real>, hs: seq<Happening>): (m: Life)
    requires Enumerates(s.order, l.engine.desk.ledgers) && l.engine.desk.ledgers.Keys <= capitals.Keys
    ensures m.engine.desk.ledgers.Keys == l.engine.desk.ledgers.Keys
  {
    if |hs| == 0 then l
    else AfterHappening(RunLife(l, s, capitals, hs[..|hs| - 1]), s, capitals, hs[|hs| - 1])
  }

  // ---------- The line of a ledger ----------

  /** What a call adds to the line of bot `b`, and whether it moves the saved line up to it. */
  ghost function LinesAfterCall(x: Lines, d: Desk, c: Call, b: string): Lines {
    if c.intent.botId != b || Reported(d, c).None? then x
    else
      var line := x.line + [Reported(d, c).value];
      Lines(line, if Saves(d, c) then Some(line) else x.saved)
  }

  ghost function LinesAfterCalls(x: Lines, d: Desk, calls: seq<Call>, b: string): Lines {
    if |calls| == 0 then x
    else
      var n := |calls| - 1;
      LinesAfterCall(LinesAfterCalls(x, d, calls[..n], b), RunDesk(d, calls[..n]), calls[n], b)
  }

  /** The fills a sweep puts to the ledger, the one it refuses included. */
  function SweepReports(
    l: LedgerState, a: Option<Account>, bot: string, hs: seq<Holding>, wanted: Holding -> bool, v: Venue): seq<Fill>
    decreases |hs|
  {
    if |hs| == 0 then []
    else if !wanted(hs[0]) then SweepReports(l, a, bot, hs[1..], wanted, v)
    else
      var reply := v.replies(bot, SellAll(hs[0]));
      var (m, sent, ok) := SellOne(l, a, bot, hs[0], v);
      (if a.Some? && reply.Reports? && reply.result.filledQuantity > 0.0 then [SaleFill(hs[0], reply.result)] else [])
      + (if ok then SweepReports(m, sent, bot, hs[1..], wanted, v) else [])
  }

  function SweepAllReports(d: Desk, bots: seq<string>, wanted: Holding -> bool, v: Venue, b: string): seq<Fill>
    requires forall c :: c in bots ==> c in d.ledgers
    decreases |bots|
  {
    if |bots| == 0 then []
    else
      var c := bots[0];
      var (e, ok) := SweepBot(d, c, wanted, v);
      (if c == b then SweepReports(d.ledgers[c], HomeAccount(d, v), c, BooksOf(d, c).positions, wanted, v) else [])
      + (if ok then SweepAllReports(e, bots[1..], wanted, v, b) else [])
  }

  ghost function LinesAfter(x: Lines, l: Life, s: Setup, h: Happening, b: string): Lines
    requires Enumerates(s.order, l.engine.desk.ledgers)
  {
    var e := l.engine;
    match h
    case Ticked(w) =>
      if !l.alive || |s.bots| == 0 || w.prices.None? then x
      else LinesAfterCalls(x, Checked(e, s, w), TickCalls(e, s, w), b)
    case Killed(verb, botId, prices, v) =>
      if verb.HaltAndStop? then x
      else
        x.(line := x.line
           + SweepAllReports(e.desk, Targets(e.desk.ledgers, s.order, botId), WantedBy(verb, prices), v, b))
    case Operate(_, _) => x
    case Restart => x.(line := if x.saved.Some? then x.saved.value else [])
  }

  /** The line of bot `b` over a life that begins with a new ledger and an empty store. */
  ghost function LinesOf(l: Life, s: Setup, capitals: map<string, real>, hs: seq<Happening>, b: string): Lines
    requires Enumerates(s.order, l.engine.desk.ledgers) && l.engine.desk.ledgers.Keys <= capitals.Keys
  {
    if |hs| == 0 then Lines([], None)
    else
      var n := |hs| - 1;
      LinesAfter(LinesOf(l, s, capitals, hs[..n], b), RunLife(l, s, capitals, hs[..n]), s, hs[n], b)
  }

  /** The ledger is the run of its line, its snapshot the run of the saved line, and that a prefix of it. */
  ghost predicate Told(d: Desk, b: string, capital: real, x: Lines) {
    && b in d.ledgers && PositiveFills(x.line)
    && d.ledgers[b] == RunLedger(Fresh(capital), x.line)
    && (x.saved.Some? <==> d.store.Some? && b in d.store.value.snapshots)
    && (x.saved.Some? ==>
          x.saved.value <= x.line && d.store.value.snapshots[b] == RunLedger(Fresh(capital), x.saved.value))
  }

  lemma {:induction false} CallKeepsTold(d: Desk, c: Call, b: string, capital: real, x: Lines)
    requires Told(d, b, capital, x)
    ensures Told(AfterIntent(d, c.intent, c.world).0, b, capital, LinesAfterCall(x, d, c, b))
  {
    hide AfterIntent, AfterFill, Reported, Settle, RunLedger, Saves;
    CallIsLocal(d, c);
    CallSaves(d, c);
    SavesReports(d, c);
    if c.intent.botId == b {
      CallSettlesReport(d, c);
      if Reported(d, c).Some? {
        var f := Reported(d, c).value;
        RunConcat(Fresh(capital), x.line, [f]);
        RunOne(d.ledgers[b], f);
      }
    }
  }

  lemma SavesReports(d: Desk, c: Call)
    ensures Saves(d, c) ==> c.intent.botId in d.ledgers && d.store.Some? && Reported(d, c).Some?
  {
  }

  lemma {:induction false} CallsKeepTold(d: Desk, calls: seq<Call>, b: string, capital: real, x: Lines)
    requires Told(d, b, capital, x)
    ensures Told(RunDesk(d, calls), b, capital, LinesAfterCalls(x, d, calls, b))
  {
    hide AfterIntent, Told, LinesAfterCall;
    if |calls| > 0 {
      var n := |calls| - 1;
      CallsKeepTold(d, calls[..n], b, capital, x);
      CallKeepsTold(RunDesk(d, calls[..n]), calls[n], b, capital, LinesAfterCalls(x, d, calls[..n], b));
    }
  }

  lemma {:induction false} SweepSettlesReports(
    l: LedgerState, a: Option<Account>, bot: string, hs: seq<Holding>, wanted: Holding -> bool, v: Venue)
    ensures var fills := SweepReports(l, a, bot, hs, wanted, v);
            PositiveFills(fills) && Sweep(l, a, bot, hs, wanted, v).0 == RunLedger(l, fills)
    decreases |hs|
  {
    hide AfterFill, AfterSubmit, RunLedger;
    if |hs| == 0 {
      NoFills(l);
    } else if !wanted(hs[0]) {
      SweepSettlesReports(l, a, bot, hs[1..], wanted, v);
    } else {
      var reply := v.replies(bot, SellAll(hs[0]));
      var (m, sent, ok) := SellOne(l, a, bot, hs[0], v);
      var first: seq<Fill> := [];
      if a.Some? && reply.Reports? && reply.result.filledQuantity > 0.0 {
        first := [SaleFill(hs[0], reply.result)];
        RunOne(l, first[0]);
      } else {
        NoFills(l);
      }
      var rest := if ok then SweepReports(m, sent, bot, hs[1..], wanted, v) else [];
      if ok {
        SweepSettlesReports(m, sent, bot, hs[1..], wanted, v);
      } else {
        NoFills(m);
      }
      RunConcat(l, first, rest);
    }
  }

  lemma {:induction false} SweepBotKeepsTold(
    d: Desk, c: string, wanted: Holding -> bool, v: Venue, b: string, capital: real, x: Lines)
    requires Told(d, b, capital, x) && c in d.ledgers
    ensures var more := if c == b then
                          SweepReports(d.ledgers[c], HomeAccount(d, v), c, BooksOf(d, c).positions, wanted, v) else [];
            Told(SweepBot(d, c, wanted, v).0, b, capital, x.(line := x.line + more))
  {
    hide Sweep, SweepReports, RunLedger;
    if c == b {
      var l, a, ps := d.ledgers[c], HomeAccount(d, v), BooksOf(d, c).positions;
      SweepSettlesReports(l, a, c, ps, wanted, v);
      RunConcat(Fresh(capital), x.line, SweepReports(l, a, c, ps, wanted, v));
    } else {
      assert x.line + [] == x.line;
    }
  }

  lemma {:induction false} SweepAllKeepsTold(
    d: Desk, bots: seq<string>, wanted: Holding -> bool, v: Venue, b: string, capital: real, x: Lines)
    requires Told(d, b, capital, x) && forall c :: c in bots ==> c in d.ledgers
    ensures Told(SweepAll(d, bots, wanted, v).0, b, capital,
                 x.(line := x.line + SweepAllReports(d, bots, wanted, v, b)))
    decreases |bots|
  {
    hide Sweep, SweepReports, Told;
    if |bots| == 0 {
      assert x.line + [] == x.line;
    } else {
      var c := bots[0];
      var more := if c == b then
                    SweepReports(d.ledgers[c], HomeAccount(d, v), c, BooksOf(d, c).positions, wanted, v) else [];
      SweepBotKeepsTold(d, c, wanted, v, b, capital, x);
      var (e, ok) := SweepBot(d, c, wanted, v);
      if ok {
        SweepAllKeepsTold(e, bots[1..], wanted, v, b, capital, x.(line := x.line + more));
        assert x.line + more + SweepAllReports(e, bots[1..], wanted, v, b)
            == x.line + (more + SweepAllReports(e, bots[1..], wanted, v, b));
      } else {
        assert more + [] == more;
      }
    }
  }

  lemma ToldIgnoresHalts(d: Desk, e: Desk, b: string, capital: real, x: Lines)
    requires Told(d, b, capital, x) && e.ledgers == d.ledgers && e.store == d.store
    ensures Told(e, b, capital, x)
  {
  }

  lemma {:induction false} TickKeepsTold(
    e: Engine, s: Setup, tick: int, w: TickWorld, b: string, capital: real, x: Lines)
    requires Enumerates(s.order, e.desk.ledgers) && Told(e.desk, b, capital, x)
    ensures var m := AfterTick(e, s, tick, w).0.desk;
            Told(m, b, capital, if |s.bots| == 0 || w.prices.None? then x
                                else LinesAfterCalls(x, Checked(e, s, w), TickCalls(e, s, w), b))
  {
    hide Drifts, AfterRound, Calls, RunDesk, BuildContext, Told, LinesAfterCalls;
    var m, start := AfterTick(e, s, tick, w).0.desk, Checked(e, s, w);
    ToldIgnoresHalts(e.desk, start, b, capital, x);
    if |s.bots| == 0 || w.prices.None? {
      assert m == start;
    } else {
      RoundIsRun(Opening(e, s, w), s.bots, w.prices.value, e.prev, w);
      var calls := TickCalls(e, s, w);
      CallsKeepTold(start, calls, b, capital, x);
      ToldIgnoresHalts(RunDesk(start, calls), m, b, capital, LinesAfterCalls(x, start, calls, b));
    }
  }

  lemma {:induction false} RestartKeepsTold(d: Desk, capitals: map<string, real>, b: string, x: Lines)
    requires d.ledgers.Keys <= capitals.Keys && b in d.ledgers && capitals[b] >= 0.0
    requires Told(d, b, capitals[b], x)
    ensures Told(Rebooted(d, capitals), b, capitals[b], x.(line := if x.saved.Some? then x.saved.value else []))
  {
    hide RunLedger, Reload;
    RoundTripIff(capitals[b]);
    NoFills(Fresh(capitals[b]));
    if x.saved.Some? {
      var saved := x.saved.value;
      assert forall f :: f in saved ==> f in x.line;
      assert Reload(RunLedger(Fresh(capitals[b]), saved)) == RunLedger(Fresh(capitals[b]), saved);
    }
  }

  lemma {:induction false} HappeningKeepsTold(
    l: Life, s: Setup, capitals: map<string, real>, h: Happening, b: string, x: Lines)
    requires Enumerates(s.order, l.engine.desk.ledgers) && l.engine.desk.ledgers.Keys <= capitals.Keys
    requires b in l.engine.desk.ledgers && capitals[b] >= 0.0 && Told(l.engine.desk, b, capitals[b], x)
    ensures Told(AfterHappening(l, s, capitals, h).engine.desk, b, capitals[b], LinesAfter(x, l, s, h, b))
  {
    hide AfterTick, SweepAll, SweepAllReports, LinesAfterCalls, Told, Rebooted;
    var d, capital := l.engine.desk, capitals[b];
    match h {
      case Ticked(w) =>
        TickKeepsTold(l.engine, s, l.tick, w, b, capital, x);
      case Killed(verb, botId, prices, v) =>
        ToldOfVerb(d, s.order, verb, botId, prices, v, b, capital, x);
      case Operate(risk, halts) =>
        ToldIgnoresHalts(d, d.(risk := risk, halts := halts), b, capital, x);
      case Restart =>
        RestartKeepsTold(d, capitals, b, x);
    }
  }

  lemma {:induction false} ToldOfVerb(
    d: Desk, order: seq<string>, verb: Verb, botId: Option<string>, prices: Prices, v: Venue,
    b: string, capital: real, x: Lines)
    requires Enumerates(order, d.ledgers) && Told(d, b, capital, x)
    ensures var bots := Targets(d.ledgers, order, botId);
            Told(AfterVerb(d, order, verb, botId, prices, v).0, b, capital,
                 if verb.HaltAndStop? then x
                 else x.(line := x.line + SweepAllReports(d, bots, WantedBy(verb, prices), v, b)))
  {
    hide SweepAll, SweepAllReports, Told;
    var bots, wanted, e := Targets(d.ledgers, order, botId), WantedBy(verb, prices),
                           AfterVerb(d, order, verb, botId, prices, v).0;
    if verb.HaltAndStop? {
      ToldIgnoresHalts(d, e, b, capital, x);
    } else {
      SweepAllKeepsTold(d, bots, wanted, v, b, capital, x);
      ToldIgnoresHalts(SweepAll(d, bots, wanted, v).0, e, b, capital,
                       x.(line := x.line + SweepAllReports(d, bots, wanted, v, b)));
    }
  }

  // ---------- Over a whole life ----------

  /** The life begins with a new ledger for the bot and nothing of it in the store. */
  ghost predicate Newborn(l: Life, s: Setup, capitals: map<string, real>, b: string) {
    var d := l.engine.desk;
    && Enumerates(s.order, d.ledgers) && d.ledgers.Keys <= capitals.Keys
    && b in d.ledgers && capitals[b] >= 0.0 && d.ledgers[b] == Fresh(capitals[b])
    && (d.store.Some? ==> b !in d.store.value.snapshots)
  }

  /** Over any life the ledger in memory is the run of its line, the stored snapshot the run of the saved line,
      and the saved line a prefix of the other: a restart forgets the end of the line and nothing else. */
  lemma {:induction false} LifeIsTold(l: Life, s: Setup, capitals: map<string, real>, hs: seq<Happening>, b: string)
    requires Newborn(l, s, capitals, b)
    ensures Told(RunLife(l, s, capitals, hs).engine.desk, b, capitals[b], LinesOf(l, s, capitals, hs, b))
  {
    hide AfterHappening, LinesAfter, Told;
    if |hs| == 0 {
      NewbornIsTold(l.engine.desk, b, capitals[b]);
    } else {
      var n := |hs| - 1;
      LifeIsTold(l, s, capitals, hs[..n], b);
      HappeningKeepsTold(
        RunLife(l, s, capitals, hs[..n]), s, capitals, hs[n], b, LinesOf(l, s, capitals, hs[..n], b));
    }
  }

  lemma NewbornIsTold(d: Desk, b: string, capital: real)
    requires b in d.ledgers && d.ledgers[b] == Fresh(capital) && (d.store.Some? ==> b !in d.store.value.snapshots)
    ensures Told(d, b, capital, Lines([], None))
  {
  }

  /** So over any life money is conserved, the mark is the peak of the equity, and the positions are the net
      shares, all for the fills the ledger remembers. */
  lemma {:induction false} LifeKeepsTheBooks(
    l: Life, s: Setup, capitals: map<string, real>, hs: seq<Happening>, b: string)
    requires Newborn(l, s, capitals, b)
    ensures var start, line := FreshBooks(capitals[b]), LinesOf(l, s, capitals, hs, b).line;
            var d := RunLife(l, s, capitals, hs).engine.desk;
            && b in d.ledgers
            && var books := BooksOf(d, b);
               && books.realizedPnl == Total(CashFlow, Accepted(start, line)) + BookValue(books.positions)
               && IsPeakEquity(start, line, books.highWaterMark)
               && LedgerModel.WellFormed(books.positions)
               && forall sym :: Held(books.positions, sym) == NetShares(Accepted(start, line), sym)
  {
    hide RunLife, LinesOf, RunBooks, RunLedger, Accepted, CashFlow, BookValue, IsPeakEquity, Held, NetShares;
    LifeIsTold(l, s, capitals, hs, b);
    var capital, line := capitals[b], LinesOf(l, s, capitals, hs, b).line;
    ReplayAccepted(Fresh(capital), line);
    MoneyIsConserved(capital, line);
    MarkIsPeak(FreshBooks(capital), line);
    PositionsAreNetShares(capital, line, "");
    forall sym
      ensures Held(RunBooks(FreshBooks(capital), line).positions, sym)
           == NetShares(Accepted(FreshBooks(capital), line), sym)
    {
      PositionsAreNetShares(capital, line, sym);
    }
  }

  /** And drawdown safety: after any life, a buy submitted in the next tick finds the bot's equity at or above
      (1 - max_drawdown_pct) times the largest equity over the fills its ledger remembers. */
  lemma {:induction false} LifeRespectsDrawdown(
    l: Life, s: Setup, capitals: map<string, real>, hs: seq<Happening>, w: TickWorld, k: nat, b: string)
    requires Newborn(l, s, capitals, b) && capitals[b] > 0.0 && w.prices.Some?
    ensures var e := RunLife(l, s, capitals, hs).engine;
            var calls := TickCalls(e, s, w);
            k < |calls| && calls[k].intent.botId == b ==>
              var d := RunDesk(Checked(e, s, w), calls[..k]);
              var line := LinesAfterCalls(LinesOf(l, s, capitals, hs, b), Checked(e, s, w), calls[..k], b).line;
              && b in d.ledgers && d.ledgers[b] == RunLedger(Fresh(capitals[b]), line)
              && (Submits(d, calls[k]) && calls[k].intent.action.ActBuy? ==>
                    exists peak :: IsPeakEquity(FreshBooks(capitals[b]), line, peak)
                                   && BooksOf(d, b).Equity() >= (1.0 - d.cfg.maxDrawdownPct) * peak)
  {
    hide RunLife, LinesOf, TickCalls, RunDesk, Submits, RunBooks, RunLedger, LinesAfterCalls, IsPeakEquity;
    var e, x, capital := RunLife(l, s, capitals, hs).engine, LinesOf(l, s, capitals, hs, b), capitals[b];
    var calls := TickCalls(e, s, w);
    if k < |calls| && calls[k].intent.botId == b {
      var start := Checked(e, s, w);
      LifeIsTold(l, s, capitals, hs, b);
      ToldIgnoresHalts(e.desk, start, b, capital, x);
      CallsKeepTold(start, calls[..k], b, capital, x);
      var d, line := RunDesk(start, calls[..k]), LinesAfterCalls(x, start, calls[..k], b).line;
      ReplayAccepted(Fresh(capital), line);
      if Submits(d, calls[k]) && calls[k].intent.action.ActBuy? {
        SubmittedBuyIsAboveFloor(d, calls[k], FreshBooks(capital), line);
      }
    }
  }
}
