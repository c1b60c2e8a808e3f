/**
 Persistence of ledgers (src/trading_strands/ledger_store/store.py): a snapshot per bot, overwritten at
 every fill, and an append-only event log.  A write may fail, and the process may die between any two
 writes.  Snapshot encoding is taken as lossless; the event log is kept in the order of writing.
 */
module LedgerPersistence {
  import opened Prelude
  import opened LedgerModel

  datatype Event = Event(botId: string, fill: Fill)

  datatype StoreState = StoreState(snapshots: map<string, LedgerState>, events: seq<Event>)

  /** Which of the two writes of a call fail. */
  datatype Faults = Faults(appendFails: bool, saveFails: bool)

  /** How `record_and_persist` ends; each case but the first is an exception. */
  datatype PersistOutcome = Persisted | NotAccepted(why: FillOutcome) | AppendFailed | SaveFailed

  /** A rejected fill raises before anything is written; a failed append does not stop the save; if both
      fail, the exception that comes out is the one of the save. */
  function AfterPersist(l: LedgerState, st: StoreState, botId: string, f: Fill, faults: Faults)
    : (LedgerState, StoreState, PersistOutcome)
  {
    var (m, o) := AfterFill(l, f);
    if !o.Recorded? then (m, st, NotAccepted(o))
    else
      var events := if faults.appendFails then st.events else st.events + [Event(botId, f)];
      var snapshots := if faults.saveFails then st.snapshots else st.snapshots[botId := m];
      (m, StoreState(snapshots, events),
       if faults.saveFails then SaveFailed else if faults.appendFails then AppendFailed else Persisted)
  }

  /** Loading a snapshot constructs a ledger, so `model_post_init` runs again. */
  function Reload(s: LedgerState): LedgerState { s.(books := Initialise(s.books)) }

  class LedgerStore {
    var snapshots: map<string, LedgerState>
    var events: seq<Event>

    function View(): StoreState
      reads this
    {
      StoreState(snapshots, events)
    }

    method AppendEvent(botId: string, fill: Fill, fails: bool) returns (ok: bool)
      modifies this
      ensures ok == !fails
      ensures View() == if ok then old(View()).(events := old(events) + [Event(botId, fill)]) else old(View())
    {
      if fails {
        return false;
      }
      events := events + [Event(botId, fill)];
      ok := true;
    }

    method SaveSnapshot(botId: string, ledger: Ledger, fails: bool) returns (ok: bool)
      requires ledger.Valid()
      modifies this
      ensures ok == !fails
      ensures View() == if ok then old(View()).(snapshots := old(snapshots)[botId := ledger.View()]) else old(View())
    {
      if fails {
        return false;
      }
      snapshots := snapshots[botId := ledger.View()];
      ok := true;
    }

    /** The stored ledger as a new object; null if none has been stored. */
    method LoadSnapshot(botId: string) returns (ledger: Ledger?)
      ensures ledger == null <==> botId !in snapshots
      ensures ledger != null ==>
                fresh(ledger) && fresh(ledger.cells) && ledger.Valid() && ledger.View() == Reload(snapshots[botId])
    {
      if botId !in snapshots {
        return null;
      }
      ledger := new Ledger.Restore(snapshots[botId]);
    }

    method RecordAndPersist(botId: string, ledger: Ledger, fill: Fill, faults: Faults) returns (r: PersistOutcome)
      requires ledger.Valid()
      modifies this, ledger, ledger.cells
      ensures ledger.Valid() && fresh(ledger.cells - old(ledger.cells))
      ensures (ledger.View(), View(), r) == AfterPersist(old(ledger.View()), old(View()), botId, fill, faults)
    {
      hide Settle;
      var outcome := ledger.RecordFill(fill);
      if !outcome.Recorded? {
        return NotAccepted(outcome);
      }
      var appended := AppendEvent(botId, fill, faults.appendFails);
      var saved := SaveSnapshot(botId, ledger, faults.saveFails);
      r := if !saved then SaveFailed else if !appended then AppendFailed else Persisted;
    }
  }

  // ---------- Round trip ----------

  lemma {:induction false} MarkAboveCapital(capital: real, fills: seq<Fill>)
    ensures var b := RunBooks(FreshBooks(capital), fills);
            b.startingCapital == capital && b.Equity() <= b.highWaterMark && capital <= b.highWaterMark
  {
    hide Settle;
    if |fills| > 0 {
      MarkAboveCapital(capital, fills[..|fills| - 1]);
      SettleMark(RunBooks(FreshBooks(capital), fills[..|fills| - 1]), fills[|fills| - 1]);
    }
  }

  /** Saving and loading gives the same ledger back, for every run of fills, exactly when the starting
      capital is not negative: a mark that has risen to zero is taken for an unset one. */
  lemma {:induction false} RoundTripIff(capital: real)
    ensures capital >= 0.0 <==>
            forall fills :: Reload(RunLedger(Fresh(capital), fills)) == RunLedger(Fresh(capital), fills)
  {
    if capital >= 0.0 {
      forall fills
        ensures Reload(RunLedger(Fresh(capital), fills)) == RunLedger(Fresh(capital), fills)
      {
        ReplayAccepted(Fresh(capital), fills);
        MarkAboveCapital(capital, fills);
      }
    } else {
      hide RunLedger, RunBooks, Settle, Fill.BurdenedTotal;
      var buy, sell := FreeBuyAndSale(capital);
      MarkReachesZero(capital, buy, sell);
      ReplayAccepted(Fresh(capital), [buy, sell]);
    }
  }

  lemma FreeBuyAndSale(capital: real) returns (buy: Fill, sell: Fill)
    ensures buy.side.Buy? && sell.side.Sell? && buy.symbol == sell.symbol
    ensures buy.quantity == 1.0 == sell.quantity
    ensures buy.BurdenedTotal() == 0.0 && sell.BurdenedTotal() == -capital
  {
    buy := FeelessShare("A", Buy, 0.0);
    sell := FeelessShare("A", Sell, -capital);
  }

  lemma FeelessShare(sym: string, side: Side, price: real) returns (f: Fill)
    ensures f.side == side && f.symbol == sym && f.quantity == 1.0 && f.BurdenedTotal() == price
  {
    NoFeesAreFree();
    hide FeeBreakdown.Total;
    f := Fill(sym, side, 1.0, price, NO_FEES);
  }

  lemma NoFeesAreFree()
    ensures NO_FEES.Total() == 0.0
  {
  }

  /** A free buy, and a sale that brings in what the capital was short of. */
  lemma MarkReachesZero(capital: real, buy: Fill, sell: Fill)
    requires capital < 0.0 && buy.side.Buy? && sell.side.Sell? && buy.symbol == sell.symbol
    requires buy.quantity == 1.0 == sell.quantity
    requires buy.BurdenedTotal() == 0.0 && sell.BurdenedTotal() == -capital
    ensures RunBooks(FreshBooks(capital), [buy, sell]).highWaterMark == 0.0
    ensures RunBooks(FreshBooks(capital), [buy, sell]).startingCapital == capital
  {
    FreeBuy(capital, buy);
    SellForDebt(capital, Holding(buy.symbol, 1.0, 0.0), sell);
    TwoFills(FreshBooks(capital), buy, sell);
  }

  lemma TwoFills(b: Books, f: Fill, g: Fill)
    ensures RunBooks(b, [f, g]) == Settle(Settle(b, f).0, g).0
  {
    hide Settle;
    assert [f][..0] == [] && [f, g][..1] == [f];
    assert RunBooks(b, [f]) == Settle(b, f).0;
  }

  lemma FreeBuy(capital: real, buy: Fill)
    requires buy.side.Buy? && buy.quantity == 1.0 && buy.BurdenedTotal() == 0.0
    ensures Settle(FreshBooks(capital), buy).0 == Books(capital, 0.0, capital, [Holding(buy.symbol, 1.0, 0.0)])
  {
    hide Fill.BurdenedTotal;
    assert buy.BurdenedCostPerUnit() == 0.0;
    assert [] + [Holding(buy.symbol, 1.0, 0.0)] == [Holding(buy.symbol, 1.0, 0.0)];
  }

  lemma SellForDebt(capital: real, h: Holding, sell: Fill)
    requires capital < 0.0 && h.quantity == 1.0 && h.costBasis == 0.0
    requires sell.side.Sell? && sell.symbol == h.symbol && sell.quantity == 1.0 && sell.BurdenedTotal() == -capital
    ensures var b := Settle(Books(capital, 0.0, capital, [h]), sell).0;
            b.highWaterMark == 0.0 && b.startingCapital == capital
  {
    hide Fill.BurdenedTotal;
    assert RealizedBy(h, sell) == -capital;
  }

  // ---------- Crashes ----------

  /** Where the process is: dead, between calls, or inside one, after the fill is in memory (`Applied`) or
      after the append has been tried (`Tried`, with whether it succeeded). */
  datatype Phase = Down | Idle | Applied(fill: Fill) | Tried(fill: Fill, logged: bool)

  /** One bot's ledger in memory and in the store.  The rest is history, for stating properties: the
      attempted fills behind the memory and behind the snapshot, and all accepted fills ever. */
  datatype Machine = Machine(
    phase: Phase, memory: LedgerState, snapshot: Option<LedgerState>, events: seq<Fill>,
    line: seq<Fill>, saved: seq<Fill>, accepted: seq<Fill>)

  datatype Step = Begin(fill: Fill) | Append(ok: bool) | Save(ok: bool) | Crash | Boot

  function Start(capital: real): Machine {
    Machine(Idle, Fresh(capital), None, [], [], [], [])
  }

  /** A step that does not apply to the phase leaves the machine alone. */
  function Next(capital: real, m: Machine, step: Step): Machine {
    match (step, m.phase)
    case (Begin(f), Idle) =>
      var (l, o) := AfterFill(m.memory, f);
      if o.Recorded? then
        m.(phase := Applied(f), memory := l, line := m.line + [f], accepted := m.accepted + [f])
      else m.(memory := l, line := m.line + [f])
    case (Append(ok), Applied(f)) =>
      m.(phase := Tried(f, ok), events := if ok then m.events + [f] else m.events)
    case (Save(ok), Tried(f, logged)) =>
      if ok then m.(phase := Idle, snapshot := Some(m.memory), saved := m.line) else m.(phase := Idle)
    case (Crash, _) => m.(phase := Down)
    case (Boot, Down) =>
      m.(phase := Idle, line := m.saved,
         memory := match m.snapshot case Some(s) => Reload(s) case None => Fresh(capital))
    case _ => m
  }

  function RunMachine(capital: real, steps: seq<Step>): Machine {
    if |steps| == 0 then Start(capital)
    else Next(capital, RunMachine(capital, steps[..|steps| - 1]), steps[|steps| - 1])
  }

  /** A call is the three steps in a row, whatever fails. */
  lemma CallIsThreeSteps(capital: real, m: Machine, st: StoreState, botId: string, f: Fill, faults: Faults)
    requires m.phase.Idle?
    ensures var (l, st', o) := AfterPersist(m.memory, st, botId, f, faults);
            var m1 := Next(capital, m, Begin(f));
            var m2 := Next(capital, m1, Append(!faults.appendFails));
            var m3 := Next(capital, m2, Save(!faults.saveFails));
            && m3.phase.Idle? && m3.memory == l
            && (o.NotAccepted? ==> m3.snapshot == m.snapshot && m3.events == m.events && st' == st)
            && (!o.NotAccepted? ==>
                  && m3.snapshot == (if faults.saveFails then m.snapshot else Some(st'.snapshots[botId]))
                  && m3.events == m.events + (if faults.appendFails then [] else [f]))
  {
    hide Settle;
  }

  /** The fills logged for a bot, in order. */
  ghost function FillsLogged(events: seq<Event>, botId: string): seq<Fill> {
    if |events| == 0 then []
    else
      var n := |events| - 1;
      FillsLogged(events[..n], botId) + (if events[n].botId == botId then [events[n].fill] else [])
  }

  /** What a call leaves in the store, and how it ends: the fill in the log of its own bot, the whole ledger as
      the snapshot of that bot, nothing of any other bot, and nothing at all of a refused fill. */
  lemma CallWritesItsBot(l: LedgerState, st: StoreState, botId: string, f: Fill, faults: Faults, b: string)
    ensures var (m, st', o) := AfterPersist(l, st, botId, f, faults);
            var accepted := Settle(l.books, f).1.Recorded?;
            && m == RunLedger(l, [f])
            && FillsLogged(st'.events, b)
               == FillsLogged(st.events, b) + (if b == botId && accepted && !faults.appendFails then [f] else [])
            && (if b == botId && accepted && !faults.saveFails then b in st'.snapshots && st'.snapshots[b] == m
                else (b in st'.snapshots <==> b in st.snapshots)
                     && (b in st.snapshots ==> st'.snapshots[b] == st.snapshots[b]))
            && (o.NotAccepted? <==> !accepted)
            && (o.SaveFailed? <==> accepted && faults.saveFails)
            && (o.AppendFailed? <==> accepted && faults.appendFails && !faults.saveFails)
  {
    hide Settle;
    RunOne(l, f);
    assert (st.events + [Event(botId, f)])[..|st.events|] == st.events;
  }

  /** What memory would be if the process restarted now. */
  function Durable(capital: real, m: Machine): LedgerState {
    match m.snapshot case Some(s) => Reload(s) case None => Fresh(capital)
  }

  /** The snapshot is always the state after a prefix of what memory has been through. */
  ghost predicate SnapshotIsPrefix(capital: real, m: Machine) {
    && m.saved <= m.line
    && (!m.phase.Down? ==> m.memory == RunLedger(Fresh(capital), m.line))
    && (match m.snapshot
        case None => m.saved == []
        case Some(s) => s == RunLedger(Fresh(capital), m.saved))
  }

  /** In every run of steps, failures and crashes included, the stored snapshot is the ledger after a
      prefix of the attempted fills, and a restart resumes exactly there. */
  lemma {:induction false} SnapshotIsAlwaysAPrefix(capital: real, steps: seq<Step>)
    requires capital >= 0.0
    ensures SnapshotIsPrefix(capital, RunMachine(capital, steps))
    ensures Durable(capital, RunMachine(capital, steps)) == RunLedger(Fresh(capital), RunMachine(capital, steps).saved)
  {
    hide AfterFill, Initialise;
    if |steps| > 0 {
      var m, step := RunMachine(capital, steps[..|steps| - 1]), steps[|steps| - 1];
      SnapshotIsAlwaysAPrefix(capital, steps[..|steps| - 1]);
      if step.Begin? {
        assert (m.line + [step.fill])[..|m.line|] == m.line;
      }
    }
    RoundTripIff(capital);
  }

  ghost predicate SavesSucceed(steps: seq<Step>) {
    forall s :: s in steps ==> s != Save(false)
  }

  /** The accepted fills the snapshot does not have yet. */
  ghost function Lag(m: Machine): seq<Fill> {
    match m.phase
    case Applied(f) => [f]
    case Tried(f, _) => [f]
    case _ => []
  }

  /** Memory has accepted what the snapshot has, and the lag. */
  ghost predicate LagIsAll(capital: real, m: Machine) {
    !m.phase.Down? ==>
      Accepted(FreshBooks(capital), m.line) == Accepted(FreshBooks(capital), m.saved) + Lag(m)
  }

  lemma AcceptedStep(b: Books, fills: seq<Fill>, f: Fill)
    ensures Accepted(b, fills + [f])
            == if Settle(RunBooks(b, fills), f).1.Recorded? then Accepted(b, fills) + [f] else Accepted(b, fills)
  {
    hide Settle;
    assert (fills + [f])[..|fills|] == fills;
  }

  lemma StepKeepsLag(capital: real, m: Machine, step: Step)
    requires LagIsAll(capital, m) && SnapshotIsPrefix(capital, m) && step != Save(false)
    ensures LagIsAll(capital, Next(capital, m, step))
  {
    hide Settle, FreshBooks, Accepted, RunLedger, RunBooks;
    var line, saved := Accepted(FreshBooks(capital), m.line), Accepted(FreshBooks(capital), m.saved);
    assert saved + [] == saved;
    if step.Begin? && m.phase.Idle? {
      ReplayAccepted(Fresh(capital), m.line);
      AcceptedStep(FreshBooks(capital), m.line, step.fill);
    }
  }

  lemma {:induction false} OnlyTheLagIsUnsaved(capital: real, steps: seq<Step>)
    requires capital >= 0.0 && SavesSucceed(steps)
    ensures LagIsAll(capital, RunMachine(capital, steps))
  {
    hide Next, SnapshotIsPrefix;
    if |steps| > 0 {
      var before, step := steps[..|steps| - 1], steps[|steps| - 1];
      assert step in steps && forall s :: s in before ==> s in steps;
      OnlyTheLagIsUnsaved(capital, before);
      SnapshotIsAlwaysAPrefix(capital, before);
      StepKeepsLag(capital, RunMachine(capital, before), step);
    }
  }

  /** While saves succeed the snapshot lacks the fill of the call in progress and no other: between calls
      memory and snapshot have the same books, and within one they differ by that one fill. */
  lemma {:induction false} LagIsAtMostOneFill(capital: real, steps: seq<Step>)
    requires capital >= 0.0 && SavesSucceed(steps)
    ensures var m := RunMachine(capital, steps);
            && |Lag(m)| <= 1
            && (!m.phase.Down? ==> m.memory.books == RunBooks(Durable(capital, m).books, Lag(m)))
  {
    hide Settle, RunMachine, FreshBooks, Accepted;
    var m, books := RunMachine(capital, steps), FreshBooks(capital);
    OnlyTheLagIsUnsaved(capital, steps);
    SnapshotIsAlwaysAPrefix(capital, steps);
    ReplayAccepted(Fresh(capital), m.line);
    ReplayAccepted(Fresh(capital), m.saved);
    var saved := Accepted(books, m.saved);
    assert saved + [] == saved;
    if |Lag(m)| == 1 {
      var f := Lag(m)[0];
      assert (saved + [f])[..|saved|] == saved;
      OneMore(RunBooks(books, m.saved), f);
    }
  }

  lemma OneMore(b: Books, f: Fill)
    ensures RunBooks(b, [f]) == Settle(b, f).0
    ensures RunBooks(b, []) == b
  {
    assert [f][..0] == [];
  }

  /** Step `i` hands the ledger a fill. */
  ghost predicate Attempts(capital: real, steps: seq<Step>, i: nat)
    requires i < |steps|
  {
    steps[i].Begin? && RunMachine(capital, steps[..i]).phase.Idle?
  }

  /** Step `i` hands the ledger a fill, which it refuses. */
  ghost predicate Refuses(capital: real, steps: seq<Step>, i: nat)
    requires i < |steps|
  {
    Attempts(capital, steps, i) && !AfterFill(RunMachine(capital, steps[..i]).memory, steps[i].fill).1.Recorded?
  }

  /** Step `i` makes memory and snapshot one again: a save that succeeds, or a restart. */
  ghost predicate Renews(capital: real, steps: seq<Step>, i: nat)
    requires i < |steps|
  {
    || (steps[i] == Save(true) && RunMachine(capital, steps[..i]).phase.Tried?)
    || (steps[i].Boot? && RunMachine(capital, steps[..i]).phase.Down?)
  }

  ghost predicate NoneRenews(capital: real, steps: seq<Step>, i: nat) {
    forall j :: i < j < |steps| ==> !Renews(capital, steps, j)
  }

  /** A fill was attempted since the last save or restart. */
  ghost predicate AttemptedSince(capital: real, steps: seq<Step>) {
    exists i: nat :: i < |steps| && Attempts(capital, steps, i) && NoneRenews(capital, steps, i)
  }

  /** A fill was refused since the last save or restart. */
  ghost predicate RefusedSince(capital: real, steps: seq<Step>) {
    exists i: nat :: i < |steps| && Refuses(capital, steps, i) && NoneRenews(capital, steps, i)
  }

  lemma SameSteps(capital: real, steps: seq<Step>, k: nat, i: nat)
    requires i < k <= |steps|
    ensures Attempts(capital, steps[..k], i) == Attempts(capital, steps, i)
    ensures Renews(capital, steps[..k], i) == Renews(capital, steps, i)
  {
    assert steps[..k][..i] == steps[..i];
  }

  lemma {:induction false} AttemptedSinceStep(capital: real, steps: seq<Step>)
    requires |steps| > 0
    ensures var k := |steps| - 1;
            AttemptedSince(capital, steps)
            <==> Attempts(capital, steps, k) || (AttemptedSince(capital, steps[..k]) && !Renews(capital, steps, k))
  {
    hide Attempts, Renews;
    var k := |steps| - 1;
    forall i: nat | i < k
      ensures Attempts(capital, steps[..k], i) == Attempts(capital, steps, i)
      ensures Renews(capital, steps[..k], i) == Renews(capital, steps, i)
    {
      SameSteps(capital, steps, k, i);
    }
    if AttemptedSince(capital, steps) {
      var i: nat :| i < |steps| && Attempts(capital, steps, i) && NoneRenews(capital, steps, i);
      if i < k {
        assert NoneRenews(capital, steps[..k], i);
      }
    }
    if Attempts(capital, steps, k) {
      assert NoneRenews(capital, steps, k);
    }
    if AttemptedSince(capital, steps[..k]) && !Renews(capital, steps, k) {
      var i: nat :| i < k && Attempts(capital, steps[..k], i) && NoneRenews(capital, steps[..k], i);
      assert NoneRenews(capital, steps, i);
    }
  }

  lemma {:induction false} LineIsSavedIff(capital: real, steps: seq<Step>)
    ensures var m := RunMachine(capital, steps);
            m.saved <= m.line && (m.saved == m.line <==> !AttemptedSince(capital, steps))
  {
    hide AfterFill, Reload, AttemptedSince;
    if |steps| > 0 {
      var k := |steps| - 1;
      LineIsSavedIff(capital, steps[..k]);
      AttemptedSinceStep(capital, steps);
    } else {
      NothingAttempted(capital);
    }
  }

  lemma NothingAttempted(capital: real)
    ensures !AttemptedSince(capital, [])
  {
  }

  /** While saves succeed, an attempt that was not saved by the end of its call was a refused one. */
  lemma {:induction false} AcceptedIsUnderWay(capital: real, steps: seq<Step>, i: nat)
    requires SavesSucceed(steps) && i < |steps| && NoneRenews(capital, steps, i)
    requires Attempts(capital, steps, i) && !Refuses(capital, steps, i)
    ensures !RunMachine(capital, steps).phase.Idle?
  {
    hide AfterFill, Reload;
    var k := |steps| - 1;
    assert steps[k] in steps;
    if i < k {
      assert forall x :: x in steps[..k] ==> x in steps;
      assert steps[..k][..i] == steps[..i];
      forall j: nat | i < j < k
        ensures !Renews(capital, steps[..k], j)
      {
        SameSteps(capital, steps, k, j);
      }
      AcceptedIsUnderWay(capital, steps[..k], i);
      assert !Renews(capital, steps, k);
    }
  }

  /** Between calls a restart would give back the whole memory exactly when no fill has been attempted since
      the last save or restart: an attempt that is refused, or whose save fails, is in memory only.  Where
      saves succeed, that leaves the refused ones. */
  lemma {:induction false} SnapshotEqualsMemoryIff(capital: real, steps: seq<Step>)
    requires capital >= 0.0 && RunMachine(capital, steps).phase.Idle?
    ensures Durable(capital, RunMachine(capital, steps)) == RunMachine(capital, steps).memory
            <==> !AttemptedSince(capital, steps)
    ensures SavesSucceed(steps) ==> (AttemptedSince(capital, steps) <==> RefusedSince(capital, steps))
  {
    hide RunMachine, Settle, Initialise;
    var m := RunMachine(capital, steps);
    SnapshotIsAlwaysAPrefix(capital, steps);
    ReplayAccepted(Fresh(capital), m.saved);
    ReplayAccepted(Fresh(capital), m.line);
    LineIsSavedIff(capital, steps);
    if SavesSucceed(steps) && AttemptedSince(capital, steps) {
      var i: nat :| i < |steps| && Attempts(capital, steps, i) && NoneRenews(capital, steps, i);
      if !Refuses(capital, steps, i) {
        AcceptedIsUnderWay(capital, steps, i);
      }
    }
  }

  /** A crash between the append and the save loses the fill from the ledger but not from the log: after
      the restart the fill is the last event, and applying it gives back the books before the crash. */
  lemma {:induction false} LoggedFillIsRecoverable(capital: real, steps: seq<Step>)
    requires capital >= 0.0 && SavesSucceed(steps)
    requires var m := RunMachine(capital, steps); m.phase.Tried? && m.phase.logged
    ensures var m := RunMachine(capital, steps);
            var restarted := RunMachine(capital, steps + [Crash, Boot]);
            && restarted.phase.Idle?
            && |restarted.events| > 0 && restarted.events[|restarted.events| - 1] == m.phase.fill
            && Settle(restarted.memory.books, m.phase.fill).0 == m.memory.books
  {
    hide Settle, Initialise;
    var m := RunMachine(capital, steps);
    LagIsAtMostOneFill(capital, steps);
    OneMore(Durable(capital, m).books, m.phase.fill);
    TriedIsLastEvent(capital, steps);
    var all := steps + [Crash, Boot];
    assert all[..|all| - 1] == steps + [Crash] && (steps + [Crash])[..|steps|] == steps;
    assert RunMachine(capital, steps + [Crash]) == Next(capital, m, Crash);
  }

  lemma {:induction false} TriedIsLastEvent(capital: real, steps: seq<Step>)
    ensures var m := RunMachine(capital, steps);
            m.phase.Tried? && m.phase.logged ==> |m.events| > 0 && m.events[|m.events| - 1] == m.phase.fill
  {
    hide AfterFill, Reload;
    if |steps| > 0 {
      TriedIsLastEvent(capital, steps[..|steps| - 1]);
    }
  }

  /** The crash the program cannot see: between applying the fill and appending it. */
  ghost predicate DiesBeforeAppend(capital: real, steps: seq<Step>) {
    exists k :: 0 <= k < |steps| && steps[k].Crash? && RunMachine(capital, steps[..k]).phase.Applied?
  }

  /** Without that crash and without failed appends the log is complete: it is every fill ever accepted,
      in order, with at most the one in progress still to come. */
  lemma {:induction false} LogIsComplete(capital: real, steps: seq<Step>)
    requires !DiesBeforeAppend(capital, steps) && forall s :: s in steps ==> s != Append(false)
    ensures var m := RunMachine(capital, steps);
            m.accepted == m.events + (if m.phase.Applied? then [m.phase.fill] else [])
  {
    hide AfterFill, Reload;
    if |steps| > 0 {
      var before, step := steps[..|steps| - 1], steps[|steps| - 1];
      assert step in steps && forall s :: s in before ==> s in steps;
      assert steps[|before|] == step && steps[..|before|] == before;
      forall k | 0 <= k < |before|
        ensures steps[..k] == before[..k] && steps[k] == before[k]
      {
      }
      LogIsComplete(capital, before);
    }
  }
}
