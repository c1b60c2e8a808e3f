/**
 The auditor's deterministic checks (src/trading_strands/auditor/reconciler.py).  Reports carry the
 mismatches themselves instead of a text about them.
 */
module Auditor {
  import opened Prelude
  import opened LedgerModel

  datatype BrokerPosition = BrokerPosition(symbol: string, quantity: real)

  datatype AuditConfig = AuditConfig(feeDriftPct: real, feeDriftAbs: real, positionMismatchCycles: int)

  datatype Mismatch = Mismatch(symbol: string, ledgerQty: real, brokerQty: real)

  datatype Check = Pass | Fail(mismatches: seq<Mismatch>)

  type Totals = map<string, real>

  function Get(totals: Totals, sym: string): real { if sym in totals then totals[sym] else 0.0 }

  ghost function HeldOf(sym: string): Books -> real { (b: Books) => Held(b.positions, sym) }

  /** The quantity of a symbol over all ledgers. */
  ghost function LedgerTotal(ledgers: seq<Books>, sym: string): real { Total(HeldOf(sym), ledgers) }

  ghost function ReportedIn(sym: string): BrokerPosition -> real {
    (p: BrokerPosition) => if p.symbol == sym then p.quantity else 0.0
  }

  /** The quantity of a symbol over all the positions the broker lists. */
  ghost function BrokerTotal(ps: seq<BrokerPosition>, sym: string): real { Total(ReportedIn(sym), ps) }

  ghost predicate PositionsMatch(ledgers: seq<Books>, ps: seq<BrokerPosition>) {
    forall sym :: LedgerTotal(ledgers, sym) == BrokerTotal(ps, sym)
  }

  lemma {:induction false} TotalNext<T>(f: T -> real, s: seq<T>, i: nat)
    requires i < |s|
    ensures Total(f, s[..i + 1]) == Total(f, s[..i]) + f(s[i])
  {
    assert s[..i + 1][..i] == s[..i];
  }

  method SumLedgers(ledgers: seq<Books>) returns (totals: Totals)
    ensures forall sym :: Get(totals, sym) == LedgerTotal(ledgers, sym)
  {
    totals := map[];
    var i := 0;
    while i < |ledgers|
      invariant i <= |ledgers|
      invariant forall sym :: Get(totals, sym) == LedgerTotal(ledgers[..i], sym)
    {
      var ps := ledgers[i].positions;
      var j := 0;
      while j < |ps|
        invariant j <= |ps|
        invariant forall sym :: Get(totals, sym) == LedgerTotal(ledgers[..i], sym) + Held(ps[..j], sym)
      {
        forall sym
          ensures Held(ps[..j + 1], sym) == Held(ps[..j], sym) + QuantityIn(sym)(ps[j])
        {
          TotalNext(QuantityIn(sym), ps, j);
        }
        totals := totals[ps[j].symbol := Get(totals, ps[j].symbol) + ps[j].quantity];
        j := j + 1;
      }
      assert ps[..j] == ps;
      forall sym
        ensures LedgerTotal(ledgers[..i + 1], sym) == LedgerTotal(ledgers[..i], sym) + Held(ps, sym)
      {
        TotalNext(HeldOf(sym), ledgers, i);
      }
      i := i + 1;
    }
    assert ledgers[..i] == ledgers;
  }

  method SumBroker(ps: seq<BrokerPosition>) returns (totals: Totals)
    ensures forall sym :: Get(totals, sym) == BrokerTotal(ps, sym)
  {
    totals := map[];
    var i := 0;
    while i < |ps|
      invariant i <= |ps|
      invariant forall sym :: Get(totals, sym) == BrokerTotal(ps[..i], sym)
    {
      forall sym
        ensures BrokerTotal(ps[..i + 1], sym) == BrokerTotal(ps[..i], sym) + ReportedIn(sym)(ps[i])
      {
        TotalNext(ReportedIn(sym), ps, i);
      }
      totals := totals[ps[i].symbol := Get(totals, ps[i].symbol) + ps[i].quantity];
      i := i + 1;
    }
    assert ps[..i] == ps;
  }

  /** Passes exactly when ledgers and broker hold the same of every symbol, a symbol absent on one side
      counting as zero; otherwise it names exactly the symbols that differ, with both quantities. */
  method ReconcilePositions(ledgers: seq<Books>, ps: seq<BrokerPosition>) returns (check: Check)
    ensures check.Pass? <==> PositionsMatch(ledgers, ps)
    ensures check.Fail? ==> forall m :: m in check.mismatches <==>
              && m.ledgerQty == LedgerTotal(ledgers, m.symbol) && m.brokerQty == BrokerTotal(ps, m.symbol)
              && m.ledgerQty != m.brokerQty
  {
    var ledgerTotals := SumLedgers(ledgers);
    var brokerTotals := SumBroker(ps);
    var all := ledgerTotals.Keys + brokerTotals.Keys;
    var mismatches: seq<Mismatch> := [];
    var left := all;
    while left != {}
      invariant left <= all
      invariant forall m :: m in mismatches <==>
        && m.symbol in all - left
        && m.ledgerQty == Get(ledgerTotals, m.symbol) && m.brokerQty == Get(brokerTotals, m.symbol)
        && m.ledgerQty != m.brokerQty
    {
      var sym :| sym in left;
      left := left - {sym};
      var ledgerQty, brokerQty := Get(ledgerTotals, sym), Get(brokerTotals, sym);
      if ledgerQty != brokerQty {
        mismatches := mismatches + [Mismatch(sym, ledgerQty, brokerQty)];
      }
    }
    if mismatches != [] {
      assert mismatches[0] in mismatches;
      return Fail(mismatches);
    }
    forall sym
      ensures LedgerTotal(ledgers, sym) == BrokerTotal(ps, sym)
    {
      assert Mismatch(sym, Get(ledgerTotals, sym), Get(brokerTotals, sym)) !in mismatches;
    }
    check := Pass;
  }

  function FeeTotal(f: FeeBreakdown): real { f.Total() }

  ghost function FeesOf(s: LedgerState): real { Total(FeeTotal, s.feeLedger) }

  /** The difference is within the tolerated share of the larger total. */
  predicate FeesPass(cfg: AuditConfig, recorded: real, due: real) {
    var drift, base := Max(recorded - due, due - recorded), Max(recorded, due);
    || recorded == due == 0.0
    || (if base > 0.0 then drift <= cfg.feeDriftPct * base else cfg.feeDriftPct >= 0.0)
  }

  /** Fee drift: passes exactly when the difference is within the tolerated share of the larger total. */
  method ReconcileFees(cfg: AuditConfig, ledgers: seq<LedgerState>, expected: seq<FeeBreakdown>)
    returns (passes: bool)
    ensures passes <==> FeesPass(cfg, Total(FeesOf, ledgers), Total(FeeTotal, expected))
  {
    var recorded := 0.0;
    var i := 0;
    while i < |ledgers|
      invariant i <= |ledgers|
      invariant recorded == Total(FeesOf, ledgers[..i])
    {
      var fees := ledgers[i].feeLedger;
      var j := 0;
      while j < |fees|
        invariant j <= |fees|
        invariant recorded == Total(FeesOf, ledgers[..i]) + Total(FeeTotal, fees[..j])
      {
        TotalNext(FeeTotal, fees, j);
        recorded := recorded + fees[j].Total();
        j := j + 1;
      }
      assert fees[..j] == fees;
      TotalNext(FeesOf, ledgers, i);
      i := i + 1;
    }
    assert ledgers[..i] == ledgers;
    var due := Total(FeeTotal, expected);
    if due == 0.0 && recorded == 0.0 {
      return true;
    }
    var drift := Max(recorded - due, due - recorded);
    var base := Max(recorded, due);
    var driftPct := if base > 0.0 then drift / base else 0.0;
    if base > 0.0 {
      RatioExceeds(drift, base, cfg.feeDriftPct);
    }
    passes := !(driftPct > cfg.feeDriftPct);
  }

  // ---------- Fees over runs ----------

  function FillFees(f: Fill): real { f.fees.Total() }

  /** The fills of the run that `record_fill` refused, in order. */
  function RefusedFills(b: Books, fills: seq<Fill>): seq<Fill> {
    if |fills| == 0 then []
    else
      var before, f := fills[..|fills| - 1], fills[|fills| - 1];
      RefusedFills(b, before) + (if Settle(RunBooks(b, before), f).1.Recorded? then [] else [f])
  }

  /** The fees of a fill are logged before it can be refused: a ledger records those of the accepted fills and
      those of the refused ones. */
  lemma {:induction false} FeesAreOfAllFills(s: LedgerState, fills: seq<Fill>)
    ensures FeesOf(RunLedger(s, fills))
            == FeesOf(s) + Total(FillFees, Accepted(s.books, fills)) + Total(FillFees, RefusedFills(s.books, fills))
  {
    hide Settle, FeeBreakdown.Total;
    if |fills| > 0 {
      var before, f := fills[..|fills| - 1], fills[|fills| - 1];
      FeesAreOfAllFills(s, before);
      ReplayAccepted(s, before);
      TotalConcat(FeeTotal, RunLedger(s, before).feeLedger, [f.fees]);
      TotalSingle(FeeTotal, f.fees);
      TotalSingle(FillFees, f);
      var accepted, refused := Accepted(s.books, before), RefusedFills(s.books, before);
      assert accepted + [] == accepted && refused + [] == refused;
      TotalConcat(FillFees, accepted, [f]);
      TotalConcat(FillFees, refused, [f]);
    }
  }

  /** A bot's ledger as a run of fills from its starting capital. */
  datatype History = History(capital: real, fills: seq<Fill>)
  {
    function Ledger(): LedgerState { RunLedger(Fresh(capital), fills) }
  }

  ghost function RecordedBy(h: History): real { FeesOf(h.Ledger()) }

  ghost function AcceptedBy(h: History): real { Total(FillFees, Accepted(FreshBooks(h.capital), h.fills)) }

  ghost function RefusedBy(h: History): real { Total(FillFees, RefusedFills(FreshBooks(h.capital), h.fills)) }

  /** Over whole runs of any number of ledgers: what the fee audit takes as recorded is what the accepted fills
      cost exactly when the fees of the refused ones add up to zero. */
  lemma {:induction false} RecordedFeesIff(bots: seq<History>)
    ensures Total(RecordedBy, bots) == Total(AcceptedBy, bots) + Total(RefusedBy, bots)
    ensures Total(RecordedBy, bots) == Total(AcceptedBy, bots) <==> Total(RefusedBy, bots) == 0.0
  {
    hide RecordedBy, AcceptedBy, RefusedBy;
    if |bots| > 0 {
      RecordedFeesIff(bots[..|bots| - 1]);
      HistoryFees(bots[|bots| - 1]);
    }
  }

  lemma HistoryFees(h: History)
    ensures RecordedBy(h) == AcceptedBy(h) + RefusedBy(h)
  {
    hide RunLedger, Accepted, RefusedFills;
    FeesAreOfAllFills(Fresh(h.capital), h.fills);
  }

  predicate ShouldKillSwitch(cfg: AuditConfig, feeDrift: real, mismatchCycles: int) {
    feeDrift > cfg.feeDriftAbs || mismatchCycles >= cfg.positionMismatchCycles
  }
}
