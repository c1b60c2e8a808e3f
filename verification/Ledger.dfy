/**
 The per-bot balance sheet (src/trading_strands/ledger/models.py).

 Money is exact: `Decimal` is modelled by `real`.  `LedgerState` is the value a ledger denotes and
 `AfterFill` its transition; the classes at the end change fields in place, as the program does, and
 are proved to follow that transition.
 */
module LedgerModel {
  import opened Prelude

  datatype Side = Buy | Sell

  datatype FeeBreakdown = FeeBreakdown(
    commission: real, secFee: real, tafFee: real, finraFee: real, optionsPerContract: real,
    optionsExercise: real, cryptoSpread: real, cryptoNetwork: real, other: real)
  {
    function Total(): real {
      commission + secFee + tafFee + finraFee + optionsPerContract + optionsExercise
      + cryptoSpread + cryptoNetwork + other
    }
  }

  const NO_FEES := FeeBreakdown(0.0, 0.0, 0.0, 0.0, 0.0, 0.0, 0.0, 0.0, 0.0)

  datatype Fill = Fill(symbol: string, side: Side, quantity: real, price: real, fees: FeeBreakdown)
  {
    function GrossValue(): real { price * quantity }

    function BurdenedTotal(): real {
      if side.Buy? then GrossValue() + fees.Total() else GrossValue() - fees.Total()
    }

    function BurdenedCostPerUnit(): real
      requires quantity != 0.0
    {
      BurdenedTotal() / quantity
    }
  }

  /** The value of one open position. */
  datatype Holding = Holding(symbol: string, quantity: real, costBasis: real)

  /** How `record_fill` ends: normally, or with one of the exceptions it can raise. */
  datatype FillOutcome = Recorded | NothingToSell | SellExceedsHeld | DividesByZero

  /** What decides trades: the balances and the open positions. */
  datatype Books = Books(
    startingCapital: real, realizedPnl: real, highWaterMark: real, positions: seq<Holding>)
  {
    function Equity(): real { startingCapital + realizedPnl }

    function DrawdownFromHwm(): real { highWaterMark - Equity() }

    function DrawdownPct(): real {
      if highWaterMark == 0.0 then 0.0 else DrawdownFromHwm() / highWaterMark
    }
  }

  /** The value of a ledger: its books and the two histories. */
  datatype LedgerState = LedgerState(
    books: Books, orderHistory: seq<Fill>, feeLedger: seq<FeeBreakdown>)

  /** `model_post_init`: every construction replaces a zero mark by the starting capital. */
  function Initialise(b: Books): Books {
    if b.highWaterMark == 0.0 then b.(highWaterMark := b.startingCapital) else b
  }

  function FreshBooks(startingCapital: real): Books {
    Initialise(Books(startingCapital, 0.0, 0.0, []))
  }

  function Fresh(startingCapital: real): LedgerState {
    LedgerState(FreshBooks(startingCapital), [], [])
  }

  /** Index of the first position in `sym`, or the length if there is none. */
  function FirstIn(ps: seq<Holding>, sym: string): (i: nat)
    ensures i <= |ps|
    ensures i < |ps| ==> ps[i].symbol == sym
    ensures forall j :: 0 <= j < i ==> ps[j].symbol != sym
  {
    if |ps| == 0 then 0
    else if ps[0].symbol == sym then 0
    else 1 + FirstIn(ps[1..], sym)
  }

  /** The position after buying more: the weighted average of the burdened costs. */
  function AverageIn(p: Holding, f: Fill): (h: Holding)
    requires f.quantity != 0.0 && p.quantity + f.quantity != 0.0
    ensures h.symbol == p.symbol && h.quantity == p.quantity + f.quantity
  {
    var totalQty := p.quantity + f.quantity;
    var totalCost := p.costBasis * p.quantity + f.BurdenedCostPerUnit() * f.quantity;
    Holding(p.symbol, totalQty, totalCost / totalQty)
  }

  function AfterBuy(b: Books, f: Fill): (Books, FillOutcome) {
    var i := FirstIn(b.positions, f.symbol);
    if f.quantity == 0.0 then (b, DividesByZero)
    else if i == |b.positions| then
      (b.(positions := b.positions + [Holding(f.symbol, f.quantity, f.BurdenedCostPerUnit())]), Recorded)
    else
      var p := b.positions[i];
      if p.quantity + f.quantity == 0.0 then (b, DividesByZero)
      else (b.(positions := b.positions[i := AverageIn(p, f)]), Recorded)
  }

  /** What a sell earns: its net proceeds minus the burdened cost of the shares sold. */
  function RealizedBy(p: Holding, f: Fill): real {
    f.BurdenedTotal() - p.costBasis * f.quantity
  }

  function AfterSell(b: Books, f: Fill): (Books, FillOutcome) {
    var i := FirstIn(b.positions, f.symbol);
    if i == |b.positions| then (b, NothingToSell)
    else if f.quantity > b.positions[i].quantity then (b, SellExceedsHeld)
    else
      var p := b.positions[i];
      var paid := b.(realizedPnl := b.realizedPnl + RealizedBy(p, f));
      var remaining := p.quantity - f.quantity;
      if remaining == 0.0 then (paid.(positions := b.positions[..i] + b.positions[i + 1..]), Recorded)
      else (paid.(positions := b.positions[i := p.(quantity := remaining)]), Recorded)
  }

  function RaiseMark(b: Books): Books {
    if b.Equity() > b.highWaterMark then b.(highWaterMark := b.Equity()) else b
  }

  /** What `record_fill` does to the books; one that raises leaves them alone. */
  function Settle(b: Books, f: Fill): (Books, FillOutcome) {
    var (c, o) := if f.side.Buy? then AfterBuy(b, f) else AfterSell(b, f);
    (if o.Recorded? then RaiseMark(c) else c, o)
  }

  /** `record_fill`: both histories grow first, and stay grown if it then raises. */
  function AfterFill(s: LedgerState, f: Fill): (LedgerState, FillOutcome) {
    var (b, o) := Settle(s.books, f);
    (LedgerState(b, s.orderHistory + [f], s.feeLedger + [f.fees]), o)
  }

  // ---------- Runs ----------

  function RunLedger(s: LedgerState, fills: seq<Fill>): LedgerState {
    if |fills| == 0 then s else AfterFill(RunLedger(s, fills[..|fills| - 1]), fills[|fills| - 1]).0
  }

  function RunBooks(b: Books, fills: seq<Fill>): Books {
    if |fills| == 0 then b else Settle(RunBooks(b, fills[..|fills| - 1]), fills[|fills| - 1]).0
  }

  /** The fills of the run that `record_fill` accepted, in order. */
  function Accepted(b: Books, fills: seq<Fill>): seq<Fill> {
    if |fills| == 0 then []
    else
      var before, f := fills[..|fills| - 1], fills[|fills| - 1];
      Accepted(b, before) + (if Settle(RunBooks(b, before), f).1.Recorded? then [f] else [])
  }

  lemma {:induction false} RunConcat(s: LedgerState, f: seq<Fill>, g: seq<Fill>)
    ensures RunLedger(RunLedger(s, f), g) == RunLedger(s, f + g)
  {
    hide AfterFill;
    if |g| == 0 {
      assert f + g == f;
    } else {
      RunConcat(s, f, g[..|g| - 1]);
      assert (f + g)[..|f + g| - 1] == f + g[..|g| - 1];
    }
  }

  lemma RunOne(s: LedgerState, f: Fill)
    ensures RunLedger(s, [f]) == AfterFill(s, f).0
  {
    hide AfterFill;
    assert [f][..0] == [];
  }

  /** All nine fees of a fill. */
  ghost function FeesPaid(f: Fill): real {
    var c := f.fees;
    c.commission + c.secFee + c.tafFee + c.finraFee + c.optionsPerContract + c.optionsExercise
    + c.cryptoSpread + c.cryptoNetwork + c.other
  }

  /** Cash that a fill moves: a buy takes its price and its fees, a sell brings its price less its fees. */
  ghost function CashFlow(f: Fill): real {
    (if f.side.Buy? then -(f.price * f.quantity) else f.price * f.quantity) - FeesPaid(f)
  }

  /** The burdened total is that cash: what a buy costs, what a sell nets. */
  lemma BurdenedIsCash(f: Fill)
    ensures f.BurdenedTotal() == if f.side.Buy? then -CashFlow(f) else CashFlow(f)
  {
  }

  ghost function BookValueOf(h: Holding): real { h.quantity * h.costBasis }

  ghost function BookValue(ps: seq<Holding>): real { Total(BookValueOf, ps) }

  ghost function QuantityIn(sym: string): Holding -> real {
    (h: Holding) => if h.symbol == sym then h.quantity else 0.0
  }

  /** The quantity of `sym` held, over however many positions. */
  ghost function Held(ps: seq<Holding>, sym: string): real { Total(QuantityIn(sym), ps) }

  ghost function SharesIn(sym: string): Fill -> real {
    (f: Fill) => if f.symbol != sym then 0.0 else if f.side.Buy? then f.quantity else -f.quantity
  }

  /** Shares bought minus shares sold in `sym`. */
  ghost function NetShares(fills: seq<Fill>, sym: string): real { Total(SharesIn(sym), fills) }

  lemma DivideBack(a: real, b: real)
    requires b != 0.0
    ensures a / b * b == a && b * (a / b) == a
  {
  }

  /** Averaging in adds the cost of the fill to the book value of the position. */
  lemma AverageKeepsCost(p: Holding, f: Fill)
    requires f.quantity != 0.0 && p.quantity + f.quantity != 0.0
    ensures var h := AverageIn(p, f);
            BookValueOf(h) == BookValueOf(p) + f.BurdenedTotal()
  {
    DivideBack(f.BurdenedTotal(), f.quantity);
    DivideBack(p.costBasis * p.quantity + f.BurdenedCostPerUnit() * f.quantity, p.quantity + f.quantity);
  }

  /** What an accepted sell does, to the cent: it realizes its cash less the basis of the shares sold, and what
      is left of the position keeps its basis; no other position changes. */
  lemma {:induction false} SellRealizes(b: Books, f: Fill)
    requires f.side.Sell? && Settle(b, f).1.Recorded?
    ensures var c, i := Settle(b, f).0, FirstIn(b.positions, f.symbol);
            && i < |b.positions|
            && var p := b.positions[i];
               && c.realizedPnl == b.realizedPnl + CashFlow(f) - p.costBasis * f.quantity
               && c.positions == b.positions[..i]
                                 + (if f.quantity == p.quantity then []
                                    else [Holding(p.symbol, p.quantity - f.quantity, p.costBasis)])
                                 + b.positions[i + 1..]
  {
    hide Fill.BurdenedTotal, CashFlow;
    BurdenedIsCash(f);
    var i := FirstIn(b.positions, f.symbol);
    var p := b.positions[i];
    var left := p.(quantity := p.quantity - f.quantity);
    assert b.positions[..i] + [] == b.positions[..i];
    assert b.positions[i := left] == b.positions[..i] + [left] + b.positions[i + 1..];
  }

  /** What an accepted buy does: it realizes nothing, and the position it opens or adds to has the cash of the
      fill in its book value; no other position changes. */
  lemma {:induction false} BuyAverages(b: Books, f: Fill)
    requires f.side.Buy? && Settle(b, f).1.Recorded?
    ensures var c, i := Settle(b, f).0, FirstIn(b.positions, f.symbol);
            && c.realizedPnl == b.realizedPnl && i < |c.positions|
            && var h := c.positions[i];
               && h.symbol == f.symbol
               && c.positions == b.positions[..i] + [h] + (if i == |b.positions| then [] else b.positions[i + 1..])
               && h.quantity == (if i == |b.positions| then 0.0 else b.positions[i].quantity) + f.quantity
               && BookValueOf(h) == (if i == |b.positions| then 0.0 else BookValueOf(b.positions[i])) - CashFlow(f)
  {
    hide Fill.BurdenedTotal, CashFlow;
    BurdenedIsCash(f);
    var i := FirstIn(b.positions, f.symbol);
    if i == |b.positions| {
      DivideBack(f.BurdenedTotal(), f.quantity);
      assert b.positions[..i] == b.positions;
    } else {
      AverageKeepsCost(b.positions[i], f);
    }
  }

  lemma {:induction false} BuyConservesMoney(b: Books, f: Fill)
    requires f.side.Buy? && AfterBuy(b, f).1.Recorded?
    ensures BookValue(AfterBuy(b, f).0.positions) == BookValue(b.positions) - CashFlow(f)
  {
    var i := FirstIn(b.positions, f.symbol);
    var cost := f.BurdenedTotal();
    DivideBack(cost, f.quantity);
    BurdenedIsCash(f);
    hide CashFlow, Fill.BurdenedTotal;
    if i == |b.positions| {
      var h := Holding(f.symbol, f.quantity, f.BurdenedCostPerUnit());
      assert BookValueOf(h) == cost && AfterBuy(b, f).0.positions == b.positions + [h];
      TotalConcat(BookValueOf, b.positions, [h]);
      TotalSingle(BookValueOf, h);
      assert BookValue(b.positions + [h]) == BookValue(b.positions) + cost;
    } else {
      AverageKeepsCost(b.positions[i], f);
      TotalUpdate(BookValueOf, b.positions, i, AverageIn(b.positions[i], f));
    }
  }

  lemma {:induction false} SellConservesMoney(b: Books, f: Fill)
    requires f.side.Sell? && AfterSell(b, f).1.Recorded?
    ensures var c := AfterSell(b, f).0;
            c.realizedPnl - BookValue(c.positions) == b.realizedPnl - BookValue(b.positions) + CashFlow(f)
  {
    hide Total, CashFlow, Fill.BurdenedTotal;
    BurdenedIsCash(f);
    var i := FirstIn(b.positions, f.symbol);
    var p, c := b.positions[i], AfterSell(b, f).0;
    var sold := p.costBasis * f.quantity;
    assert BookValueOf(p.(quantity := p.quantity - f.quantity)) == BookValueOf(p) - sold;
    assert c.realizedPnl == b.realizedPnl + (CashFlow(f) - sold);
    if p.quantity - f.quantity == 0.0 {
      TotalRemove(BookValueOf, b.positions, i);
    } else {
      TotalUpdate(BookValueOf, b.positions, i, p.(quantity := p.quantity - f.quantity));
    }
  }

  /** An accepted fill moves money between cash and the book value of the positions, creating none. */
  lemma {:induction false} FillConservesMoney(b: Books, f: Fill)
    requires Settle(b, f).1.Recorded?
    ensures var c := Settle(b, f).0;
            c.realizedPnl - BookValue(c.positions) == b.realizedPnl - BookValue(b.positions) + CashFlow(f)
  {
    hide BookValue, CashFlow;
    if f.side.Buy? {
      BuyConservesMoney(b, f);
    } else {
      SellConservesMoney(b, f);
    }
  }

  /** Conservation of money: realized PnL is the net cash of the accepted fills plus what the open
      positions cost, and equity is that on top of the capital.  No assumption on quantities, prices, fees or
      the order of the fills. */
  lemma {:induction false} MoneyIsConserved(capital: real, fills: seq<Fill>)
    ensures var b := RunBooks(FreshBooks(capital), fills);
            && b.realizedPnl == Total(CashFlow, Accepted(FreshBooks(capital), fills)) + BookValue(b.positions)
            && b.Equity() == capital + b.realizedPnl
  {
    hide Settle, CashFlow;
    CapitalStays(FreshBooks(capital), fills);
    if |fills| > 0 {
      var before, f := fills[..|fills| - 1], fills[|fills| - 1];
      MoneyIsConserved(capital, before);
      var b := RunBooks(FreshBooks(capital), before);
      if Settle(b, f).1.Recorded? {
        FillConservesMoney(b, f);
        TotalConcat(CashFlow, Accepted(FreshBooks(capital), before), [f]);
        TotalSingle(CashFlow, f);
      } else {
        RejectedFillIsInert(b, f);
        assert Accepted(FreshBooks(capital), fills) == Accepted(FreshBooks(capital), before);
      }
    }
  }

  lemma {:induction false} CapitalStays(b: Books, fills: seq<Fill>)
    ensures RunBooks(b, fills).startingCapital == b.startingCapital
  {
    if |fills| > 0 {
      CapitalStays(b, fills[..|fills| - 1]);
    }
  }

  /** A fill that raises leaves the books as they were. */
  lemma RejectedFillIsInert(b: Books, f: Fill)
    requires !Settle(b, f).1.Recorded?
    ensures Settle(b, f).0 == b
  {
  }

  /** The histories keep every attempted fill, accepted or not, while the books follow the accepted
      ones: replaying those alone accepts each of them and gives the same books. */
  lemma {:induction false} ReplayAccepted(s: LedgerState, fills: seq<Fill>)
    ensures RunLedger(s, fills).orderHistory == s.orderHistory + fills
    ensures var log := RunLedger(s, fills).feeLedger;
            && |log| == |s.feeLedger| + |fills| && log[..|s.feeLedger|] == s.feeLedger
            && forall i :: 0 <= i < |fills| ==> log[|s.feeLedger| + i] == fills[i].fees
    ensures RunLedger(s, fills).books == RunBooks(s.books, fills)
    ensures RunBooks(s.books, Accepted(s.books, fills)) == RunBooks(s.books, fills)
    ensures Accepted(s.books, Accepted(s.books, fills)) == Accepted(s.books, fills)
  {
    hide Settle;
    if |fills| > 0 {
      var before, f := fills[..|fills| - 1], fills[|fills| - 1];
      ReplayAccepted(s, before);
      assert fills == before + [f];
      var a := Accepted(s.books, before);
      if Settle(RunBooks(s.books, before), f).1.Recorded? {
        assert (a + [f])[..|a + [f]| - 1] == a;
      } else {
        RejectedFillIsInert(RunBooks(s.books, before), f);
        assert Accepted(s.books, fills) == a;
      }
    }
  }

  // ---------- Positions ----------

  ghost predicate PositiveFills(fills: seq<Fill>) {
    forall f :: f in fills ==> f.quantity > 0.0
  }

  ghost predicate DistinctSymbols(ps: seq<Holding>) {
    forall i, j :: 0 <= i < j < |ps| ==> ps[i].symbol != ps[j].symbol
  }

  /** At most one position per symbol, each of a positive quantity. */
  ghost predicate WellFormed(ps: seq<Holding>) {
    DistinctSymbols(ps) && forall h :: h in ps ==> h.quantity > 0.0
  }

  lemma {:induction false} HeldIsFirst(ps: seq<Holding>, sym: string)
    requires DistinctSymbols(ps)
    ensures var i := FirstIn(ps, sym); Held(ps, sym) == if i < |ps| then ps[i].quantity else 0.0
  {
    var i := FirstIn(ps, sym);
    if i < |ps| {
      TotalRemove(QuantityIn(sym), ps, i);
      TotalZero(QuantityIn(sym), ps[..i] + ps[i + 1..]);
    } else {
      TotalZero(QuantityIn(sym), ps);
    }
  }

  /** In a well-formed ledger a symbol is open exactly when its net quantity is positive. */
  lemma {:induction false} HeldNonNegative(ps: seq<Holding>, sym: string)
    requires WellFormed(ps)
    ensures Held(ps, sym) >= 0.0
    ensures Held(ps, sym) > 0.0 <==> exists h :: h in ps && h.symbol == sym
  {
    HeldIsFirst(ps, sym);
    var i := FirstIn(ps, sym);
    if i < |ps| {
      assert ps[i] in ps && ps[i].symbol == sym;
    }
  }

  /** Filling a well-formed ledger with a positive quantity keeps it well formed. */
  lemma {:induction false} FillKeepsWellFormed(b: Books, f: Fill)
    requires WellFormed(b.positions) && f.quantity > 0.0
    ensures WellFormed(Settle(b, f).0.positions)
  {
    hide AverageIn, RealizedBy;
    var i, ps := FirstIn(b.positions, f.symbol), b.positions;
    if i < |ps| {
      assert ps[i] in ps;
      if f.side.Buy? {
        var h := AverageIn(ps[i], f);
        assert WellFormed(ps[i := h]);
      }
    }
  }

  /** A fill of positive quantity is refused exactly when it sells more than is held. */
  lemma {:induction false} SellsNeedShares(b: Books, f: Fill)
    requires WellFormed(b.positions) && f.quantity > 0.0
    ensures Settle(b, f).1.Recorded? <==> f.side.Buy? || f.quantity <= Held(b.positions, f.symbol)
    ensures Settle(b, f).1.NothingToSell? <==> f.side.Sell? && Held(b.positions, f.symbol) == 0.0
    ensures Settle(b, f).1.SellExceedsHeld? <==> f.side.Sell? && 0.0 < Held(b.positions, f.symbol) < f.quantity
  {
    hide AverageIn;
    HeldIsFirst(b.positions, f.symbol);
    var i := FirstIn(b.positions, f.symbol);
    if i < |b.positions| {
      assert b.positions[i] in b.positions;
    }
  }

  /** An accepted fill moves its own symbol by its own quantity, and no other symbol. */
  lemma {:induction false} FillMovesShares(b: Books, f: Fill, sym: string)
    requires Settle(b, f).1.Recorded?
    ensures Held(Settle(b, f).0.positions, sym) == Held(b.positions, sym) + SharesIn(sym)(f)
  {
    hide AverageIn, RealizedBy, Total;
    var i, q := FirstIn(b.positions, f.symbol), QuantityIn(sym);
    var after := Settle(b, f).0.positions;
    if i == |b.positions| {
      TotalConcat(q, b.positions, [after[i]]);
      TotalSingle(q, after[i]);
    } else if f.side.Sell? && b.positions[i].quantity == f.quantity {
      TotalRemove(q, b.positions, i);
    } else {
      TotalUpdate(q, b.positions, i, after[i]);
    }
  }

  /** Over any run of positive fills the positions stay well formed and hold exactly the shares bought
      minus the shares sold by the accepted fills. */
  lemma {:induction false} PositionsAreNetShares(capital: real, fills: seq<Fill>, sym: string)
    requires PositiveFills(fills)
    ensures WellFormed(RunBooks(FreshBooks(capital), fills).positions)
    ensures Held(RunBooks(FreshBooks(capital), fills).positions, sym)
            == NetShares(Accepted(FreshBooks(capital), fills), sym)
  {
    hide Settle, SharesIn;
    if |fills| > 0 {
      var before, f := fills[..|fills| - 1], fills[|fills| - 1];
      assert f in fills && forall g :: g in before ==> g in fills;
      PositionsAreNetShares(capital, before, sym);
      var b := RunBooks(FreshBooks(capital), before);
      FillKeepsWellFormed(b, f);
      if Settle(b, f).1.Recorded? {
        FillMovesShares(b, f, sym);
        TotalConcat(SharesIn(sym), Accepted(FreshBooks(capital), before), [f]);
        TotalSingle(SharesIn(sym), f);
      } else {
        RejectedFillIsInert(b, f);
        assert Accepted(FreshBooks(capital), fills) == Accepted(FreshBooks(capital), before);
      }
    }
  }

  /** Averaging and lot order do not matter: two runs whose accepted fills are the same up to order hold
      the same shares and have the same PnL net of book value, so a flat ledger has the same PnL. */
  lemma {:induction false} OrderOfFillsIsIrrelevant(capital: real, fills: seq<Fill>, fills': seq<Fill>)
    requires PositiveFills(fills) && PositiveFills(fills')
    requires multiset(Accepted(FreshBooks(capital), fills)) == multiset(Accepted(FreshBooks(capital), fills'))
    ensures var b, c := RunBooks(FreshBooks(capital), fills), RunBooks(FreshBooks(capital), fills');
            && (forall sym :: Held(b.positions, sym) == Held(c.positions, sym))
            && b.realizedPnl - BookValue(b.positions) == c.realizedPnl - BookValue(c.positions)
            && (b.positions == [] ==> c.positions == [] && b.realizedPnl == c.realizedPnl)
  {
    hide RunBooks, Accepted, CashFlow, SharesIn;
    var b, c := RunBooks(FreshBooks(capital), fills), RunBooks(FreshBooks(capital), fills');
    var a, a' := Accepted(FreshBooks(capital), fills), Accepted(FreshBooks(capital), fills');
    MoneyIsConserved(capital, fills);
    MoneyIsConserved(capital, fills');
    TotalPermutation(CashFlow, a, a');
    forall sym
      ensures Held(b.positions, sym) == Held(c.positions, sym)
    {
      PositionsAreNetShares(capital, fills, sym);
      PositionsAreNetShares(capital, fills', sym);
      TotalPermutation(SharesIn(sym), a, a');
    }
    PositionsAreNetShares(capital, fills', "");
    if c.positions != [] {
      HeldNonNegative(c.positions, c.positions[0].symbol);
    }
  }

  // ---------- High-water mark ----------

  /** `m` is the largest equity the run ever had, its start included. */
  ghost predicate IsPeakEquity(b: Books, fills: seq<Fill>, m: real) {
    && (forall k :: 0 <= k <= |fills| ==> RunBooks(b, fills[..k]).Equity() <= m)
    && exists k :: 0 <= k <= |fills| && RunBooks(b, fills[..k]).Equity() == m
  }

  /** Settling a fill raises the mark to the equity if that is higher, and otherwise leaves it. */
  lemma SettleMark(b: Books, f: Fill)
    requires b.Equity() <= b.highWaterMark
    ensures var c := Settle(b, f).0;
            && c.startingCapital == b.startingCapital
            && c.highWaterMark == Max(b.highWaterMark, c.Equity())
  {
  }

  /** The high-water mark is the all-time peak of the equity. */
  lemma {:induction false} MarkIsPeak(b: Books, fills: seq<Fill>)
    requires b.highWaterMark == b.Equity()
    ensures IsPeakEquity(b, fills, RunBooks(b, fills).highWaterMark)
  {
    hide Settle;
    assert fills[..|fills|] == fills;
    if |fills| == 0 {
      assert RunBooks(b, fills[..0]).Equity() == b.highWaterMark;
    } else {
      var before := fills[..|fills| - 1];
      var c, m := RunBooks(b, before), RunBooks(b, fills).highWaterMark;
      MarkIsPeak(b, before);
      assert before[..|before|] == before;
      assert forall k :: 0 <= k <= |before| ==> fills[..k] == before[..k];
      SettleMark(c, fills[|fills| - 1]);
      if m == c.highWaterMark {
        var top :| 0 <= top <= |before| && RunBooks(b, before[..top]).Equity() == m;
        assert RunBooks(b, fills[..top]).Equity() == m;
      } else {
        assert RunBooks(b, fills[..|fills|]).Equity() == m;
      }
    }
  }

  // ---------- The mutable ledger ----------

  class Position {
    const symbol: string
    var quantity: real
    var burdenedCostBasis: real

    constructor (symbol: string, quantity: real, basis: real)
      ensures Value() == Holding(symbol, quantity, basis)
    {
      this.symbol, this.quantity, burdenedCostBasis := symbol, quantity, basis;
    }

    function Value(): Holding
      reads this
    {
      Holding(symbol, quantity, burdenedCostBasis)
    }
  }

  /** The values of a list of position objects. */
  function Values(ps: seq<Position>): seq<Holding>
    reads ps
  {
    seq(|ps|, i requires 0 <= i < |ps| reads ps => ps[i].Value())
  }

  /** `now` is `was`, or `was` without its entry `j`. */
  predicate TakesOutAtMost<T(==)>(was: seq<T>, j: nat, now: seq<T>) {
    now == was || (j < |was| && now == was[..j] + was[j + 1..])
  }

  class Ledger {
    const startingCapital: real
    var realizedPnl: real
    var highWaterMark: real
    var openPositions: seq<Position>
    var orderHistory: seq<Fill>
    var feeLedger: seq<FeeBreakdown>

    ghost var cells: set<Position>  // the position objects this ledger may change

    ghost predicate Valid()
      reads this
    {
      && (forall p :: p in openPositions ==> p in cells)
      && (forall i, j :: 0 <= i < j < |openPositions| ==> openPositions[i] != openPositions[j])
    }

    function ViewBooks(): Books
      requires Valid()
      reads this, cells
    {
      Books(startingCapital, realizedPnl, highWaterMark, Values(openPositions))
    }

    function View(): LedgerState
      requires Valid()
      reads this, cells
    {
      LedgerState(ViewBooks(), orderHistory, feeLedger)
    }

    lemma ViewHasPositions()
      requires Valid()
      ensures View().books.positions == Values(openPositions)
    {
    }

    /** A new balance sheet with no history. */
    constructor (capital: real)
      ensures Valid() && View() == Fresh(capital) && cells == {}
    {
      startingCapital, realizedPnl, highWaterMark := capital, 0.0, 0.0;
      openPositions, orderHistory, feeLedger, cells := [], [], [], {};
      new;
      if highWaterMark == 0.0 {
        highWaterMark := startingCapital;
      }
    }

    /** A ledger rebuilt from a stored value, with position objects of its own. */
    constructor Restore(s: LedgerState)
      ensures Valid() && fresh(cells)
      ensures View() == s.(books := Initialise(s.books))
    {
      startingCapital, realizedPnl := s.books.startingCapital, s.books.realizedPnl;
      highWaterMark := s.books.highWaterMark;
      openPositions, orderHistory, feeLedger, cells := [], s.orderHistory, s.feeLedger, {};
      new;
      var ps := s.books.positions;
      var i := 0;
      while i < |ps|
        invariant i <= |ps| && Valid() && fresh(cells)
        invariant Values(openPositions) == ps[..i]
        invariant realizedPnl == s.books.realizedPnl && highWaterMark == s.books.highWaterMark
        invariant orderHistory == s.orderHistory && feeLedger == s.feeLedger
      {
        var p := new Position(ps[i].symbol, ps[i].quantity, ps[i].costBasis);
        openPositions, cells := openPositions + [p], cells + {p};
        i := i + 1;
      }
      if highWaterMark == 0.0 {
        highWaterMark := startingCapital;
      }
    }

    method FindPosition(sym: string) returns (i: nat)
      requires Valid()
      ensures i == FirstIn(Values(openPositions), sym)
    {
      i := 0;
      while i < |openPositions|
        invariant i <= |openPositions|
        invariant forall j :: 0 <= j < i ==> Values(openPositions)[j].symbol != sym
      {
        if openPositions[i].symbol == sym {
          assert Values(openPositions)[i].symbol == sym;
          return;
        }
        i := i + 1;
      }
    }

    method RecordFill(fill: Fill) returns (outcome: FillOutcome)
      requires Valid()
      modifies this, cells
      ensures Valid() && fresh(cells - old(cells))
      ensures (View(), outcome) == AfterFill(old(View()), fill)
      ensures fill.side.Sell? ==>
                var was, j := old(openPositions), old(FirstIn(Values(openPositions), fill.symbol));
                && cells == old(cells) && TakesOutAtMost(was, j, openPositions)
                && forall k :: j < k < |was| ==> was[k].Value() == old(was[k].Value())
    {
      hide AfterBuy, AfterSell, FirstIn, TakesOutAtMost;
      orderHistory := orderHistory + [fill];
      feeLedger := feeLedger + [fill.fees];
      if fill.side.Buy? {
        outcome := HandleBuy(fill);
      } else {
        outcome := HandleSell(fill);
      }
      if outcome.Recorded? && startingCapital + realizedPnl > highWaterMark {
        highWaterMark := startingCapital + realizedPnl;
      }
    }

    method HandleBuy(fill: Fill) returns (outcome: FillOutcome)
      requires Valid()
      modifies this, cells
      ensures Valid() && fresh(cells - old(cells))
      ensures (ViewBooks(), outcome) == AfterBuy(old(ViewBooks()), fill)
      ensures orderHistory == old(orderHistory) && feeLedger == old(feeLedger)
    {
      hide AverageIn, Fill.BurdenedCostPerUnit, FirstIn;
      var i := FindPosition(fill.symbol);
      if fill.quantity == 0.0 {
        return DividesByZero;
      }
      if i == |openPositions| {
        var p := new Position(fill.symbol, fill.quantity, fill.BurdenedCostPerUnit());
        openPositions, cells := openPositions + [p], cells + {p};
        assert Values(openPositions) == old(Values(openPositions)) + [p.Value()];
      } else {
        var existing := openPositions[i];
        if existing.quantity + fill.quantity == 0.0 {
          return DividesByZero;
        }
        var averaged := AverageIn(existing.Value(), fill);
        existing.burdenedCostBasis := averaged.costBasis;
        existing.quantity := averaged.quantity;
        assert Values(openPositions) == old(Values(openPositions))[i := existing.Value()];
      }
      outcome := Recorded;
    }

    /** `list.remove` takes out the first equal position, which is the first one in its symbol. */
    method RemovePosition(i: nat)
      requires Valid() && i < |openPositions|
      modifies this
      ensures Valid() && cells == old(cells)
      ensures openPositions == old(openPositions[..i] + openPositions[i + 1..])
      ensures Values(openPositions) == old(Values(openPositions)[..i] + Values(openPositions)[i + 1..])
      ensures unchanged(`realizedPnl, `highWaterMark, `orderHistory, `feeLedger)
    {
      openPositions := openPositions[..i] + openPositions[i + 1..];
      assert forall p :: p in openPositions ==> p in old(openPositions);
    }

    method HandleSell(fill: Fill) returns (outcome: FillOutcome)
      requires Valid()
      modifies this, cells
      ensures Valid() && cells == old(cells)
      ensures (ViewBooks(), outcome) == AfterSell(old(ViewBooks()), fill)
      ensures orderHistory == old(orderHistory) && feeLedger == old(feeLedger)
      ensures var was, j := old(openPositions), old(FirstIn(Values(openPositions), fill.symbol));
              && TakesOutAtMost(was, j, openPositions)
              && forall k :: j < k < |was| ==> was[k].Value() == old(was[k].Value())
    {
      hide RealizedBy, FirstIn;
      var i := FindPosition(fill.symbol);
      if i == |openPositions| {
        return NothingToSell;
      }
      var pos := openPositions[i];
      if fill.quantity > pos.quantity {
        return SellExceedsHeld;
      }
      realizedPnl := realizedPnl + RealizedBy(pos.Value(), fill);
      var remaining := pos.quantity - fill.quantity;
      if remaining == 0.0 {
        RemovePosition(i);
      } else {
        pos.quantity := remaining;
        assert Values(openPositions) == old(Values(openPositions))[i := pos.Value()];
      }
      outcome := Recorded;
    }
  }
}
