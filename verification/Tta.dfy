/**
 Threshold-to-action predicates (src/trading_strands/ir/tta.py).

 A predicate is a JSON object, so nothing about its keys is guaranteed; `Evaluate` follows the program,
 short circuits and exceptions included.
 */
module Tta {
  import opened Prelude

  type Context = map<string, real>

  /** The entry under "value": absent, not a number, or a number. */
  datatype Operand = Missing | Unparsable | Number(value: real)

  datatype Branches = NoBranches | Branches(preds: seq<Pred>)

  datatype Inner = NoInner | Inner(pred: Pred)

  /** A JSON object with the keys the evaluator looks for; any of them may be absent. */
  datatype Pred = Pred(
    conj: Branches, disj: Branches, negated: Inner,
    cross: Option<string>, field: Option<string>, op: Option<string>, value: Operand)
  {
    predicate IsLeaf() { conj.NoBranches? && disj.NoBranches? && negated.NoInner? }
  }

  function CrossPred(direction: string, field: string, threshold: real): Pred {
    Pred(NoBranches, NoBranches, NoInner, Some(direction), Some(field), None, Number(threshold))
  }

  datatype Failure = InvalidPredicate | KeyMissing | NotANumber | UnknownOperator | UnknownDirection

  const OPERATORS: set<string> := {"gt", "lt", "gte", "lte", "eq"}

  predicate Compare(op: string, a: real, b: real) {
    match op
    case "gt" => a > b
    case "lt" => a < b
    case "gte" => a >= b
    case "lte" => a <= b
    case _ => a == b
  }

  function EvalComparison(p: Pred, ctx: Context): Result<bool, Failure>
    requires p.field.Some? && p.op.Some?
  {
    match p.value
    case Missing => Err(KeyMissing)
    case Unparsable => Err(NotANumber)
    case Number(v) =>
      if p.op.value !in OPERATORS then Err(UnknownOperator)
      else if p.field.value !in ctx then Ok(false)
      else Ok(Compare(p.op.value, ctx[p.field.value], v))
  }

  function EvalCross(p: Pred, ctx: Context, prev: Option<Context>): Result<bool, Failure>
    requires p.cross.Some?
  {
    if prev.None? then Ok(false)
    else if p.field.None? || p.value.Missing? then Err(KeyMissing)
    else if p.value.Unparsable? then Err(NotANumber)
    else
      var f, threshold := p.field.value, p.value.value;
      if f !in ctx || f !in prev.value then Ok(false)
      else if p.cross.value == "above" then Ok(prev.value[f] <= threshold < ctx[f])
      else if p.cross.value == "below" then Ok(prev.value[f] >= threshold > ctx[f])
      else Err(UnknownDirection)
  }

  function EvalLeaf(p: Pred, ctx: Context, prev: Option<Context>): Result<bool, Failure> {
    if p.cross.Some? then EvalCross(p, ctx, prev)
    else if p.field.Some? && p.op.Some? then EvalComparison(p, ctx)
    else Err(InvalidPredicate)
  }

  function Negated(r: Result<bool, Failure>): Result<bool, Failure> {
    match r case Ok(b) => Ok(!b) case Err(e) => Err(e)
  }

  /** "and" wins over "or", that over "not", that over the leaves, whatever other keys are present. */
  function Evaluate(p: Pred, ctx: Context, prev: Option<Context>): Result<bool, Failure>
    decreases p, 1
  {
    if p.conj.Branches? then EvaluateAll(p.conj.preds, ctx, prev)
    else if p.disj.Branches? then EvaluateAny(p.disj.preds, ctx, prev)
    else if p.negated.Inner? then Negated(Evaluate(p.negated.pred, ctx, prev))
    else EvalLeaf(p, ctx, prev)
  }

  /** `all(...)`: stops at the first false, and at the first exception. */
  function EvaluateAll(ps: seq<Pred>, ctx: Context, prev: Option<Context>): Result<bool, Failure>
    decreases ps, 0
  {
    if |ps| == 0 then Ok(true)
    else
      var r := Evaluate(ps[0], ctx, prev);
      if r == Ok(true) then EvaluateAll(ps[1..], ctx, prev) else r
  }

  /** `any(...)`: stops at the first true, and at the first exception. */
  function EvaluateAny(ps: seq<Pred>, ctx: Context, prev: Option<Context>): Result<bool, Failure>
    decreases ps, 0
  {
    if |ps| == 0 then Ok(false)
    else
      var r := Evaluate(ps[0], ctx, prev);
      if r == Ok(false) then EvaluateAny(ps[1..], ctx, prev) else r
  }

  // ---------- Meaning ----------

  ghost predicate WellFormedLeaf(p: Pred) {
    && p.value.Number? && p.field.Some?
    && if p.cross.Some? then p.cross.value in {"above", "below"}
       else p.op.Some? && p.op.value in OPERATORS
  }

  ghost predicate WellFormed(p: Pred)
    decreases p
  {
    if p.conj.Branches? then forall q | q in p.conj.preds :: WellFormed(q)
    else if p.disj.Branches? then forall q | q in p.disj.preds :: WellFormed(q)
    else if p.negated.Inner? then WellFormed(p.negated.pred)
    else WellFormedLeaf(p)
  }

  /** The Boolean meaning of a tree, with no order of evaluation.  A leaf that raises has no truth
      value of its own, so it takes an arbitrary one from `junk`. */
  ghost predicate Meaning(p: Pred, ctx: Context, prev: Option<Context>, junk: Pred -> bool)
    decreases p
  {
    if p.conj.Branches? then forall q | q in p.conj.preds :: Meaning(q, ctx, prev, junk)
    else if p.disj.Branches? then exists q | q in p.disj.preds :: Meaning(q, ctx, prev, junk)
    else if p.negated.Inner? then !Meaning(p.negated.pred, ctx, prev, junk)
    else
      match EvalLeaf(p, ctx, prev)
      case Ok(b) => b
      case Err(_) => junk(p)
  }

  /** Short circuits are sound: an answer, once given, is the Boolean meaning of the whole tree, and
      stays so whatever truth the malformed leaves it skipped are given. */
  lemma {:induction false} AnswerIsMeaning(p: Pred, ctx: Context, prev: Option<Context>, junk: Pred -> bool)
    requires Evaluate(p, ctx, prev).Ok?
    ensures Evaluate(p, ctx, prev).value == Meaning(p, ctx, prev, junk)
    decreases p, 1
  {
    if p.conj.Branches? {
      AllIsForall(p.conj.preds, ctx, prev, junk);
    } else if p.disj.Branches? {
      AnyIsExists(p.disj.preds, ctx, prev, junk);
    } else if p.negated.Inner? {
      AnswerIsMeaning(p.negated.pred, ctx, prev, junk);
    }
  }

  lemma {:induction false} AllIsForall(ps: seq<Pred>, ctx: Context, prev: Option<Context>, junk: Pred -> bool)
    requires EvaluateAll(ps, ctx, prev).Ok?
    ensures EvaluateAll(ps, ctx, prev).value <==> forall q | q in ps :: Meaning(q, ctx, prev, junk)
    decreases ps, 0
  {
    if |ps| > 0 {
      AnswerIsMeaning(ps[0], ctx, prev, junk);
      if Evaluate(ps[0], ctx, prev) == Ok(true) {
        AllIsForall(ps[1..], ctx, prev, junk);
        assert forall q :: q in ps <==> q == ps[0] || q in ps[1..];
      }
    }
  }

  lemma {:induction false} AnyIsExists(ps: seq<Pred>, ctx: Context, prev: Option<Context>, junk: Pred -> bool)
    requires EvaluateAny(ps, ctx, prev).Ok?
    ensures EvaluateAny(ps, ctx, prev).value <==> exists q | q in ps :: Meaning(q, ctx, prev, junk)
    decreases ps, 0
  {
    if |ps| > 0 {
      AnswerIsMeaning(ps[0], ctx, prev, junk);
      if Evaluate(ps[0], ctx, prev) == Ok(false) {
        AnyIsExists(ps[1..], ctx, prev, junk);
        assert forall q :: q in ps <==> q == ps[0] || q in ps[1..];
      }
    }
  }

  /** A well-formed tree never raises, in any context. */
  lemma {:induction false} WellFormedNeverRaises(p: Pred, ctx: Context, prev: Option<Context>)
    requires WellFormed(p)
    ensures Evaluate(p, ctx, prev).Ok?
    decreases p, 1
  {
    if p.conj.Branches? {
      ListNeverRaises(p.conj.preds, ctx, prev);
    } else if p.disj.Branches? {
      ListNeverRaises(p.disj.preds, ctx, prev);
    } else if p.negated.Inner? {
      WellFormedNeverRaises(p.negated.pred, ctx, prev);
    }
  }

  lemma {:induction false} ListNeverRaises(ps: seq<Pred>, ctx: Context, prev: Option<Context>)
    requires forall q | q in ps :: WellFormed(q)
    ensures EvaluateAll(ps, ctx, prev).Ok? && EvaluateAny(ps, ctx, prev).Ok?
    decreases ps, 0
  {
    if |ps| > 0 {
      WellFormedNeverRaises(ps[0], ctx, prev);
      ListNeverRaises(ps[1..], ctx, prev);
    }
  }

  /** Which exception a leaf raises, and when: a comparison raises whatever the context, even where its field
      is absent; a crossing never does at the first tick, and minds its direction only where the field is
      present in both contexts. */
  lemma LeafRaises(p: Pred, ctx: Context, prev: Option<Context>)
    requires p.IsLeaf()
    ensures var r := Evaluate(p, ctx, prev);
            var comparison, crossing := p.cross.None? && p.field.Some? && p.op.Some?, p.cross.Some? && prev.Some?;
            && (r == Err(InvalidPredicate) <==> p.cross.None? && (p.field.None? || p.op.None?))
            && (r == Err(KeyMissing) <==>
                  (comparison && p.value.Missing?) || (crossing && (p.field.None? || p.value.Missing?)))
            && (r == Err(NotANumber) <==> p.value.Unparsable? && (comparison || (crossing && p.field.Some?)))
            && (r == Err(UnknownOperator) <==>
                  comparison && p.value.Number? && p.op.value !in {"gt", "lt", "gte", "lte", "eq"})
            && (r == Err(UnknownDirection) <==>
                  && crossing && p.value.Number? && p.field.Some?
                  && p.field.value in ctx && p.field.value in prev.value
                  && p.cross.value !in {"above", "below"})
  {
  }

  /** For a leaf, well-formedness is exactly never raising: a malformed crossing stays silent only until
      its field is present in two successive contexts. */
  lemma {:induction false} LeafRaisesIffMalformed(p: Pred)
    requires p.IsLeaf()
    ensures WellFormedLeaf(p) <==> forall ctx, prev :: EvalLeaf(p, ctx, prev).Ok?
  {
    var ctx: Context := if p.field.Some? then map[p.field.value := 0.0] else map[];
    if !WellFormedLeaf(p) {
      assert EvalLeaf(p, ctx, Some(ctx)).Err?;
    }
  }

  function Comparing(field: string, op: string, value: real): Pred {
    Pred(NoBranches, NoBranches, NoInner, None, Some(field), Some(op), Number(value))
  }

  function Negation(p: Pred): Pred { Pred(NoBranches, NoBranches, Inner(p), None, None, None, Missing) }

  function Negations(ps: seq<Pred>): seq<Pred> {
    if |ps| == 0 then [] else [Negation(ps[0])] + Negations(ps[1..])
  }

  function Conjunction(ps: seq<Pred>): Pred {
    Pred(Branches(ps), NoBranches, NoInner, None, None, None, Missing)
  }

  function Disjunction(ps: seq<Pred>): Pred {
    Pred(NoBranches, Branches(ps), NoInner, None, None, None, Missing)
  }

  /** The field stands on the left of its operator: each comparison, in terms of how far the field is above
      the value. */
  lemma ComparisonMeans(field: string, value: real, ctx: Context, prev: Option<Context>)
    requires field in ctx
    ensures var above := ctx[field] - value;
            && Evaluate(Comparing(field, "gt", value), ctx, prev) == Ok(above > 0.0)
            && Evaluate(Comparing(field, "gte", value), ctx, prev) == Ok(above >= 0.0)
            && Evaluate(Comparing(field, "lt", value), ctx, prev) == Ok(above < 0.0)
            && Evaluate(Comparing(field, "lte", value), ctx, prev) == Ok(above <= 0.0)
            && Evaluate(Comparing(field, "eq", value), ctx, prev) == Ok(above == 0.0)
  {
    assert {"gt", "gte", "lt", "lte", "eq"} <= OPERATORS;
  }

  /** A crossing is the edge of a comparison: "above" fires exactly when "gt" holds now and failed on the
      same field in the previous context, "below" exactly when "lt" does. */
  lemma CrossingIsEdge(field: string, threshold: real, ctx: Context, prev: Context)
    requires field in ctx && field in prev
    ensures var gt, lt := Comparing(field, "gt", threshold), Comparing(field, "lt", threshold);
            && (Evaluate(CrossPred("above", field, threshold), ctx, Some(prev)) == Ok(true) <==>
                Evaluate(gt, ctx, None) == Ok(true) && Evaluate(gt, prev, None) == Ok(false))
            && (Evaluate(CrossPred("below", field, threshold), ctx, Some(prev)) == Ok(true) <==>
                Evaluate(lt, ctx, None) == Ok(true) && Evaluate(lt, prev, None) == Ok(false))
  {
    ComparisonMeans(field, threshold, ctx, None);
    ComparisonMeans(field, threshold, prev, None);
  }

  lemma ConnectivesEvaluate(p: Pred, ps: seq<Pred>, ctx: Context, prev: Option<Context>)
    ensures Evaluate(Negation(p), ctx, prev) == Negated(Evaluate(p, ctx, prev))
    ensures Evaluate(Conjunction(ps), ctx, prev) == EvaluateAll(ps, ctx, prev)
    ensures Evaluate(Disjunction(ps), ctx, prev) == EvaluateAny(ps, ctx, prev)
  {
  }

  lemma {:induction false} AnyOfNegations(ps: seq<Pred>, ctx: Context, prev: Option<Context>)
    ensures EvaluateAny(Negations(ps), ctx, prev) == Negated(EvaluateAll(ps, ctx, prev))
    ensures EvaluateAll(Negations(ps), ctx, prev) == Negated(EvaluateAny(ps, ctx, prev))
  {
    if |ps| > 0 {
      AnyOfNegations(ps[1..], ctx, prev);
      ConnectivesEvaluate(ps[0], [], ctx, prev);
      assert Negations(ps)[0] == Negation(ps[0]) && Negations(ps)[1..] == Negations(ps[1..]);
    }
  }

  /** De Morgan, exceptions included: negating a conjunction gives what the disjunction of the negations
      gives, answer or exception, for any list of trees, well formed or not; and the other way round. */
  lemma {:induction false} DeMorgan(ps: seq<Pred>, ctx: Context, prev: Option<Context>)
    ensures Evaluate(Negation(Conjunction(ps)), ctx, prev) == Evaluate(Disjunction(Negations(ps)), ctx, prev)
    ensures Evaluate(Negation(Disjunction(ps)), ctx, prev) == Evaluate(Conjunction(Negations(ps)), ctx, prev)
  {
    ConnectivesEvaluate(Conjunction(ps), ps, ctx, prev);
    ConnectivesEvaluate(Disjunction(ps), Negations(ps), ctx, prev);
    ConnectivesEvaluate(Conjunction(ps), Negations(ps), ctx, prev);
    AnyOfNegations(ps, ctx, prev);
  }

  // ---------- Crossings over successive ticks ----------

  /** Whether the crossing fires at tick `i`; the first tick has no previous context. */
  ghost predicate Fires(direction: string, field: string, threshold: real, ticks: seq<Context>, i: nat)
    requires i < |ticks|
  {
    Evaluate(CrossPred(direction, field, threshold), ticks[i],
             if i == 0 then None else Some(ticks[i - 1])) == Ok(true)
  }

  ghost function Firings(direction: string, field: string, threshold: real, ticks: seq<Context>): int {
    if |ticks| == 0 then 0
    else
      Firings(direction, field, threshold, ticks[..|ticks| - 1])
      + (if Fires(direction, field, threshold, ticks, |ticks| - 1) then 1 else 0)
  }

  ghost predicate Present(field: string, ticks: seq<Context>) {
    forall i :: 0 <= i < |ticks| ==> field in ticks[i]
  }

  function Above(x: real, threshold: real): int { if x > threshold then 1 else 0 }

  /** Moves onto the threshold from above, and off it downwards: the moves no firing counts. */
  ghost function Landings(field: string, threshold: real, ticks: seq<Context>): int
    requires Present(field, ticks)
  {
    if |ticks| <= 1 then 0
    else
      var n := |ticks| - 1;
      Landings(field, threshold, ticks[..n])
      + (if ticks[n - 1][field] > threshold == ticks[n][field] then 1 else 0)
  }

  ghost function Departures(field: string, threshold: real, ticks: seq<Context>): int
    requires Present(field, ticks)
  {
    if |ticks| <= 1 then 0
    else
      var n := |ticks| - 1;
      Departures(field, threshold, ticks[..n])
      + (if ticks[n - 1][field] == threshold > ticks[n][field] then 1 else 0)
  }

  /** Crossing law, for every series: the firings account for where the series ends relative to where it
      began, up to the moves onto the threshold from above and off it downwards. */
  lemma {:induction false} CrossingLaw(field: string, threshold: real, ticks: seq<Context>)
    requires |ticks| > 0 && Present(field, ticks)
    ensures Firings("above", field, threshold, ticks) - Firings("below", field, threshold, ticks)
            == Above(ticks[|ticks| - 1][field], threshold) - Above(ticks[0][field], threshold)
               + Landings(field, threshold, ticks) - Departures(field, threshold, ticks)
  {
    var n := |ticks| - 1;
    if n > 0 {
      CrossingLaw(field, threshold, ticks[..n]);
    } else {
      assert Firings("above", field, threshold, ticks[..n]) == 0;
      assert Firings("below", field, threshold, ticks[..n]) == 0;
    }
  }

  /** So firings up minus firings down is the net change of side exactly when those moves balance. */
  lemma NetCrossingsIffBalanced(field: string, threshold: real, ticks: seq<Context>)
    requires |ticks| > 0 && Present(field, ticks)
    ensures Firings("above", field, threshold, ticks) - Firings("below", field, threshold, ticks)
            == Above(ticks[|ticks| - 1][field], threshold) - Above(ticks[0][field], threshold)
            <==> Landings(field, threshold, ticks) == Departures(field, threshold, ticks)
  {
    CrossingLaw(field, threshold, ticks);
  }

  ghost predicate NeverEquals(field: string, threshold: real, ticks: seq<Context>)
    requires Present(field, ticks)
  {
    forall i :: 0 <= i < |ticks| ==> ticks[i][field] != threshold
  }

  /** They do balance when no tick equals the threshold. */
  lemma {:induction false} NoTiesBalance(field: string, threshold: real, ticks: seq<Context>)
    requires Present(field, ticks) && NeverEquals(field, threshold, ticks)
    ensures Landings(field, threshold, ticks) == 0 == Departures(field, threshold, ticks)
  {
    if |ticks| > 1 {
      NoTiesBalance(field, threshold, ticks[..|ticks| - 1]);
    }
  }

  /** A series that dips onto the threshold and rises again fires "above" with no "below" to match. */
  lemma TouchBreaksNetCrossings(field: string, threshold: real)
    ensures var ticks: seq<Context> :=
              [map[field := threshold + 1.0], map[field := threshold], map[field := threshold + 1.0]];
            && Fires("above", field, threshold, ticks, 2)
            && Landings(field, threshold, ticks) == 1 && Departures(field, threshold, ticks) == 0
  {
    var ticks: seq<Context> :=
      [map[field := threshold + 1.0], map[field := threshold], map[field := threshold + 1.0]];
    var two := ticks[..2];
    assert Landings(field, threshold, two[..1]) == 0 == Departures(field, threshold, two[..1]);
    assert Landings(field, threshold, two) == 1 && Departures(field, threshold, two) == 0;
  }

  /** The two directions never fire together. */
  lemma DirectionsExclude(field: string, threshold: real, ticks: seq<Context>, i: nat)
    requires i < |ticks|
    ensures !(Fires("above", field, threshold, ticks, i) && Fires("below", field, threshold, ticks, i))
  {
  }

  /** Between two firings upwards some tick is back at or below the threshold; between two downwards, at or
      above it. */
  lemma FiringsNeedReturn(direction: string, field: string, threshold: real, ticks: seq<Context>, i: nat, j: nat)
    requires i < j < |ticks| && Present(field, ticks) && direction in {"above", "below"}
    requires Fires(direction, field, threshold, ticks, i) && Fires(direction, field, threshold, ticks, j)
    ensures i < j - 1
    ensures if direction == "above" then ticks[j - 1][field] <= threshold else ticks[j - 1][field] >= threshold
  {
    assert if direction == "above" then ticks[i][field] > threshold else ticks[i][field] < threshold;
  }

  function Opposite(direction: string): string { if direction == "above" then "below" else "above" }

  /** With no tick on the threshold the firings alternate: one of the other direction lies between any two of
      the same. */
  lemma {:induction false} FiringsAlternate(
    direction: string, field: string, threshold: real, ticks: seq<Context>, i: nat, j: nat) returns (k: nat)
    requires i < j < |ticks| && Present(field, ticks) && NeverEquals(field, threshold, ticks)
    requires direction in {"above", "below"}
    requires Fires(direction, field, threshold, ticks, i) && Fires(direction, field, threshold, ticks, j)
    ensures i < k < j && Fires(Opposite(direction), field, threshold, ticks, k)
  {
    FiringsNeedReturn(direction, field, threshold, ticks, i, j);
    var up := direction == "above";
    k := i + 1;
    while up == (ticks[k][field] > threshold)
      invariant i < k < j && up == (ticks[k - 1][field] > threshold)
      decreases j - k
    {
      assert k != j - 1;
      k := k + 1;
    }
  }
}
