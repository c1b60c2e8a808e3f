/**
 Technical indicators over a series of closes (src/trading_strands/ta_snapshot/indicators.py).

 The functions give the textbook definitions, by recursion on the series; the methods are the loops of
 the program, proved to compute them.  Arithmetic is exact.
 */
module Indicators {
  import opened Prelude

  function Itself(x: real): real { x }

  /** The sum of `f` over the series, divided by `n`. */
  function Mean(f: real -> real, xs: seq<real>, n: int): real
    requires n != 0
  {
    Total(f, xs) / n as real
  }

  /** The mean of the last `period` closes. */
  function Sma(closes: seq<real>, period: int): Option<real> {
    if |closes| < period || period <= 0 then None
    else Some(Mean(Itself, closes[|closes| - period..], period))
  }

  /** The smoothing factor 2 / (period + 1). */
  function Alpha(period: int): (a: real)
    requires period != -1
    ensures period > 0 ==> 0.0 < a <= 1.0
  {
    2.0 / (period as real + 1.0)
  }

  function Blend(alpha: real, x: real, previous: real): real {
    alpha * x + (1.0 - alpha) * previous
  }

  /** The EMA of a series: the mean of its first `period` closes, then one blend per further close. */
  function EmaAt(closes: seq<real>, period: int): real
    requires 0 < period <= |closes|
  {
    if |closes| == period then Mean(Itself, closes, period)
    else Blend(Alpha(period), closes[|closes| - 1], EmaAt(closes[..|closes| - 1], period))
  }

  function Ema(closes: seq<real>, period: int): Option<real> {
    if |closes| < period || period <= 0 then None else Some(EmaAt(closes, period))
  }

  method ComputeEma(closes: seq<real>, period: int) returns (r: Option<real>)
    ensures r == Ema(closes, period)
  {
    if |closes| < period || period <= 0 {
      return None;
    }
    var alpha := Alpha(period);
    var ema := Mean(Itself, closes[..period], period);
    var i := period;
    while i < |closes|
      invariant period <= i <= |closes|
      invariant ema == EmaAt(closes[..i], period)
    {
      ema := Blend(alpha, closes[i], ema);
      assert closes[..i + 1][..i] == closes[..i];
      i := i + 1;
    }
    assert closes[..i] == closes;
    r := Some(ema);
  }

  // ---------- MACD ----------

  datatype Macd = Macd(macd: real, signal: real, histogram: real)

  /** The MACD line: for every prefix longer than `slow`, its fast EMA minus its slow EMA. */
  function MacdSeries(closes: seq<real>, fast: int, slow: int): (line: seq<real>)
    requires 0 < fast <= slow <= |closes|
    ensures |line| == |closes| - slow
  {
    seq(|closes| - slow, i requires 0 <= i < |closes| - slow =>
      EmaAt(closes[..slow + i + 1], fast) - EmaAt(closes[..slow + i + 1], slow))
  }

  function MacdOf(line: seq<real>, signalPeriod: int): Macd
    requires 0 < signalPeriod <= |line|
  {
    var last, sig := line[|line| - 1], EmaAt(line, signalPeriod);
    Macd(last, sig, last - sig)
  }

  function MacdSpec(closes: seq<real>, fast: int, slow: int, signalPeriod: int): Option<Macd>
    requires 0 < fast <= slow && 0 < signalPeriod
  {
    if |closes| < slow + signalPeriod then None
    else Some(MacdOf(MacdSeries(closes, fast, slow), signalPeriod))
  }

  /** Where Python puts an index into a list of length `n`: negative ones count from the end, and both ends
      are clipped. */
  function Place(k: int, n: nat): (i: nat)
    ensures i <= n
  {
    if k >= 0 then if k < n then k else n else if n + k > 0 then n + k else 0
  }

  /** `xs[a:b]`. */
  function Slice(xs: seq<real>, a: int, b: int): seq<real> {
    var i, j := Place(a, |xs|), Place(b, |xs|);
    if i <= j then xs[i..j] else []
  }

  lemma SliceMeans(xs: seq<real>, a: nat, b: nat)
    requires a <= b
    ensures Slice(xs, b, a) == []
    ensures b <= |xs| ==> Slice(xs, a, b) == xs[a..b]
    ensures a <= |xs| <= b ==> Slice(xs, a, b) == xs[a..]
  {
  }

  /** Blending `xs` into `seed`, one after the other. */
  function Blends(alpha: real, seed: real, xs: seq<real>): real {
    if |xs| == 0 then seed else Blend(alpha, xs[|xs| - 1], Blends(alpha, seed, xs[..|xs| - 1]))
  }

  lemma {:induction false} BlendsConcat(alpha: real, seed: real, xs: seq<real>, ys: seq<real>)
    ensures Blends(alpha, seed, xs + ys) == Blends(alpha, Blends(alpha, seed, xs), ys)
  {
    hide Blend;
    if |ys| == 0 {
      assert xs + ys == xs;
    } else {
      assert (xs + ys)[..|xs + ys| - 1] == xs + ys[..|ys| - 1];
      BlendsConcat(alpha, seed, xs, ys[..|ys| - 1]);
    }
  }

  /** What the single pass starts its two averages from: sums over slices, divided by the periods, the fast
      one caught up to the slow one. */
  function FastSeed(closes: seq<real>, fast: int, slow: int): real
    requires fast != 0 && fast != -1
  {
    Blends(Alpha(fast), Mean(Itself, Slice(closes, 0, fast), fast), Slice(closes, fast, slow))
  }

  function SlowSeed(closes: seq<real>, slow: int): real
    requires slow != 0
  {
    Mean(Itself, Slice(closes, 0, slow), slow)
  }

  /** The list the single pass builds, for any periods it can divide by. */
  function PassSeries(closes: seq<real>, fast: int, slow: int): (line: seq<real>)
    requires fast !in {0, -1} && slow !in {0, -1}
    ensures |line| == |Slice(closes, slow, |closes|)|
    ensures 0 < slow <= |closes| ==> |line| == |closes| - slow
  {
    var rest := Slice(closes, slow, |closes|);
    seq(|rest|, i requires 0 <= i < |rest| =>
      Blends(Alpha(fast), FastSeed(closes, fast, slow), rest[..i + 1])
      - Blends(Alpha(slow), SlowSeed(closes, slow), rest[..i + 1]))
  }

  lemma {:induction false} BlendsIsEma(closes: seq<real>, period: int, end: nat)
    requires 0 < period <= end <= |closes|
    ensures Blends(Alpha(period), Mean(Itself, closes[..period], period), closes[period..end])
            == EmaAt(closes[..end], period)
    decreases end
  {
    hide Blend, Mean, Alpha;
    if end > period {
      assert closes[..end][..end - 1] == closes[..end - 1];
      assert closes[period..end][..end - 1 - period] == closes[period..end - 1];
      BlendsIsEma(closes, period, end - 1);
    }
  }

  /** With positive periods every entry subtracts an exact slow EMA. */
  lemma {:induction false} PassEntry(closes: seq<real>, fast: int, slow: int, i: nat)
    requires 0 < fast && 0 < slow && i < |closes| - slow
    ensures PassSeries(closes, fast, slow)[i]
            == Blends(Alpha(fast), FastSeed(closes, fast, slow), closes[slow..slow + i + 1])
               - EmaAt(closes[..slow + i + 1], slow)
  {
    SeedOfSlow(closes, slow);
    hide SlowSeed, FastSeed, Blends, Alpha, EmaAt, Slice;
    SliceMeans(closes, slow, |closes|);
    BlendsIsEma(closes, slow, slow + i + 1);
    assert closes[slow..][..i + 1] == closes[slow..slow + i + 1];
  }

  lemma SeedOfSlow(closes: seq<real>, slow: int)
    requires 0 < slow <= |closes|
    ensures SlowSeed(closes, slow) == Mean(Itself, closes[..slow], slow)
  {
    hide Mean, Slice;
    SliceMeans(closes, 0, slow);
    assert closes[0..slow] == closes[..slow];
  }

  lemma {:induction false} FastIsEma(closes: seq<real>, fast: int, slow: int, end: nat)
    requires 0 < fast <= slow <= end <= |closes|
    ensures Blends(Alpha(fast), FastSeed(closes, fast, slow), closes[slow..end]) == EmaAt(closes[..end], fast)
  {
    SliceMeans(closes, fast, slow);
    SliceMeans(closes, 0, fast);
    hide Blend, Mean, Alpha, EmaAt, Blends, Slice;
    assert closes[0..fast] == closes[..fast];
    BlendsConcat(Alpha(fast), Mean(Itself, closes[..fast], fast), closes[fast..slow], closes[slow..end]);
    assert closes[fast..slow] + closes[slow..end] == closes[fast..end];
    BlendsIsEma(closes, fast, end);
  }

  /** With the fast period no longer than the slow one, the single pass keeps exact EMAs. */
  lemma {:induction false} PassIsMacdSeries(closes: seq<real>, fast: int, slow: int)
    requires 0 < fast <= slow <= |closes|
    ensures PassSeries(closes, fast, slow) == MacdSeries(closes, fast, slow)
  {
    hide EmaAt, Blends, FastSeed, PassSeries;
    forall i | 0 <= i < |closes| - slow
      ensures PassSeries(closes, fast, slow)[i] == MacdSeries(closes, fast, slow)[i]
    {
      PassEntry(closes, fast, slow, i);
      FastIsEma(closes, fast, slow, slow + i + 1);
    }
  }

  /** How the program fails: a period to divide by is zero, or minus one, or there is no last entry to take. */
  datatype MacdError = DividesByZero | NoEntries

  /** The last entry of the list and its signal line, for any signal period. */
  function SignalOf(line: seq<real>, signalPeriod: int): Result<Option<Macd>, MacdError> {
    if |line| < signalPeriod then Ok(None)
    else if signalPeriod in {0, -1} then Err(DividesByZero)
    else if |line| == 0 then Err(NoEntries)
    else
      var seed := Mean(Itself, Slice(line, 0, signalPeriod), signalPeriod);
      var sig := Blends(Alpha(signalPeriod), seed, Slice(line, signalPeriod, |line|));
      Ok(Some(Macd(line[|line| - 1], sig, line[|line| - 1] - sig)))
  }

  /** `compute_macd` on any arguments. */
  function MacdOrError(closes: seq<real>, fast: int, slow: int, signalPeriod: int)
    : Result<Option<Macd>, MacdError>
  {
    if |closes| < slow + signalPeriod then Ok(None)
    else if fast in {0, -1} || slow in {0, -1} then Err(DividesByZero)
    else SignalOf(PassSeries(closes, fast, slow), signalPeriod)
  }

  lemma {:induction false} SignalIsMacd(line: seq<real>, signalPeriod: int)
    requires 0 < signalPeriod <= |line|
    ensures SignalOf(line, signalPeriod) == Ok(Some(MacdOf(line, signalPeriod)))
  {
    SliceMeans(line, 0, signalPeriod);
    SliceMeans(line, signalPeriod, |line|);
    hide Blend, Mean, Alpha, Slice, Blends, EmaAt;
    BlendsIsEma(line, signalPeriod, |line|);
    assert line[..|line|] == line && line[0..signalPeriod] == line[..signalPeriod];
  }

  lemma {:induction false} PositivePeriods(closes: seq<real>, fast: int, slow: int, signalPeriod: int)
    ensures var r := MacdOrError(closes, fast, slow, signalPeriod);
            && (0 < fast && 0 < slow && 0 < signalPeriod ==>
                  && r.Ok? && (r.value.None? <==> |closes| < slow + signalPeriod)
                  && (r.value.Some? ==> r.value.value == MacdOf(PassSeries(closes, fast, slow), signalPeriod)))
            && (0 < fast <= slow && 0 < signalPeriod ==> r == Ok(MacdSpec(closes, fast, slow, signalPeriod)))
  {
    hide PassSeries, SignalOf, MacdOf, Slice;
    if 0 < fast && 0 < slow && 0 < signalPeriod && |closes| >= slow + signalPeriod {
      SignalIsMacd(PassSeries(closes, fast, slow), signalPeriod);
      if fast <= slow {
        PassIsMacdSeries(closes, fast, slow);
      }
    }
  }

  method BlendAll(alpha: real, seed: real, xs: seq<real>) returns (average: real)
    ensures average == Blends(alpha, seed, xs)
  {
    average := seed;
    var i := 0;
    while i < |xs|
      invariant i <= |xs|
      invariant average == Blends(alpha, seed, xs[..i])
    {
      average := Blend(alpha, xs[i], average);
      assert xs[..i + 1][..i] == xs[..i];
      i := i + 1;
    }
    assert xs[..i] == xs;
  }

  /** The walk over the closes that keeps both averages in step and builds the list. */
  method WalkCloses(closes: seq<real>, fast: int, slow: int) returns (macdSeries: seq<real>)
    requires fast !in {0, -1} && slow !in {0, -1}
    ensures macdSeries == PassSeries(closes, fast, slow)
  {
    hide Blend, Mean, Alpha, Slice;
    var alphaFast, alphaSlow := Alpha(fast), Alpha(slow);
    var emaFast := Mean(Itself, Slice(closes, 0, fast), fast);
    var emaSlow := Mean(Itself, Slice(closes, 0, slow), slow);
    emaFast := BlendAll(alphaFast, emaFast, Slice(closes, fast, slow));
    macdSeries := [];
    var rest := Slice(closes, slow, |closes|);
    var i := 0;
    while i < |rest|
      invariant i <= |rest|
      invariant emaFast == Blends(alphaFast, FastSeed(closes, fast, slow), rest[..i])
      invariant emaSlow == Blends(alphaSlow, SlowSeed(closes, slow), rest[..i])
      invariant macdSeries == PassSeries(closes, fast, slow)[..i]
    {
      emaFast := Blend(alphaFast, rest[i], emaFast);
      emaSlow := Blend(alphaSlow, rest[i], emaSlow);
      assert rest[..i + 1][..i] == rest[..i];
      macdSeries := macdSeries + [emaFast - emaSlow];
      i := i + 1;
    }
  }

  /** The single pass, on any arguments.  With positive periods it raises nothing, `None` means too few closes
      (the second length guard of the program cannot fire), and with the fast period no longer than the slow
      one it is the textbook MACD. */
  method ComputeMacd(closes: seq<real>, fast: int, slow: int, signalPeriod: int)
    returns (r: Result<Option<Macd>, MacdError>)
    ensures r == MacdOrError(closes, fast, slow, signalPeriod)
    ensures 0 < fast && 0 < slow && 0 < signalPeriod ==>
              && r.Ok? && (r.value.None? <==> |closes| < slow + signalPeriod)
              && (r.value.Some? ==> r.value.value == MacdOf(PassSeries(closes, fast, slow), signalPeriod))
    ensures 0 < fast <= slow && 0 < signalPeriod ==> r == Ok(MacdSpec(closes, fast, slow, signalPeriod))
  {
    PositivePeriods(closes, fast, slow, signalPeriod);
    hide Blend, Mean, Alpha, Slice, EmaAt, Blends, PassSeries, MacdSeries;
    if |closes| < slow + signalPeriod {
      return Ok(None);
    }
    if fast == -1 || slow == -1 || fast == 0 || slow == 0 {
      return Err(DividesByZero);
    }
    var line := WalkCloses(closes, fast, slow);
    if |line| < signalPeriod {
      return Ok(None);
    }
    if signalPeriod == -1 || signalPeriod == 0 {
      return Err(DividesByZero);
    }
    var sig := Mean(Itself, Slice(line, 0, signalPeriod), signalPeriod);
    sig := BlendAll(Alpha(signalPeriod), sig, Slice(line, signalPeriod, |line|));
    if |line| == 0 {
      return Err(NoEntries);
    }
    var macd := line[|line| - 1];
    r := Ok(Some(Macd(macd, sig, macd - sig)));
  }

  /** One close of one at index `at`, all others zero. */
  function Spike(at: nat, length: nat): seq<real> {
    seq(length, i requires 0 <= i < length => if i == at then 1.0 else 0.0)
  }

  /** Where the textbook fast EMA is defined, the single pass computes it at every entry of every series
      exactly when `fast <= slow`: otherwise its fast average starts from a mean over closes of which it then
      blends in the last ones again. */
  lemma {:induction false} PassIsExactIffFastNotSlower(fast: int, slow: int, signalPeriod: int)
    requires 0 < fast && 0 < slow && 0 < signalPeriod
    ensures fast <= slow <==>
            forall closes: seq<real>, i: nat ::
              |closes| >= slow + signalPeriod && i < |closes| - slow && fast <= slow + i + 1 ==>
                EmaAt(closes[..slow + i + 1], fast)
                == PassSeries(closes, fast, slow)[i] + EmaAt(closes[..slow + i + 1], slow)
  {
    if fast <= slow {
      forall closes: seq<real>, i: nat | |closes| >= slow + signalPeriod && i < |closes| - slow
        ensures EmaAt(closes[..slow + i + 1], fast)
                == PassSeries(closes, fast, slow)[i] + EmaAt(closes[..slow + i + 1], slow)
      {
        PassIsMacdSeries(closes, fast, slow);
      }
    } else {
      var closes := Spike(fast - 1, fast + slow + signalPeriod);
      var i: nat := fast - slow - 1;
      SpikeBreaksPass(closes, fast, slow);
      assert |closes| >= slow + signalPeriod && i < |closes| - slow && fast <= slow + i + 1;
    }
  }

  /** At the first entry where the fast EMA is defined it is the mean of the closes so far, but the pass has
      blended the last of them in once more. */
  lemma {:induction false} SpikeBreaksPass(closes: seq<real>, fast: int, slow: int)
    requires 0 < slow < fast <= |closes| && closes == Spike(fast - 1, |closes|)
    ensures var p := closes[..fast];
            EmaAt(p, fast) != PassSeries(closes, fast, slow)[fast - slow - 1] + EmaAt(p, slow)
  {
    hide PassSeries, Blend, Blends, Alpha, FastSeed, Spike, EmaAt;
    SpikeMean(closes, fast, slow);
    PassAtSpike(closes, fast, slow);
    var before := Blends(Alpha(fast), FastSeed(closes, fast, slow), closes[slow..fast - 1]);
    AlphaAboveMean(fast);
    BlendsNonNegative(Alpha(fast), FastSeed(closes, fast, slow), closes[slow..fast - 1]);
    BlendAtLeast(Alpha(fast), before);
  }

  lemma {:induction false} PassAtSpike(closes: seq<real>, fast: int, slow: int)
    requires 0 < slow < fast <= |closes| && closes[fast - 1] == 1.0
    ensures PassSeries(closes, fast, slow)[fast - slow - 1] + EmaAt(closes[..fast], slow)
            == Blend(Alpha(fast), 1.0, Blends(Alpha(fast), FastSeed(closes, fast, slow), closes[slow..fast - 1]))
  {
    hide PassSeries, Blend, Alpha, FastSeed, EmaAt;
    var i: nat, mid := fast - slow - 1, closes[slow..fast - 1];
    PassEntry(closes, fast, slow, i);
    assert closes[slow..slow + i + 1] == mid + [1.0] && (mid + [1.0])[..|mid|] == mid;
    assert slow + i + 1 == fast;
  }

  ghost predicate AllZero(xs: seq<real>) { forall i :: 0 <= i < |xs| ==> xs[i] == 0.0 }

  lemma {:induction false} SpikeMean(closes: seq<real>, fast: int, slow: int)
    requires 0 < slow < fast <= |closes| && closes == Spike(fast - 1, |closes|)
    ensures EmaAt(closes[..fast], fast) == 1.0 / fast as real == FastSeed(closes, fast, slow)
    ensures closes[fast - 1] == 1.0 && AllZero(closes[slow..fast - 1])
  {
    hide Alpha, Blend;
    var p := closes[..fast];
    assert p[..fast - 1] == closes[..fast - 1];
    TotalZero(Itself, p[..fast - 1]);
    assert Total(Itself, p) == 1.0;
    assert Mean(Itself, p, fast) == 1.0 / fast as real;
    hide Spike, Total, Mean;
    SliceMeans(closes, slow, fast);
    SliceMeans(closes, 0, fast);
    hide Slice;
    assert closes[0..fast] == p && Slice(closes, fast, slow) == [];
    assert EmaAt(p, fast) == Mean(Itself, p, fast) == FastSeed(closes, fast, slow);
  }

  lemma {:induction false} BlendsNonNegative(alpha: real, seed: real, xs: seq<real>)
    requires 0.0 <= alpha <= 1.0 && seed >= 0.0 && AllZero(xs)
    ensures Blends(alpha, seed, xs) >= 0.0
  {
    if |xs| > 0 {
      var n := |xs| - 1;
      BlendsNonNegative(alpha, seed, xs[..n]);
      MultiplyMonotone(1.0 - alpha, 0.0, Blends(alpha, seed, xs[..n]));
      assert xs[n] == 0.0 && alpha * 0.0 == 0.0;
    }
  }

  lemma BlendAtLeast(alpha: real, previous: real)
    requires 0.0 <= alpha <= 1.0 && previous >= 0.0
    ensures Blend(alpha, 1.0, previous) >= alpha
  {
    MultiplyMonotone(1.0 - alpha, 0.0, previous);
  }

  lemma AlphaAboveMean(period: int)
    requires period > 1
    ensures 0.0 < 1.0 / period as real < Alpha(period) <= 1.0
  {
    var p := period as real;
    assert 1.0 / p * p == 1.0;
    assert Alpha(period) * (p + 1.0) == 2.0;
    if Alpha(period) <= 1.0 / p {
      MultiplyMonotone(p, Alpha(period), 1.0 / p);
      assert false;
    }
  }

  // ---------- How the averages respond to the series ----------

  function Affine(xs: seq<real>, scale: real, shift: real): (ys: seq<real>)
    ensures |ys| == |xs|
    ensures forall i :: 0 <= i < |xs| ==> ys[i] == scale * xs[i] + shift
  {
    seq(|xs|, i requires 0 <= i < |xs| => scale * xs[i] + shift)
  }

  lemma {:induction false} AffinePrefix(xs: seq<real>, scale: real, shift: real, k: nat)
    requires k <= |xs|
    ensures Affine(xs, scale, shift)[..k] == Affine(xs[..k], scale, shift)
  {
    assert forall i :: 0 <= i < k ==> Affine(xs, scale, shift)[i] == Affine(xs[..k], scale, shift)[i];
  }

  lemma {:induction false} SumAffine(xs: seq<real>, scale: real, shift: real)
    ensures Total(Itself, Affine(xs, scale, shift)) == scale * Total(Itself, xs) + shift * |xs| as real
  {
    if |xs| > 0 {
      var n, ys := |xs| - 1, Affine(xs, scale, shift);
      AffinePrefix(xs, scale, shift, n);
      SumAffine(xs[..n], scale, shift);
      var sum := Total(Itself, xs[..n]);
      assert Total(Itself, ys) == Total(Itself, ys[..n]) + ys[n];
      assert Total(Itself, xs) == sum + xs[n];
      hide Total, Affine;
      Distribute(scale, sum, xs[n]);
      Distribute(shift, n as real, 1.0);
    }
  }

  lemma MeanAffine(xs: seq<real>, scale: real, shift: real)
    requires |xs| > 0
    ensures Mean(Itself, Affine(xs, scale, shift), |xs|) == scale * Mean(Itself, xs, |xs|) + shift
  {
    hide Total;
    SumAffine(xs, scale, shift);
    var p := |xs| as real;
    DivideSum(scale * Total(Itself, xs), shift * p, p);
    DivideProduct(scale, Total(Itself, xs), p);
  }

  /** The simple average follows any affine change of the series, and an EMA of just enough closes is one. */
  lemma {:induction false} SmaAffine(closes: seq<real>, period: int, scale: real, shift: real)
    ensures match (Sma(closes, period), Sma(Affine(closes, scale, shift), period))
            case (None, None) => true
            case (Some(m), Some(m')) => m' == scale * m + shift
            case _ => false
    ensures Sma(closes, |closes|) == Ema(closes, |closes|)
  {
    hide Mean;
    if 0 < period <= |closes| {
      var k := |closes| - period;
      var last, moved := closes[k..], Affine(closes, scale, shift)[k..];
      MeanAffine(last, scale, shift);
      forall i | 0 <= i < period
        ensures moved[i] == Affine(last, scale, shift)[i]
      {
        assert last[i] == closes[k + i];
      }
      assert moved == Affine(last, scale, shift);
    }
    assert closes[|closes| - |closes|..] == closes;
  }

  lemma BlendAffine(
    alpha: real, x: real, y: real, x': real, y': real, scale: real, shift: real)
    requires x' == scale * x + shift && y' == scale * y + shift
    ensures Blend(alpha, x', y') == scale * Blend(alpha, x, y) + shift
  {
  }

  /** The EMA of an affine image is the affine image of the EMA. */
  lemma {:induction false} EmaAffine(xs: seq<real>, period: int, scale: real, shift: real)
    requires 0 < period <= |xs|
    ensures EmaAt(Affine(xs, scale, shift), period) == scale * EmaAt(xs, period) + shift
    decreases |xs|
  {
    hide Blend, Mean, Alpha, Affine;
    var ys := Affine(xs, scale, shift);
    if |xs| == period {
      MeanAffine(xs, scale, shift);
    } else {
      var n := |xs| - 1;
      AffinePrefix(xs, scale, shift, n);
      EmaAffine(xs[..n], period, scale, shift);
      var e := EmaAt(xs[..n], period);
      BlendAffine(Alpha(period), xs[n], e, ys[n], EmaAt(ys[..n], period), scale, shift);
      assert EmaAt(ys, period) == Blend(Alpha(period), ys[n], EmaAt(ys[..n], period));
    }
  }

  /** An EMA stays within the range of its closes. */
  lemma {:induction false} EmaWithinRange(xs: seq<real>, period: int, low: real, high: real)
    requires 0 < period <= |xs|
    requires forall i :: 0 <= i < |xs| ==> low <= xs[i] <= high
    ensures low <= EmaAt(xs, period) <= high
    decreases |xs|
  {
    hide Blend, Mean, Alpha;
    if |xs| == period {
      MeanWithinRange(xs, low, high);
    } else {
      var n := |xs| - 1;
      EmaWithinRange(xs[..n], period, low, high);
      BlendWithinRange(Alpha(period), xs[n], EmaAt(xs[..n], period), low, high);
    }
  }

  lemma MeanWithinRange(xs: seq<real>, low: real, high: real)
    requires |xs| > 0
    requires forall i :: 0 <= i < |xs| ==> low <= xs[i] <= high
    ensures low <= Mean(Itself, xs, |xs|) <= high
  {
    hide Total;
    SumWithinRange(xs, low, high);
    var p := |xs| as real;
    DivideMonotone(low * p, Total(Itself, xs), p);
    DivideMonotone(Total(Itself, xs), high * p, p);
  }

  lemma DivideMonotone(a: real, b: real, c: real)
    requires a <= b && c > 0.0
    ensures a / c <= b / c
  {
    DivideSum(a, b - a, c);
    DivideNonNegative(b - a, c);
  }

  lemma {:induction false} SumWithinRange(xs: seq<real>, low: real, high: real)
    requires forall i :: 0 <= i < |xs| ==> low <= xs[i] <= high
    ensures low * |xs| as real <= Total(Itself, xs) <= high * |xs| as real
  {
    if |xs| > 0 {
      var n := |xs| - 1;
      SumWithinRange(xs[..n], low, high);
      Distribute(low, n as real, 1.0);
      Distribute(high, n as real, 1.0);
    }
  }

  lemma BlendWithinRange(alpha: real, x: real, y: real, low: real, high: real)
    requires 0.0 < alpha <= 1.0 && low <= x <= high && low <= y <= high
    ensures low <= Blend(alpha, x, y) <= high
  {
    var d := if x >= y then x - y else y - x;
    MultiplyMonotone(d, 0.0, alpha);
    MultiplyMonotone(d, alpha, 1.0);
    assert alpha * (x - y) == if x >= y then d * alpha else -(d * alpha);
    assert Blend(alpha, x, y) == y + alpha * (x - y);
  }

  // ---------- What the averages are on a straight line ----------

  function RampAt(a: real, b: real, i: int): real { a + b * i as real }

  lemma RampNext(a: real, b: real, i: int)
    ensures RampAt(a, b, i) - b == RampAt(a, b, i - 1)
  {
    Distribute(b, (i - 1) as real, 1.0);
  }

  /** Closes that start at `a` and rise by `b` each. */
  function Ramp(a: real, b: real, n: nat): (xs: seq<real>)
    ensures |xs| == n && forall i :: 0 <= i < n ==> xs[i] == RampAt(a, b, i)
  {
    seq(n, i requires 0 <= i < n => RampAt(a, b, i))
  }

  /** How far an average over `period` closes lags behind a ramp. */
  function Lag(b: real, period: int): real { b * (period - 1) as real / 2.0 }

  lemma {:induction false} RampSum(a: real, b: real, n: nat)
    ensures Total(Itself, Ramp(a, b, n)) == n as real * a + b * (n * (n - 1)) as real / 2.0
  {
    if n > 0 {
      assert Ramp(a, b, n)[..n - 1] == Ramp(a, b, n - 1);
      RampSum(a, b, n - 1);
      assert ((n - 1) * (n - 2)) as real / 2.0 + (n - 1) as real == (n * (n - 1)) as real / 2.0;
      Distribute(b, ((n - 1) * (n - 2)) as real / 2.0, (n - 1) as real);
    }
  }

  lemma {:induction false} RampMean(a: real, b: real, n: nat)
    requires n > 0
    ensures Mean(Itself, Ramp(a, b, n), n) == RampAt(a, b, n - 1) - Lag(b, n)
  {
    RampSum(a, b, n);
    var m, k := n as real, (n - 1) as real;
    assert (n * (n - 1)) as real == m * k;
    RampAlgebra(a, b, m, k);
  }

  lemma RampAlgebra(a: real, b: real, m: real, k: real)
    requires m != 0.0
    ensures (m * a + b * (m * k) / 2.0) / m == a + b * k - b * k / 2.0
  {
    assert b * (m * k) == m * (b * k);
    Distribute(m, a, b * k / 2.0);
    Cancel(m, a + b * k / 2.0);
  }

  lemma Cancel(m: real, x: real)
    requires m != 0.0
    ensures m * x / m == x
  {
  }

  /** The factor 2 / (period + 1), as an equation. */
  lemma AlphaIsTwoOverPeriodPlusOne(period: int)
    requires period > 0
    ensures Alpha(period) * (period + 1) as real == 2.0
  {
  }

  lemma BlendKeepsLag(x: real, b: real, period: int)
    requires period > 0
    ensures Blend(Alpha(period), x, x - b - Lag(b, period)) == x - Lag(b, period)
  {
    var alpha, p := Alpha(period), period as real;
    AlphaIsTwoOverPeriodPlusOne(period);
    hide Alpha;
    var gap := b + Lag(b, period);
    assert Blend(alpha, x, x - gap) == x - (1.0 - alpha) * gap;
    assert gap == b * ((p + 1.0) / 2.0);
    assert alpha * gap == b * (alpha * (p + 1.0) / 2.0) == b;
  }

  /** The ramp law, which fixes the smoothing factor: on a straight line an EMA lags by half its period less
      one. */
  lemma {:induction false} EmaOfRamp(a: real, b: real, n: nat, period: int)
    requires 0 < period <= n
    ensures EmaAt(Ramp(a, b, n), period) == RampAt(a, b, n - 1) - Lag(b, period)
    decreases n
  {
    hide Blend, Mean, Alpha, Lag, RampAt;
    if n == period {
      RampMean(a, b, n);
    } else {
      var xs := Ramp(a, b, n);
      assert xs[..n - 1] == Ramp(a, b, n - 1);
      EmaOfRamp(a, b, n - 1, period);
      RampNext(a, b, n - 1);
      BlendKeepsLag(RampAt(a, b, n - 1), b, period);
      assert EmaAt(xs, period) == Blend(Alpha(period), xs[n - 1], EmaAt(xs[..n - 1], period));
    }
  }

  /** A simple average lags by as much. */
  lemma {:induction false} SmaOfRamp(a: real, b: real, n: nat, period: int)
    requires 0 < period <= n
    ensures Sma(Ramp(a, b, n), period).Some?
    ensures Sma(Ramp(a, b, n), period).value == RampAt(a, b, n - 1) - Lag(b, period)
  {
    hide Mean, Lag;
    var k, from := n - period, a + b * (n - period) as real;
    var last, ramp := Ramp(a, b, n)[k..], Ramp(from, b, period);
    forall i | 0 <= i < period
      ensures last[i] == ramp[i]
    {
      Distribute(b, k as real, i as real);
      assert last[i] == a + b * (k + i) as real;
    }
    assert last == ramp;
    RampMean(from, b, period);
    Distribute(b, k as real, (period - 1) as real);
  }

  /** MACD in terms of EMAs: the line ends in the fast EMA of all closes less the slow one, and is its signal
      plus the histogram. */
  lemma {:induction false} MacdMeans(closes: seq<real>, fast: int, slow: int, signalPeriod: int)
    requires 0 < fast <= slow && 0 < signalPeriod && |closes| >= slow + signalPeriod
    ensures var m := MacdSpec(closes, fast, slow, signalPeriod);
            && m.Some?
            && m.value.macd == EmaAt(closes, fast) - EmaAt(closes, slow)
            && m.value.signal == EmaAt(MacdSeries(closes, fast, slow), signalPeriod)
            && m.value.macd == m.value.signal + m.value.histogram
  {
    hide EmaAt;
    assert closes[..|closes|] == closes;
  }

  /** On a straight line MACD and its signal are both half the difference of the periods, times the slope. */
  lemma {:induction false} MacdOfRamp(a: real, b: real, n: nat, fast: int, slow: int, signalPeriod: int)
    requires 0 < fast <= slow && 0 < signalPeriod && n >= slow + signalPeriod
    ensures var m := MacdSpec(Ramp(a, b, n), fast, slow, signalPeriod);
            && m.Some?
            && m.value.macd == m.value.signal == b * (slow - fast) as real / 2.0
            && m.value.histogram == 0.0
  {
    hide EmaAt, Lag, RampAt;
    var closes, level := Ramp(a, b, n), Lag(b, slow) - Lag(b, fast);
    var line := MacdSeries(closes, fast, slow);
    forall i | 0 <= i < |line|
      ensures line[i] == level
    {
      assert closes[..slow + i + 1] == Ramp(a, b, slow + i + 1);
      EmaOfRamp(a, b, slow + i + 1, fast);
      EmaOfRamp(a, b, slow + i + 1, slow);
      var here := RampAt(a, b, slow + i);
      assert line[i] == (here - Lag(b, fast)) - (here - Lag(b, slow));
    }
    EmaWithinRange(line, signalPeriod, level, level);
    LagDifference(b, fast, slow);
  }

  lemma LagDifference(b: real, fast: int, slow: int)
    ensures Lag(b, slow) - Lag(b, fast) == b * (slow - fast) as real / 2.0
  {
    Distribute(b, (slow - 1) as real, -((fast - 1) as real));
  }

  /** The MACD triple ignores a constant added to all closes and scales with them. */
  lemma {:induction false} MacdAffine(
    closes: seq<real>, fast: int, slow: int, signalPeriod: int, scale: real, shift: real)
    requires 0 < fast <= slow && 0 < signalPeriod
    ensures match (MacdSpec(closes, fast, slow, signalPeriod),
                   MacdSpec(Affine(closes, scale, shift), fast, slow, signalPeriod))
            case (None, None) => true
            case (Some(m), Some(m')) =>
              && m'.macd == scale * m.macd
              && m'.signal == scale * m.signal
              && m'.histogram == scale * m.histogram
            case _ => false
  {
    hide EmaAt, Affine;
    var ys := Affine(closes, scale, shift);
    if |closes| >= slow + signalPeriod {
      var line, moved := MacdSeries(closes, fast, slow), MacdSeries(ys, fast, slow);
      var scaled := Affine(line, scale, 0.0);
      forall i | 0 <= i < |line|
        ensures moved[i] == scaled[i]
      {
        var p := closes[..slow + i + 1];
        AffinePrefix(closes, scale, shift, slow + i + 1);
        EmaAffine(p, fast, scale, shift);
        EmaAffine(p, slow, scale, shift);
        Distribute(scale, EmaAt(p, fast), -EmaAt(p, slow));
        assert line[i] == EmaAt(p, fast) + -EmaAt(p, slow);
        assert ys[..slow + i + 1] == Affine(p, scale, shift);
      }
      assert moved == scaled;
      EmaAffine(line, signalPeriod, scale, 0.0);
      var last, sig := line[|line| - 1], EmaAt(line, signalPeriod);
      Distribute(scale, last, -sig);
      assert MacdOf(line, signalPeriod) == Macd(last, sig, last - sig);
      var last', sig' := moved[|line| - 1], EmaAt(moved, signalPeriod);
      assert MacdOf(moved, signalPeriod) == Macd(last', sig', last' - sig');
    }
  }

  // ---------- RSI ----------

  function Gain(d: real): real { if d > 0.0 then d else 0.0 }

  function Loss(d: real): real { if d < 0.0 then -d else 0.0 }

  function Diffs(closes: seq<real>): (ds: seq<real>)
    requires |closes| > 0
    ensures |ds| == |closes| - 1
  {
    seq(|closes| - 1, i requires 0 <= i < |closes| - 1 => closes[i + 1] - closes[i])
  }

  function Smooth(average: real, x: real, period: int): real
    requires period > 0
  {
    (average * (period - 1) as real + x) / period as real
  }

  /** Wilder's average of `f` over the differences: a plain mean of the first `period`, then smoothed. */
  function Wilder(f: real -> real, ds: seq<real>, period: int): real
    requires 0 < period <= |ds|
  {
    if |ds| == period then Mean(f, ds, period)
    else Smooth(Wilder(f, ds[..|ds| - 1], period), f(ds[|ds| - 1]), period)
  }

  function RsiOf(gain: real, loss: real): real
    requires gain >= 0.0 && loss >= 0.0
  {
    if loss == 0.0 && gain == 0.0 then 50.0
    else if loss == 0.0 then 100.0
    else if gain == 0.0 then 0.0
    else
      DivideNonNegative(gain, loss);
      100.0 - 100.0 / (1.0 + gain / loss)
  }

  function Rsi(closes: seq<real>, period: int): Option<real> {
    if |closes| < period + 1 || period <= 0 then None
    else
      var ds := Diffs(closes);
      WilderNonNegative(Gain, ds, period);
      WilderNonNegative(Loss, ds, period);
      Some(RsiOf(Wilder(Gain, ds, period), Wilder(Loss, ds, period)))
  }

  method ComputeRsi(closes: seq<real>, period: int) returns (r: Option<real>)
    ensures r == Rsi(closes, period)
  {
    hide Mean, Smooth;
    if |closes| < period + 1 || period <= 0 {
      return None;
    }
    var ds := Diffs(closes);
    var avgGain := Mean(Gain, ds[..period], period);
    var avgLoss := Mean(Loss, ds[..period], period);
    var i := period;
    while i < |ds|
      invariant period <= i <= |ds|
      invariant avgGain == Wilder(Gain, ds[..i], period)
      invariant avgLoss == Wilder(Loss, ds[..i], period)
    {
      var gain := if ds[i] > 0.0 then ds[i] else 0.0;
      var loss := if ds[i] < 0.0 then -ds[i] else 0.0;
      assert ds[..i + 1][..i] == ds[..i];
      avgGain := Smooth(avgGain, gain, period);
      avgLoss := Smooth(avgLoss, loss, period);
      i := i + 1;
    }
    assert ds[..i] == ds;
    WilderNonNegative(Gain, ds, period);
    WilderNonNegative(Loss, ds, period);
    if avgLoss == 0.0 && avgGain == 0.0 {
      return Some(50.0);
    }
    if avgLoss == 0.0 {
      return Some(100.0);
    }
    if avgGain == 0.0 {
      return Some(0.0);
    }
    DivideNonNegative(avgGain, avgLoss);
    var rs := avgGain / avgLoss;
    r := Some(100.0 - 100.0 / (1.0 + rs));
  }

  lemma {:induction false} WilderNonNegative(f: real -> real, ds: seq<real>, period: int)
    requires 0 < period <= |ds|
    requires forall d: real :: f(d) >= 0.0
    ensures Wilder(f, ds, period) >= 0.0
    decreases |ds|
  {
    if |ds| == period {
      forall d | d in ds
        ensures f(d) >= 0.0
      {
      }
      TotalBounds(f, ds);
      DivideNonNegative(Total(f, ds), period as real);
    } else {
      WilderNonNegative(f, ds[..|ds| - 1], period);
      var w := Wilder(f, ds[..|ds| - 1], period);
      MultiplyMonotone(w, 0.0, (period - 1) as real);
      DivideNonNegative(w * (period - 1) as real + f(ds[|ds| - 1]), period as real);
    }
  }

  /** The four branches of the program are one formula: the share of gains in all movement. */
  lemma RsiIsGainShare(gain: real, loss: real)
    requires gain >= 0.0 && loss >= 0.0
    ensures gain + loss == 0.0 ==> RsiOf(gain, loss) == 50.0
    ensures gain + loss > 0.0 ==> RsiOf(gain, loss) == 100.0 * (gain / (gain + loss))
  {
    if gain > 0.0 && loss > 0.0 {
      var rs, sum := gain / loss, gain + loss;
      assert rs * loss == gain;
      assert (1.0 + rs) * loss == sum;
      assert 100.0 / (1.0 + rs) == 100.0 * (loss / sum);
      assert gain / sum + loss / sum == 1.0;
    }
  }

  /** RSI is a percentage. */
  lemma RsiInRange(closes: seq<real>, period: int)
    ensures match Rsi(closes, period) case None => true case Some(r) => 0.0 <= r <= 100.0
  {
    if 0 < period < |closes| {
      var ds := Diffs(closes);
      WilderNonNegative(Gain, ds, period);
      WilderNonNegative(Loss, ds, period);
      var g, l := Wilder(Gain, ds, period), Wilder(Loss, ds, period);
      RsiIsGainShare(g, l);
      if g + l > 0.0 {
        assert 0.0 <= g / (g + l) <= 1.0;
      }
    }
  }

  /** If `f` of every scaled difference is `c` times `g` of the difference, so is the average. */
  lemma {:induction false} WilderScales(
    f: real -> real, g: real -> real, ds: seq<real>, es: seq<real>, c: real, period: int)
    requires 0 < period <= |ds| == |es|
    requires forall i :: 0 <= i < |ds| ==> f(es[i]) == c * g(ds[i])
    ensures Wilder(f, es, period) == c * Wilder(g, ds, period)
    decreases |ds|
  {
    hide Mean, Smooth;
    if |ds| == period {
      MeanScales(f, g, ds, es, c);
    } else {
      var n := |ds| - 1;
      WilderScales(f, g, ds[..n], es[..n], c, period);
      var w := Wilder(g, ds[..n], period);
      SmoothScales(w, g(ds[n]), Wilder(f, es[..n], period), f(es[n]), c, period);
    }
  }

  lemma SmoothScales(
    average: real, x: real, average': real, x': real, c: real, period: int)
    requires period > 0
    requires average' == c * average && x' == c * x
    ensures Smooth(average', x', period) == c * Smooth(average, x, period)
  {
    var q := average * (period - 1) as real;
    Distribute(c, q, x);
    DivideProduct(c, q + x, period as real);
  }

  lemma MeanScales(f: real -> real, g: real -> real, ds: seq<real>, es: seq<real>, c: real)
    requires 0 < |ds| == |es|
    requires forall i :: 0 <= i < |ds| ==> f(es[i]) == c * g(ds[i])
    ensures Mean(f, es, |ds|) == c * Mean(g, ds, |ds|)
  {
    hide Total;
    TotalScales(f, g, ds, es, c);
    DivideProduct(c, Total(g, ds), |ds| as real);
  }

  lemma {:induction false} TotalScales(f: real -> real, g: real -> real, ds: seq<real>, es: seq<real>, c: real)
    requires |ds| == |es|
    requires forall i :: 0 <= i < |ds| ==> f(es[i]) == c * g(ds[i])
    ensures Total(f, es) == c * Total(g, ds)
  {
    if |ds| > 0 {
      var n := |ds| - 1;
      TotalScales(f, g, ds[..n], es[..n], c);
      Distribute(c, Total(g, ds[..n]), g(ds[n]));
    }
  }

  lemma RsiOfScaled(gain: real, loss: real, gain': real, loss': real, c: real)
    requires gain >= 0.0 && loss >= 0.0 && c > 0.0
    requires gain' == c * gain && loss' == c * loss
    ensures gain' >= 0.0 && loss' >= 0.0
    ensures RsiOf(gain', loss') == RsiOf(gain, loss)
  {
    if gain > 0.0 && loss > 0.0 {
      assert c * gain > 0.0 && c * loss > 0.0;
      assert (c * gain) / (c * loss) == gain / loss;
    }
  }

  lemma RsiOfSwapped(gain: real, loss: real)
    requires gain >= 0.0 && loss >= 0.0
    ensures RsiOf(loss, gain) == 100.0 - RsiOf(gain, loss)
  {
    hide RsiOf;
    RsiIsGainShare(gain, loss);
    RsiIsGainShare(loss, gain);
    var all := gain + loss;
    if all > 0.0 {
      DivideSum(gain, loss, all);
      assert all / all == 1.0 && loss + gain == all;
    }
  }

  /** How RSI responds to any affine change of the series: a positive scale leaves it, a negative one
      mirrors it about 50, a zero one gives the neutral 50; the shift never matters. */
  lemma {:induction false} RsiAffine(closes: seq<real>, period: int, scale: real, shift: real)
    ensures Rsi(Affine(closes, scale, shift), period)
            == match Rsi(closes, period)
               case None => None
               case Some(r) =>
                 Some(if scale > 0.0 then r else if scale < 0.0 then 100.0 - r else 50.0)
  {
    if 0 < period < |closes| {
      var ds, es := Diffs(closes), Diffs(Affine(closes, scale, shift));
      DiffsAffine(closes, scale, shift);
      AveragesAffine(ds, es, scale, period);
    }
  }

  lemma DiffsAffine(closes: seq<real>, scale: real, shift: real)
    requires |closes| > 0
    ensures var ds, es := Diffs(closes), Diffs(Affine(closes, scale, shift));
            forall i :: 0 <= i < |ds| ==> es[i] == scale * ds[i]
  {
    forall i | 0 <= i < |closes| - 1
      ensures Diffs(Affine(closes, scale, shift))[i] == scale * Diffs(closes)[i]
    {
      Distribute(scale, closes[i + 1], -closes[i]);
    }
  }

  lemma {:induction false} AveragesAffine(ds: seq<real>, es: seq<real>, scale: real, period: int)
    requires 0 < period <= |ds| == |es|
    requires forall i :: 0 <= i < |ds| ==> es[i] == scale * ds[i]
    ensures var (g, l) := (Wilder(Gain, ds, period), Wilder(Loss, ds, period));
            var (g', l') := (Wilder(Gain, es, period), Wilder(Loss, es, period));
            && g >= 0.0 && l >= 0.0 && g' >= 0.0 && l' >= 0.0
            && RsiOf(g', l') == (if scale > 0.0 then RsiOf(g, l)
                                 else if scale < 0.0 then 100.0 - RsiOf(g, l) else 50.0)
  {
    hide RsiOf, Wilder;
    WilderNonNegative(Gain, ds, period);
    WilderNonNegative(Loss, ds, period);
    WilderNonNegative(Gain, es, period);
    WilderNonNegative(Loss, es, period);
    var g, l := Wilder(Gain, ds, period), Wilder(Loss, ds, period);
    var g', l' := Wilder(Gain, es, period), Wilder(Loss, es, period);
    if scale >= 0.0 {
      WilderScales(Gain, Gain, ds, es, scale, period);
      WilderScales(Loss, Loss, ds, es, scale, period);
      if scale > 0.0 {
        RsiOfScaled(g, l, g', l', scale);
      } else {
        RsiIsGainShare(g', l');
      }
    } else {
      WilderScales(Gain, Loss, ds, es, -scale, period);
      WilderScales(Loss, Gain, ds, es, -scale, period);
      RsiOfScaled(l, g, g', l', -scale);
      RsiOfSwapped(g, l);
    }
  }

  // ---------- What RSI says of a series ----------

  /** Wilder's smoothing is an EMA step of almost twice the period. */
  lemma SmoothIsBlend(average: real, x: real, period: int)
    requires period > 0
    ensures Smooth(average, x, period) == Blend(Alpha(2 * period - 1), x, average)
  {
    var p := period as real;
    assert (2 * period - 1) as real + 1.0 == 2.0 * p;
    assert Alpha(2 * period - 1) == 1.0 / p;
    DivideSum(average * (p - 1.0), x, p);
    assert average * (p - 1.0) / p == average - average / p by {
      DivideSum(average * p, -average, p);
      assert average * p / p == average;
      Distribute(average, p, -1.0);
    }
  }

  lemma {:induction false} TotalDifference(f: real -> real, g: real -> real, h: real -> real, ds: seq<real>)
    requires forall d: real :: h(d) == f(d) - g(d)
    ensures Total(h, ds) == Total(f, ds) - Total(g, ds)
  {
    if |ds| > 0 {
      TotalDifference(f, g, h, ds[..|ds| - 1]);
    }
  }

  lemma DivideDifference(a: real, b: real, c: real)
    requires c != 0.0
    ensures (a - b) / c == a / c - b / c
  {
    DivideSum(a, -b, c);
  }

  lemma SmoothDifference(a: real, b: real, x: real, y: real, period: int)
    requires period > 0
    ensures Smooth(a - b, x - y, period) == Smooth(a, x, period) - Smooth(b, y, period)
  {
    var q := (period - 1) as real;
    Distribute(q, a, -b);
    DivideDifference(a * q + x, b * q + y, period as real);
  }

  /** Averaging is linear. */
  lemma {:induction false} WilderDifference(
    f: real -> real, g: real -> real, h: real -> real, ds: seq<real>, period: int)
    requires 0 < period <= |ds| && forall d: real :: h(d) == f(d) - g(d)
    ensures Wilder(h, ds, period) == Wilder(f, ds, period) - Wilder(g, ds, period)
    decreases |ds|
  {
    hide Smooth;
    if |ds| == period {
      TotalDifference(f, g, h, ds);
      DivideDifference(Total(f, ds), Total(g, ds), period as real);
    } else {
      var n := |ds| - 1;
      WilderDifference(f, g, h, ds[..n], period);
      SmoothDifference(Wilder(f, ds[..n], period), Wilder(g, ds[..n], period), f(ds[n]), g(ds[n]), period);
    }
  }

  /** Wilder's average of the rises of a series, and of its falls. */
  function Rise(closes: seq<real>, period: int): real
    requires 0 < period < |closes|
  {
    Wilder((d: real) => if d > 0.0 then d else 0.0, Diffs(closes), period)
  }

  function Fall(closes: seq<real>, period: int): real
    requires 0 < period < |closes|
  {
    Wilder((d: real) => if d < 0.0 then -d else 0.0, Diffs(closes), period)
  }

  lemma {:induction false} WilderEqual(f: real -> real, g: real -> real, ds: seq<real>, period: int)
    requires 0 < period <= |ds| && forall d: real :: f(d) == g(d)
    ensures Wilder(f, ds, period) == Wilder(g, ds, period)
  {
    hide Wilder;
    forall i | 0 <= i < |ds|
      ensures f(ds[i]) == 1.0 * g(ds[i])
    {
      var d := ds[i];
      assert f(d) == g(d);
    }
    WilderScales(f, g, ds, ds, 1.0, period);
  }

  /** What RSI is of any series: the share of its average rise in all its average movement, and 50 where there
      is none. */
  lemma {:induction false} RsiIsShareOfRises(closes: seq<real>, period: int)
    requires 0 < period < |closes|
    ensures Rsi(closes, period).Some?
    ensures var up, down := Rise(closes, period), Fall(closes, period);
            && up >= 0.0 && down >= 0.0
            && Rsi(closes, period).value == if up + down == 0.0 then 50.0 else 100.0 * (up / (up + down))
  {
    hide Wilder, RsiOf;
    var ds := Diffs(closes);
    WilderEqual(Gain, (d: real) => if d > 0.0 then d else 0.0, ds, period);
    WilderEqual(Loss, (d: real) => if d < 0.0 then -d else 0.0, ds, period);
    WilderNonNegative(Gain, ds, period);
    WilderNonNegative(Loss, ds, period);
    RsiIsGainShare(Wilder(Gain, ds, period), Wilder(Loss, ds, period));
  }

  /** The direction law: RSI is above, at or below 50 as Wilder's average of the signed differences is above,
      at or below zero. */
  lemma {:induction false} RsiFollowsDirection(closes: seq<real>, period: int)
    requires 0 < period < |closes|
    ensures Rsi(closes, period).Some?
    ensures var r, trend := Rsi(closes, period).value, Wilder(Itself, Diffs(closes), period);
            (r > 50.0 <==> trend > 0.0) && (r < 50.0 <==> trend < 0.0)
  {
    hide Wilder, Rsi;
    RsiIsShareOfRises(closes, period);
    WilderDifference((d: real) => if d > 0.0 then d else 0.0, (d: real) => if d < 0.0 then -d else 0.0, Itself,
                     Diffs(closes), period);
    var up, down := Rise(closes, period), Fall(closes, period);
    if up + down > 0.0 {
      ShareAboveHalf(up, down);
    }
  }

  lemma ShareAboveHalf(up: real, down: real)
    requires up + down > 0.0
    ensures 100.0 * (up / (up + down)) > 50.0 <==> up > down
    ensures 100.0 * (up / (up + down)) < 50.0 <==> up < down
  {
    RatioExceeds(up, up + down, 0.5);
    RatioExceeds(-up, up + down, -0.5);
    assert -up / (up + down) == -(up / (up + down));
  }

  lemma {:induction false} WilderOfNothing(f: real -> real, ds: seq<real>, period: int)
    requires 0 < period <= |ds| && forall i :: 0 <= i < |ds| ==> f(ds[i]) == 0.0
    ensures Wilder(f, ds, period) == 0.0
  {
    hide Wilder;
    WilderScales(f, f, ds, ds, 0.0, period);
  }

  lemma {:induction false} WilderOfGains(f: real -> real, ds: seq<real>, period: int)
    requires 0 < period <= |ds| && forall d: real :: f(d) >= 0.0
    requires forall i :: 0 <= i < |ds| ==> f(ds[i]) > 0.0
    ensures Wilder(f, ds, period) > 0.0
    decreases |ds|
  {
    hide Smooth;
    var n := |ds| - 1;
    if |ds| == period {
      forall d | d in ds
        ensures f(d) >= 0.0
      {
      }
      TotalBounds(f, ds);
      QuotientPositive(Total(f, ds), period as real);
    } else {
      WilderOfGains(f, ds[..n], period);
      SmoothPositive(Wilder(f, ds[..n], period), f(ds[n]), period);
    }
  }

  lemma QuotientPositive(a: real, b: real)
    requires a > 0.0 && b > 0.0
    ensures a / b > 0.0
  {
  }

  lemma SmoothPositive(average: real, x: real, period: int)
    requires period > 0 && average >= 0.0 && x > 0.0
    ensures Smooth(average, x, period) > 0.0
  {
    MultiplyMonotone(average, 0.0, (period - 1) as real);
    QuotientPositive(average * (period - 1) as real + x, period as real);
  }

  ghost predicate Rising(closes: seq<real>) { forall i :: 0 < i < |closes| ==> closes[i] > closes[i - 1] }

  ghost predicate Falling(closes: seq<real>) { forall i :: 0 < i < |closes| ==> closes[i] < closes[i - 1] }

  /** A series that only rises has RSI 100, and one that only falls 0. */
  lemma {:induction false} RsiOfMonotone(closes: seq<real>, period: int)
    requires 0 < period < |closes|
    ensures Rising(closes) ==> Rsi(closes, period) == Some(100.0)
    ensures Falling(closes) ==> Rsi(closes, period) == Some(0.0)
  {
    hide Wilder, Rsi, Diffs, Rising, Falling;
    RsiIsShareOfRises(closes, period);
    var ds, up, down := Diffs(closes), Rise(closes, period), Fall(closes, period);
    DiffsOfMonotone(closes);
    var rise, fall := (d: real) => if d > 0.0 then d else 0.0, (d: real) => if d < 0.0 then -d else 0.0;
    if Rising(closes) {
      WilderOfNothing(fall, ds, period);
      WilderOfGains(rise, ds, period);
      WholeShare(up, down);
    }
    if Falling(closes) {
      WilderOfNothing(rise, ds, period);
      WilderOfGains(fall, ds, period);
      WholeShare(down, up);
    }
  }

  lemma WholeShare(all: real, none: real)
    requires all > 0.0 && none == 0.0
    ensures all / (all + none) == 1.0 && none / (none + all) == 0.0
  {
  }

  lemma DiffsOfMonotone(closes: seq<real>)
    requires |closes| > 0
    ensures Rising(closes) ==> forall i :: 0 <= i < |closes| - 1 ==> Diffs(closes)[i] > 0.0
    ensures Falling(closes) ==> forall i :: 0 <= i < |closes| - 1 ==> Diffs(closes)[i] < 0.0
  {
    forall i | 0 <= i < |closes| - 1
      ensures Diffs(closes)[i] == closes[i + 1] - closes[i + 1 - 1]
    {
    }
  }
}
