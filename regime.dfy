/**
 * The regime classifier of place_order_with_trailing (utils.py): true
 * range, directional movement, the 14-bar DI/DX/ADX indicators and short
 * momentum over the candidate's candles, and the choice of a risk:reward
 * profile from them.
 *
 * Each indicator is a column with one entry per candle, as the source's
 * data-frame columns are. A NaN entry is `None`: the first row has no
 * previous candle, a 14-row window is NaN until it is full, a NaN anywhere in
 * a window makes its sum NaN, and 0/0 is NaN. A zero true-range sum makes a
 * directional index infinite or NaN; either way the DX built from it is NaN,
 * so `None` stands for both there.
 */
module Regime {
  import opened Wrappers
  import opened Arith

  /** The candle fields the indicators read. */
  datatype Bar = Bar(high: real, low: real, close: real)

  /** Rolling window of the DI, DX and ADX indicators. */
  const Period: nat := 14
  const AdxThreshold: real := 30.0
  const MomentumThreshold: real := 0.03

  function Abs(x: real): (r: real)
    ensures r >= 0.0 && (r == x || r == -x)
  {
    if x < 0.0 then -x else x
  }

  function Max(a: real, b: real): (m: real)
    ensures m >= a && m >= b && (m == a || m == b)
  {
    if a < b then b else a
  }

  /**
   * True range of row i: the largest of the bar's own range and its high's
   * and low's distance from the previous close. Row 0 has no previous close.
   */
  function TrueRange(bars: seq<Bar>, i: nat): (tr: Option<real>)
    requires i < |bars|
    ensures tr.None? <==> i == 0
    ensures tr.Some? ==>
      var b, pc := bars[i], bars[i - 1].close;
      && tr.value >= b.high - b.low
      && tr.value >= Abs(b.high - pc)
      && tr.value >= Abs(b.low - pc)
      && (tr.value == b.high - b.low || tr.value == Abs(b.high - pc) || tr.value == Abs(b.low - pc))
      && tr.value >= 0.0
  {
    if i == 0 then None
    else
      var b, pc := bars[i], bars[i - 1].close;
      Some(Max(Max(b.high - b.low, Abs(b.high - pc)), Abs(b.low - pc)))
  }

  /** How far the high rose from the previous bar's. */
  function UpMove(bars: seq<Bar>, i: nat): real
    requires 0 < i < |bars|
  {
    bars[i].high - bars[i - 1].high
  }

  /** How far the low fell from the previous bar's. */
  function DownMove(bars: seq<Bar>, i: nat): real
    requires 0 < i < |bars|
  {
    bars[i - 1].low - bars[i].low
  }

  /**
   * +DM of row i: the up-move when it beats the down-move and is positive,
   * else 0 (row 0 compares NaNs, which is false, so 0).
   */
  function PlusDM(bars: seq<Bar>, i: nat): (dm: real)
    requires i < |bars|
    ensures dm >= 0.0
    ensures dm > 0.0 <==> i > 0 && UpMove(bars, i) > DownMove(bars, i) && UpMove(bars, i) > 0.0
    ensures dm > 0.0 ==> dm == UpMove(bars, i)
  {
    if i == 0 then 0.0
    else if UpMove(bars, i) > DownMove(bars, i) then Max(UpMove(bars, i), 0.0)
    else 0.0
  }

  /** -DM of row i: the down-move when it beats the up-move and is positive, else 0. */
  function MinusDM(bars: seq<Bar>, i: nat): (dm: real)
    requires i < |bars|
    ensures dm >= 0.0
    ensures dm > 0.0 <==> i > 0 && DownMove(bars, i) > UpMove(bars, i) && DownMove(bars, i) > 0.0
    ensures dm > 0.0 ==> dm == DownMove(bars, i)
  {
    if i == 0 then 0.0
    else if DownMove(bars, i) > UpMove(bars, i) then Max(DownMove(bars, i), 0.0)
    else 0.0
  }

  /** On every bar at most one direction moves. */
  lemma DirectionalMovementExclusive(bars: seq<Bar>, i: nat)
    requires i < |bars|
    ensures PlusDM(bars, i) == 0.0 || MinusDM(bars, i) == 0.0
  {
  }

  /** Sum of a column slice; NaN anywhere makes the sum NaN. */
  function Total(xs: seq<Option<real>>): (t: Option<real>)
    ensures t.None? <==> exists k :: 0 <= k < |xs| && xs[k].None?
  {
    if xs == [] then Some(0.0)
    else
      var front := xs[..|xs| - 1];
      assert forall k :: 0 <= k < |front| ==> front[k] == xs[k];
      match (Total(front), xs[|xs| - 1])
      case (Some(a), Some(b)) => Some(a + b)
      case _ => None
  }

  /** A sum of entries between lo and hi lies between |xs| * lo and |xs| * hi. */
  lemma {:induction false} TotalBounds(xs: seq<Option<real>>, lo: real, hi: real)
    requires forall k :: 0 <= k < |xs| && xs[k].Some? ==> lo <= xs[k].value <= hi
    ensures Total(xs).Some? ==> |xs| as real * lo <= Total(xs).value <= |xs| as real * hi
  {
    if xs != [] {
      var front := xs[..|xs| - 1];
      assert forall k :: 0 <= k < |front| ==> front[k] == xs[k];
      TotalBounds(front, lo, hi);
      var n := |front| as real;
      assert |xs| as real * lo == n * lo + lo;
      assert |xs| as real * hi == n * hi + hi;
    }
  }

  /** A sum of non-negative entries is non-negative. */
  lemma {:induction false} TotalNonNegative(xs: seq<Option<real>>)
    requires forall k :: 0 <= k < |xs| && xs[k].Some? ==> xs[k].value >= 0.0
    ensures Total(xs).Some? ==> Total(xs).value >= 0.0
  {
    if xs != [] {
      var front := xs[..|xs| - 1];
      assert forall k :: 0 <= k < |front| ==> front[k] == xs[k];
      TotalNonNegative(front);
    }
  }

  /**
   * x.rolling(window=14).sum() at row i: NaN until 14 rows are available,
   * and NaN when any of the last 14 entries up to row i is NaN.
   */
  function RollingSum(col: seq<Option<real>>, i: nat): (s: Option<real>)
    requires i < |col|
    ensures s.None? <==> i + 1 < Period || exists k :: i + 1 - Period <= k <= i && col[k].None?
  {
    if i + 1 < Period then None else Total(col[i + 1 - Period .. i + 1])
  }

  /** A rolling sum of entries between lo and hi lies between 14 * lo and 14 * hi. */
  lemma RollingSumBounds(col: seq<Option<real>>, i: nat, lo: real, hi: real)
    requires i < |col|
    requires forall k :: 0 <= k < |col| && col[k].Some? ==> lo <= col[k].value <= hi
    ensures RollingSum(col, i).Some? ==> Period as real * lo <= RollingSum(col, i).value <= Period as real * hi
  {
    if i + 1 >= Period {
      TotalBounds(col[i + 1 - Period .. i + 1], lo, hi);
    }
  }

  /** The tr column. */
  function TrColumn(bars: seq<Bar>): (col: seq<Option<real>>)
    ensures |col| == |bars|
    ensures forall k :: 0 <= k < |col| ==> col[k] == TrueRange(bars, k)
  {
    seq(|bars|, k requires 0 <= k < |bars| => TrueRange(bars, k))
  }

  /** The +dm column. */
  function PlusDmColumn(bars: seq<Bar>): (col: seq<Option<real>>)
    ensures |col| == |bars|
    ensures forall k :: 0 <= k < |col| ==> col[k] == Some(PlusDM(bars, k))
  {
    seq(|bars|, k requires 0 <= k < |bars| => Some(PlusDM(bars, k)))
  }

  /** The -dm column. */
  function MinusDmColumn(bars: seq<Bar>): (col: seq<Option<real>>)
    ensures |col| == |bars|
    ensures forall k :: 0 <= k < |col| ==> col[k] == Some(MinusDM(bars, k))
  {
    seq(|bars|, k requires 0 <= k < |bars| => Some(MinusDM(bars, k)))
  }

  /**
   * A directional index at row i: 100 * (rolling dm sum / rolling tr sum),
   * defined only when both sums are and the true-range sum is not zero.
   */
  function DirectionalIndex(dm: seq<Option<real>>, tr: seq<Option<real>>, i: nat): (di: Option<real>)
    requires |dm| == |tr| && i < |tr|
    requires forall k :: 0 <= k < |dm| && dm[k].Some? ==> dm[k].value >= 0.0
    requires forall k :: 0 <= k < |tr| && tr[k].Some? ==> tr[k].value >= 0.0
    ensures di.Some? ==> di.value >= 0.0
    ensures di.Some? <==> RollingSum(dm, i).Some? && RollingSum(tr, i).Some? && RollingSum(tr, i).value != 0.0
    ensures di.Some? ==> di.value * RollingSum(tr, i).value == 100.0 * RollingSum(dm, i).value
  {
    match (RollingSum(dm, i), RollingSum(tr, i))
    case (Some(d), Some(t)) =>
      if t == 0.0 then None
      else
        TotalNonNegative(dm[i + 1 - Period .. i + 1]);
        TotalNonNegative(tr[i + 1 - Period .. i + 1]);
        QuotientNonNegative(d, t);
        Some(100.0 * (d / t))
    case _ => None
  }

  lemma ColumnsNonNegative(bars: seq<Bar>)
    ensures forall k :: 0 <= k < |bars| && TrColumn(bars)[k].Some? ==> TrColumn(bars)[k].value >= 0.0
    ensures forall k :: 0 <= k < |bars| ==> PlusDmColumn(bars)[k].value >= 0.0
    ensures forall k :: 0 <= k < |bars| ==> MinusDmColumn(bars)[k].value >= 0.0
  {
  }

  /** +DI at row i. */
  function PlusDI(bars: seq<Bar>, i: nat): (di: Option<real>)
    requires i < |bars|
    ensures di.Some? ==> di.value >= 0.0
  {
    ColumnsNonNegative(bars);
    DirectionalIndex(PlusDmColumn(bars), TrColumn(bars), i)
  }

  /** -DI at row i. */
  function MinusDI(bars: seq<Bar>, i: nat): (di: Option<real>)
    requires i < |bars|
    ensures di.Some? ==> di.value >= 0.0
  {
    ColumnsNonNegative(bars);
    DirectionalIndex(MinusDmColumn(bars), TrColumn(bars), i)
  }

  /**
   * DX at row i: 100 * |+DI - -DI| / (+DI + -DI), a percentage; 0/0 when
   * both indices are zero is NaN.
   */
  function DX(bars: seq<Bar>, i: nat): (dx: Option<real>)
    requires i < |bars|
    ensures dx.Some? ==> 0.0 <= dx.value <= 100.0
    ensures dx.Some? <==>
      PlusDI(bars, i).Some? && MinusDI(bars, i).Some? && PlusDI(bars, i).value + MinusDI(bars, i).value != 0.0
    ensures dx.Some? ==>
      dx.value * (PlusDI(bars, i).value + MinusDI(bars, i).value) == 100.0 * Abs(PlusDI(bars, i).value - MinusDI(bars, i).value)
  {
    match (PlusDI(bars, i), MinusDI(bars, i))
    case (Some(p), Some(m)) =>
      if p + m == 0.0 then None
      else
        PercentOfWhole(Abs(p - m), p + m);
        Some(100.0 * Abs(p - m) / (p + m))
    case _ => None
  }

  /** The dx column. */
  function DxColumn(bars: seq<Bar>): (col: seq<Option<real>>)
    ensures |col| == |bars|
    ensures forall k :: 0 <= k < |col| ==> col[k] == DX(bars, k)
  {
    seq(|bars|, k requires 0 <= k < |bars| => DX(bars, k))
  }

  /** ADX at row i: the 14-row rolling mean of DX, itself a percentage. */
  function Adx(bars: seq<Bar>, i: nat): (adx: Option<real>)
    requires i < |bars|
    ensures adx.Some? ==> 0.0 <= adx.value <= 100.0
    ensures adx.Some? <==> i + 1 >= Period && forall k :: i + 1 - Period <= k <= i ==> DX(bars, k).Some?
    ensures adx.Some? ==> Period as real * adx.value == RollingSum(DxColumn(bars), i).value
  {
    var col := DxColumn(bars);
    RollingSumBounds(col, i, 0.0, 100.0);
    match RollingSum(col, i)
    case None => None
    case Some(s) =>
      assert forall k :: i + 1 - Period <= k <= i ==> col[i + 1 - Period .. i + 1][k - (i + 1 - Period)] == col[k];
      Some(s / Period as real)
  }

  /**
   * Warm-up: no ADX is defined before row 27. The true range of row 0 is NaN,
   * so every DI whose window reaches row 0 is NaN, and so is every ADX
   * whose window reaches such a DX.
   */
  lemma {:induction false} AdxWarmUp(bars: seq<Bar>, i: nat)
    requires i < |bars| && i + 1 < 2 * Period
    ensures Adx(bars, i).None?
  {
    if i + 1 >= Period {
      var j := Period - 1;
      var tr := TrColumn(bars);
      assert tr[0 .. j + 1][0] == tr[0] == None;
      assert RollingSum(tr, j).None?;
      assert DX(bars, j).None?;
      var col := DxColumn(bars);
      var window := col[i + 1 - Period .. i + 1];
      assert window[j - (i + 1 - Period)] == DX(bars, j);
    }
  }

  /** The ADX the source reads: df["adx"].iloc[-1]. */
  function LatestAdx(bars: seq<Bar>): (adx: Option<real>)
    requires |bars| > 0
    ensures adx.Some? ==> 0.0 <= adx.value <= 100.0
    ensures |bars| < 2 * Period ==> adx.None?
  {
    assert |bars| < 2 * Period ==> Adx(bars, |bars| - 1).None? by {
      if |bars| < 2 * Period { AdxWarmUp(bars, |bars| - 1); }
    }
    Adx(bars, |bars| - 1)
  }

  /** `adx > 30`: false when the ADX is NaN, in particular before 28 candles. */
  function AdxAbove(bars: seq<Bar>): (above: bool)
    requires |bars| > 0
    ensures LatestAdx(bars).None? ==> !above
    ensures |bars| < 2 * Period ==> !above
    ensures LatestAdx(bars).Some? ==> (above <==> LatestAdx(bars).value > 30.0)
    ensures above ==> 30.0 < LatestAdx(bars).value <= 100.0
  {
    LatestAdx(bars).Some? && LatestAdx(bars).value > AdxThreshold
  }

  /**
   * (close[-1] - close[-4]) / close[-4]: the relative change over the last
   * three bars. Undefined (an infinity or NaN) when close[-4] is zero.
   */
  function Momentum(bars: seq<Bar>): (m: Option<real>)
    requires |bars| >= 4
    ensures m.None? <==> bars[|bars| - 4].close == 0.0
    ensures m.Some? ==> m.value * bars[|bars| - 4].close == bars[|bars| - 1].close - bars[|bars| - 4].close
  {
    var last, base := bars[|bars| - 1].close, bars[|bars| - 4].close;
    if base == 0.0 then None
    else
      assert (last - base) / base * base == last - base;
      Some((last - base) / base)
  }

  /**
   * `momentum > 0.03`. Over a zero base the quotient is +inf exactly when the
   * last close is positive, and -inf or NaN otherwise. Over a positive base
   * it is a rise of more than 3%; over a negative one, a level below 1.03
   * times the base.
   */
  function MomentumAbove(bars: seq<Bar>): (above: bool)
    requires |bars| >= 4
    ensures bars[|bars| - 4].close == 0.0 ==> (above <==> bars[|bars| - 1].close > 0.0)
    ensures bars[|bars| - 4].close > 0.0 ==> (above <==> bars[|bars| - 1].close > bars[|bars| - 4].close * 1.03)
    ensures bars[|bars| - 4].close < 0.0 ==> (above <==> bars[|bars| - 1].close < bars[|bars| - 4].close * 1.03)
  {
    var last, base := bars[|bars| - 1].close, bars[|bars| - 4].close;
    if base > 0.0 then
      RelativeChangeAbove(last, base, MomentumThreshold);
      Momentum(bars).value > MomentumThreshold
    else if base < 0.0 then
      RelativeChangeAboveNegativeBase(last, base, MomentumThreshold);
      Momentum(bars).value > MomentumThreshold
    else last > 0.0
  }

  /** The label that the trailing loop tests against "1:3". */
  datatype RiskReward = OneToTwo | OneToThree

  /** Trailing stop and take-profit fractions, and their risk:reward label. */
  datatype Profile = Profile(stopPct: real, targetPct: real, ratio: RiskReward)

  const Conservative: Profile := Profile(0.01, 0.02, OneToTwo)
  const Aggressive: Profile := Profile(0.01, 0.03, OneToThree)

  /** The only two profiles the classifier hands out. */
  predicate Canonical(p: Profile) {
    p == Conservative || p == Aggressive
  }

  /**
   * The profile choice: aggressive (1% stop, 3% target, "1:3") when the
   * latest ADX is above 30 or momentum above 3%, conservative (1%, 2%,
   * "1:2") otherwise.
   */
  function Classify(bars: seq<Bar>): (p: Profile)
    requires |bars| >= 4
    ensures Canonical(p) && p.stopPct == 0.01
    ensures p == Aggressive <==> AdxAbove(bars) || MomentumAbove(bars)
    ensures p == Conservative <==> !AdxAbove(bars) && !MomentumAbove(bars)
    ensures p.ratio == OneToThree <==> p.targetPct == 0.03
    ensures |bars| < 2 * Period ==> (p == Aggressive <==> MomentumAbove(bars))
  {
    if AdxAbove(bars) || MomentumAbove(bars) then Aggressive else Conservative
  }
}
