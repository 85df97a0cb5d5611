/**
 * Order quantity sizing under the exchange's lot-size step
 * (calculate_order_quantity in utils.py). Arithmetic is over the reals; the
 * step is 10^-k for the LOT_SIZE filter's decimal count k, so that
 * round(-log10(step)) is k itself.
 */
module Sizing {
  import opened Wrappers
  import opened Catalog
  import opened Arith

  function Pow10(k: nat): (r: nat)
    ensures r >= 1
  {
    if k == 0 then 1 else 10 * Pow10(k - 1)
  }

  /** 10^k for any integer k: the factor `10 ** precision`. */
  function Scale(k: int): (r: real)
    ensures r > 0.0
  {
    if k >= 0 then Pow10(k) as real else 1.0 / Pow10(-k) as real
  }

  /** The step size 10^-k that a LOT_SIZE filter with k decimals stands for. */
  function Step(k: int): (s: real)
    ensures s > 0.0
  {
    1.0 / Scale(k)
  }

  /** q is a whole number of steps of size 1/s (s = 10^k, so the step is 10^-k). */
  predicate OnGrid(q: real, s: real) {
    (q * s).Floor as real == q * s
  }

  /** A whole number of steps is on the grid. */
  lemma WholeStepsOnGrid(n: int, s: real)
    requires s > 0.0
    ensures OnGrid(n as real / s, s)
  {
    DivideThenScale(n as real, s);
  }

  /** A quantity on the grid is its whole number of steps times the step. */
  lemma OnGridSteps(m: real, s: real)
    requires s > 0.0 && OnGrid(m, s)
    ensures m == (m * s).Floor as real / s
  {
    ScaleThenDivide(m, s);
  }

  /**
   * floor(q * s) / s: q rounded down to a whole number of steps 1/s. With
   * s = 10^k the source then applies round(., k), which leaves a value
   * already on the grid unchanged (RoundDownIdempotent).
   */
  function RoundDown(q: real, s: real): (r: real)
    requires s > 0.0
    ensures OnGrid(r, s)
    ensures r <= q
    ensures q - r < 1.0 / s
  {
    var x := q * s;
    var n := x.Floor as real;
    ScaleThenDivide(q, s);
    DivideMonotone(n, x, s);
    DivideBelowOne(x - n, s);
    DivideDifference(x, n, s);
    WholeStepsOnGrid(x.Floor, s);
    n / s
  }

  /** A quantity already on the grid is left unchanged by rounding down. */
  lemma RoundDownIdempotent(q: real, s: real)
    requires s > 0.0 && OnGrid(q, s)
    ensures RoundDown(q, s) == q
  {
    OnGridSteps(q, s);
  }

  /**
   * Rounding down picks the largest whole number of steps not above q: no
   * quantity on the grid that fits under q is larger.
   */
  lemma RoundDownMaximal(q: real, s: real, m: real)
    requires s > 0.0 && OnGrid(m, s) && m <= q
    ensures m <= RoundDown(q, s)
  {
    ScaleMonotone(m, q, s);
    var n := (m * s).Floor;
    var top := (q * s).Floor;
    assert n as real == m * s;
    assert n as real <= q * s;
    assert n <= top;
    OnGridSteps(m, s);
    assert m == n as real / s;
    DivideMonotone(n as real, top as real, s);
    assert RoundDown(q, s) == top as real / s;
  }

  /**
   * The decimal count of the symbol's LOT_SIZE step: that of the first
   * LOT_SIZE filter of the first record carrying the symbol, when the catalog
   * was fetched, holds the symbol, and that record has a LOT_SIZE filter.
   */
  function StepDecimals(fetched: Option<seq<SymbolInfo>>, symbol: string): (r: Option<int>)
    ensures r.Some? ==> fetched.Some? && Lookup(fetched.value, symbol).Some?
    ensures fetched.None? ==> r.None?
    ensures fetched.Some? && Lookup(fetched.value, symbol).None? ==> r.None?
    ensures fetched.Some? && Lookup(fetched.value, symbol).Some? ==>
      var filters := Lookup(fetched.value, symbol).value.filters;
      (r.None? <==> forall i :: 0 <= i < |filters| ==> !filters[i].LotSize?) &&
      (r.Some? ==> exists i :: 0 <= i < |filters| && filters[i] == LotSize(r.value) &&
                              forall j :: 0 <= j < i ==> !filters[j].LotSize?)
  {
    match fetched
    case None => None
    case Some(symbols) =>
      match Lookup(symbols, symbol)
      case None => None
      case Some(info) => FirstLotSize(info.filters)
  }

  /**
   * calculate_order_quantity: usdt / price rounded down to the symbol's step,
   * or 0 when the catalog cannot be fetched, the symbol is unknown, it has no
   * LOT_SIZE filter, or the division by a zero price raises.
   */
  function OrderQuantity(fetched: Option<seq<SymbolInfo>>, symbol: string, usdt: real, price: real): (r: real)
    ensures fetched.None? ==> r == 0.0
    ensures fetched.Some? && (forall i :: 0 <= i < |fetched.value| ==> fetched.value[i].symbol != symbol) ==> r == 0.0
    ensures StepDecimals(fetched, symbol).None? || price == 0.0 ==> r == 0.0
    ensures StepDecimals(fetched, symbol).Some? && price != 0.0 ==>
      var k := StepDecimals(fetched, symbol).value;
      OnGrid(r, Scale(k)) && r <= usdt / price && usdt / price - r < Step(k)
  {
    match StepDecimals(fetched, symbol)
    case None => 0.0
    case Some(k) => if price == 0.0 then 0.0 else RoundDown(usdt / price, Scale(k))
  }

  /**
   * The sized quantity is the largest order on the grid whose notional at
   * the given price does not exceed the amount to trade.
   */
  lemma OrderQuantityMaximal(fetched: Option<seq<SymbolInfo>>, symbol: string, usdt: real, price: real, m: real)
    requires StepDecimals(fetched, symbol).Some? && price > 0.0
    requires OnGrid(m, Scale(StepDecimals(fetched, symbol).value)) && m * price <= usdt
    ensures m <= OrderQuantity(fetched, symbol, usdt, price)
  {
    var k := StepDecimals(fetched, symbol).value;
    assert m <= usdt / price by {
      DivideMonotone(m * price, usdt, price);
      ScaleThenDivide(m, price);
    }
    RoundDownMaximal(usdt / price, Scale(k), m);
  }
}
