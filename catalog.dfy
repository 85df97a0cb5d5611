/**
 * The exchange's instrument catalog as the bot sees it, and the symbol
 * universe filter (get_all_usdt_symbols in utils.py).
 */
module Catalog {
  import opened Wrappers

  /**
   * One entry of a symbol's `filters` list. Only the LOT_SIZE filter is read;
   * its stepSize is modelled as the decimal granularity 10^-stepDecimals
   * (stepDecimals is negative for steps of 10, 100, ...).
   */
  datatype Filter = LotSize(stepDecimals: int) | OtherFilter(filterType: string)

  /** One record of `futures_exchange_info()['symbols']`. */
  datatype SymbolInfo = SymbolInfo(symbol: string, quoteAsset: string, status: string, filters: seq<Filter>)

  const QuoteCurrency: string := "USDT"
  const ActiveStatus: string := "TRADING"
  /** The leader instrument: the correlation benchmark, never traded itself. */
  const Leader: string := "BTCUSDT"

  predicate Tradeable(s: SymbolInfo) {
    s.quoteAsset == QuoteCurrency && s.status == ActiveStatus && s.symbol != Leader
  }

  /**
   * The comprehension over a fetched catalog: the symbols of the tradeable
   * records, in catalog order.
   */
  function Selected(symbols: seq<SymbolInfo>): (r: seq<string>)
    ensures |r| <= |symbols|
    ensures forall k :: 0 <= k < |r| ==> r[k] != Leader
  {
    if symbols == [] then []
    else (if Tradeable(symbols[0]) then [symbols[0].symbol] else []) + Selected(symbols[1..])
  }

  /**
   * get_all_usdt_symbols: the selected symbols, or no symbols at all when the
   * catalog could not be fetched (None).
   */
  function UsdtSymbols(fetched: Option<seq<SymbolInfo>>): (r: seq<string>)
    ensures fetched.None? ==> r == []
    ensures fetched.Some? ==> |r| <= |fetched.value|
    ensures Leader !in r
    ensures fetched.Some? ==> r == Selected(fetched.value)
    ensures fetched.Some? ==> forall x :: x in r <==>
      exists i :: 0 <= i < |fetched.value| && fetched.value[i].symbol == x && Tradeable(fetched.value[i])
  {
    match fetched
    case None => []
    case Some(symbols) =>
      SelectedMembership(symbols);
      Selected(symbols)
  }

  /** A symbol is selected exactly when some tradeable record carries it. */
  lemma {:induction false} SelectedMembership(symbols: seq<SymbolInfo>)
    ensures forall x :: x in Selected(symbols) <==> exists i :: 0 <= i < |symbols| && symbols[i].symbol == x && Tradeable(symbols[i])
  {
    if symbols != [] {
      SelectedMembership(symbols[1..]);
      forall x
        ensures x in Selected(symbols) <==> exists i :: 0 <= i < |symbols| && symbols[i].symbol == x && Tradeable(symbols[i])
      {
        if x in Selected(symbols[1..]) {
          var i :| 0 <= i < |symbols[1..]| && symbols[1..][i].symbol == x && Tradeable(symbols[1..][i]);
          assert symbols[i + 1] == symbols[1..][i];
        }
        if exists i :: 0 <= i < |symbols| && symbols[i].symbol == x && Tradeable(symbols[i]) {
          var i :| 0 <= i < |symbols| && symbols[i].symbol == x && Tradeable(symbols[i]);
          if i > 0 {
            assert symbols[1..][i - 1] == symbols[i];
          }
        }
      }
    }
  }

  /**
   * Catalog order is kept: selecting from two catalog pieces one after the
   * other is selecting from the whole.
   */
  lemma {:induction false} SelectedAppend(a: seq<SymbolInfo>, b: seq<SymbolInfo>)
    ensures Selected(a + b) == Selected(a) + Selected(b)
  {
    if a == [] {
      assert a + b == b;
    } else {
      assert (a + b)[0] == a[0];
      assert (a + b)[1..] == a[1..] + b;
      SelectedAppend(a[1..], b);
    }
  }

  /** A single record is selected exactly when it is tradeable. */
  lemma SelectedSingle(s: SymbolInfo)
    ensures Selected([s]) == if Tradeable(s) then [s.symbol] else []
  {
    assert [s][1..] == [];
  }

  /**
   * next((s for s in symbols if s['symbol'] == symbol), None) as an index:
   * the first record carrying the symbol.
   */
  function FirstIndexOf(symbols: seq<SymbolInfo>, symbol: string): (r: Option<nat>)
    ensures r.None? <==> forall i :: 0 <= i < |symbols| ==> symbols[i].symbol != symbol
    ensures r.Some? ==> r.value < |symbols| && symbols[r.value].symbol == symbol
    ensures r.Some? ==> forall j :: 0 <= j < r.value ==> symbols[j].symbol != symbol
  {
    if symbols == [] then None
    else if symbols[0].symbol == symbol then Some(0)
    else
      match FirstIndexOf(symbols[1..], symbol)
      case None => None
      case Some(k) => Some(k + 1)
  }

  /** The record the sizer uses for a symbol: the first one carrying it, if any. */
  function Lookup(symbols: seq<SymbolInfo>, symbol: string): (r: Option<SymbolInfo>)
    ensures r.None? <==> forall i :: 0 <= i < |symbols| ==> symbols[i].symbol != symbol
    ensures r.Some? ==> r.value.symbol == symbol
    ensures r.Some? ==> exists i :: 0 <= i < |symbols| && symbols[i] == r.value &&
                                   forall j :: 0 <= j < i ==> symbols[j].symbol != symbol
  {
    match FirstIndexOf(symbols, symbol)
    case None => None
    case Some(i) => Some(symbols[i])
  }

  /**
   * [f['stepSize'] for f in filters if f['filterType'] == 'LOT_SIZE'][0]:
   * the decimals of the first LOT_SIZE filter, None where indexing the empty
   * list would raise.
   */
  function FirstLotSize(filters: seq<Filter>): (r: Option<int>)
    ensures r.None? <==> forall i :: 0 <= i < |filters| ==> !filters[i].LotSize?
    ensures r.Some? ==> exists i :: 0 <= i < |filters| && filters[i] == LotSize(r.value) && forall j :: 0 <= j < i ==> !filters[j].LotSize?
  {
    if filters == [] then None
    else if filters[0].LotSize? then Some(filters[0].stepDecimals)
    else
      match FirstLotSize(filters[1..])
      case None => None
      case Some(k) =>
        ghost var i :| 0 <= i < |filters[1..]| && filters[1..][i] == LotSize(k) && forall j :: 0 <= j < i ==> !filters[1..][j].LotSize?;
        assert filters[i + 1] == LotSize(k);
        assert forall j :: 0 <= j < i + 1 ==> !filters[j].LotSize? by {
          forall j | 0 <= j < i + 1 ensures !filters[j].LotSize? {
            if j > 0 { assert filters[j] == filters[1..][j - 1]; }
          }
        }
        Some(k)
  }
}
