/**
 * place_order_with_trailing (utils.py) end to end: the correlation gate,
 * the profile choice, the market buy and its fill price, then the trailing
 * exit loop. The exchange's answers are parameters: the two kline series
 * (None when the request fails), the buy order's acknowledgement, the
 * order-status fill price, and the polls of the loop.
 */
module Engine {
  import opened Wrappers
  import opened Correlation
  import opened Regime
  import opened Trailing

  /** The answer to the market buy: rejected, or placed with the fill price it reports, if any. */
  datatype Buy = Rejected | Placed(avgFillPrice: Option<real>)

  /** What the call returns: a skip, an error, or the trailing loop's report. */
  datatype Outcome = Skipped | Failed | Traded(profile: Profile, report: Report)

  /** The close of every candle, in order. */
  function Closes(bars: seq<Bar>): (c: seq<real>)
    ensures |c| == |bars|
    ensures forall i :: 0 <= i < |bars| ==> c[i] == bars[i].close
  {
    seq(|bars|, i requires 0 <= i < |bars| => bars[i].close)
  }

  /**
   * The entry price: the fill price in the acknowledgement when it has
   * one, else the one from the order-status query (None when that fails).
   */
  function EntryFill(buy: Buy, statusFill: Option<real>): (e: Option<real>)
    ensures buy.Rejected? ==> e.None?
    ensures buy.Placed? && buy.avgFillPrice.Some? ==> e == buy.avgFillPrice
    ensures buy.Placed? && buy.avgFillPrice.None? ==> e == statusFill
  {
    match buy
    case Rejected => None
    case Placed(Some(price)) => Some(price)
    case Placed(None) => statusFill
  }

  /** The report of a finished run of the loop. */
  function ReportOf(symbol: string, quantity: real, entry: real, r: Run): Report {
    Report(symbol, entry, quantity, r.state.last, r.state.highest, r.state.stop, r.state.closed)
  }

  /**
   * The report of the loop run from an entry: the peak is at least the entry
   * and the last price, and the stop trails the peak by the profile's stop.
   */
  lemma TradeReport(symbol: string, quantity: real, p: Profile, entry: real, ticks: seq<Tick>)
    requires Canonical(p)
    ensures var rep := ReportOf(symbol, quantity, entry, Replay(p, Start(p, entry), ticks));
      && rep.entry == entry
      && rep.peak >= entry
      && rep.peak >= rep.exit
      && rep.stop == rep.peak * (1.0 - p.stopPct)
  {
    ReplayProperties(p, entry, ticks);
  }

  /**
   * Gate, classify, buy, then trail, with the gate as written: a NaN
   * correlation on two full series goes on to the buy. A failed kline
   * request, a rejected buy or an unknown fill price is an error; a
   * candidate the gate rejects is skipped before anything is bought.
   */
  method PlaceOrderWithTrailing(
    symbol: string, quantity: real,
    leader: Option<seq<real>>, candidate: Option<seq<Bar>>, pearson: (seq<real>, seq<real>) -> Coefficient,
    buy: Buy, statusFill: Option<real>, ticks: seq<Tick>)
    returns (o: Outcome)
    ensures leader.None? || candidate.None? ==> o == Failed
    ensures leader.Some? && candidate.Some? ==>
      (o == Skipped <==> !AdmitAsWritten(Closes(candidate.value), leader.value, pearson))
    ensures o == Failed <==>
      leader.None? || candidate.None? ||
      (AdmitAsWritten(Closes(candidate.value), leader.value, pearson) && EntryFill(buy, statusFill).None?)
    ensures o.Traded? ==>
      && leader.Some? && candidate.Some?
      && AdmitAsWritten(Closes(candidate.value), leader.value, pearson)
      && |candidate.value| == Window
      && o.profile == Classify(candidate.value)
      && EntryFill(buy, statusFill) == Some(o.report.entry)
      && o.report == ReportOf(symbol, quantity, o.report.entry,
                              Replay(o.profile, Start(o.profile, o.report.entry), ticks))
      && o.report.peak >= o.report.entry
      && o.report.peak >= o.report.exit
      && o.report.stop == o.report.peak * (1.0 - o.profile.stopPct)
  {
    if leader.None? || candidate.None? {
      return Failed;
    }
    var bars := candidate.value;
    if !AdmitAsWritten(Closes(bars), leader.value, pearson) {
      return Skipped;
    }
    var profile := Classify(bars);
    var entry := EntryFill(buy, statusFill);
    if entry.None? {
      return Failed;
    }
    var trail := new Trail(symbol, quantity, profile, entry.value);
    var report := trail.Track(ticks);
    ghost var run := Replay(profile, Start(profile, entry.value), ticks);
    assert report == ReportOf(symbol, quantity, entry.value, run);
    TradeReport(symbol, quantity, profile, entry.value, ticks);
    o := Traded(profile, report);
  }
}
