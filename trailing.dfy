/**
 * The trailing stop-loss / take-profit loop of place_order_with_trailing
 * (utils.py). Once per poll it reads the price, raises the peak (and the
 * stop with it), then checks the target, then the stop. In the "1:2"
 * profile the target closes the position; in "1:3" it is moved up to 3%
 * above the price and the position stays open. Any failed exchange call,
 * the price poll or a rejected sell, ends the loop with the position open.
 *
 * `Next` is one poll as a function of the loop's variables, `Replay` the
 * loop over a sequence of polls; the class `Trail` runs the same loop over
 * its fields and is proved against them.
 */
module Trailing {
  import opened Wrappers
  import opened Arith
  import opened Regime

  /**
   * One poll: the ticker price and whether the exchange accepts a
   * reduce-only market sell placed on this poll, or a failed price request.
   */
  datatype Tick = Quote(price: real, sellAccepted: bool) | QuoteFailed

  datatype ExitKind = TakeProfit | StopLoss

  /** A reduce-only market sell that closed the position, and its trigger price. */
  datatype Sell = Sell(kind: ExitKind, price: real)

  /** The loop's variables: highest, stop_price, target_price, closed, last_price. */
  datatype Snapshot = Snapshot(highest: real, stop: real, target: real, closed: bool, last: real)

  /** The variables after one poll, the sell it placed, and whether the loop broke off. */
  datatype StepOut = StepOut(state: Snapshot, sold: Option<Sell>, aborted: bool)

  /**
   * What holds of the loop's variables at the entry and after every poll:
   * the stop trails the peak by stopPct, and the peak is at least the entry
   * and the last price.
   */
  predicate Inv(p: Profile, entry: real, s: Snapshot) {
    && s.stop == s.highest * (1.0 - p.stopPct)
    && s.highest >= entry
    && s.highest >= s.last
  }

  /**
   * What holds whenever the loop goes on polling after a positive entry:
   * the target lies above the peak, so a price that reaches the target is a
   * new peak.
   */
  predicate Armed(entry: real, s: Snapshot) {
    entry > 0.0 ==> s.target > s.highest
  }

  /** The variables right after the entry fill. */
  function Start(p: Profile, entry: real): (s: Snapshot)
    requires Canonical(p)
    ensures s.highest == entry && s.last == entry && !s.closed
    ensures s.target == entry * (1.0 + p.targetPct)
    ensures Inv(p, entry, s) && Armed(entry, s)
  {
    var s := Snapshot(entry, entry * (1.0 - p.stopPct), entry * (1.0 + p.targetPct), false, entry);
    assert entry > 0.0 ==> s.target > s.highest by {
      if entry > 0.0 { ScaleStrictlyMonotone(1.0, 1.0 + p.targetPct, entry); }
    }
    s
  }

  /**
   * Placing the closing sell: accepted, the position is closed; rejected,
   * the exception breaks the loop with the position still open.
   */
  function Exit(s: Snapshot, kind: ExitKind, accepted: bool): (out: StepOut)
    requires !s.closed
    ensures out.state.closed <==> accepted
    ensures out.sold.Some? <==> accepted
    ensures out.aborted <==> !accepted
    ensures out.state == (if accepted then s.(closed := true) else s)
    ensures out.sold.Some? ==> out.sold.value == Sell(kind, s.last)
  {
    if accepted then StepOut(s.(closed := true), Some(Sell(kind, s.last)), false)
    else StepOut(s, None, true)
  }

  /** The stop check: sell when the price is at or below the stop. */
  function StopCheck(s: Snapshot, accepted: bool): (out: StepOut)
    requires !s.closed
    ensures s.last > s.stop ==> out == StepOut(s, None, false)
    ensures s.last <= s.stop && accepted ==> out == StepOut(s.(closed := true), Some(Sell(StopLoss, s.last)), false)
    ensures s.last <= s.stop && !accepted ==> out == StepOut(s, None, true)
  {
    if s.last <= s.stop then Exit(s, StopLoss, accepted) else StepOut(s, None, false)
  }

  /** One poll of the loop on open variables s. */
  function Next(p: Profile, s: Snapshot, t: Tick): (out: StepOut)
    requires !s.closed
    ensures out.sold.Some? <==> out.state.closed
    ensures out.sold.Some? ==> !out.aborted && t.Quote? && t.sellAccepted && out.sold.value.price == t.price
    ensures out.aborted ==> !out.state.closed
    ensures t.QuoteFailed? ==> out == StepOut(s, None, true)
  {
    match t
    case QuoteFailed => StepOut(s, None, true)
    case Quote(price, accepted) =>
      var raised :=
        if price > s.highest then s.(highest := price, stop := price * (1.0 - p.stopPct), last := price)
        else s.(last := price);
      if price >= raised.target then
        if p.ratio == OneToThree then StopCheck(raised.(target := price * (1.0 + p.targetPct)), accepted)
        else Exit(raised, TakeProfit, accepted)
      else StopCheck(raised, accepted)
  }

  /** A poll keeps the invariant and never lowers the peak or the stop. */
  lemma NextKeepsInvariant(p: Profile, entry: real, s: Snapshot, t: Tick)
    requires Canonical(p) && Inv(p, entry, s) && !s.closed
    ensures Inv(p, entry, Next(p, s, t).state)
    ensures Next(p, s, t).state.highest >= s.highest
    ensures Next(p, s, t).state.stop >= s.stop
  {
    if t.Quote? && t.price > s.highest {
      ScaleStrictlyMonotone(s.highest, t.price, 1.0 - p.stopPct);
    }
  }

  /** A poll after which the loop goes on keeps the target above the peak. */
  lemma NextKeepsArmed(p: Profile, entry: real, s: Snapshot, t: Tick)
    requires Canonical(p) && Inv(p, entry, s) && Armed(entry, s) && !s.closed
    ensures var out := Next(p, s, t); !out.aborted && !out.state.closed ==> Armed(entry, out.state)
  {
    if entry > 0.0 && t.Quote? && t.price >= s.target && p.ratio == OneToThree {
      ScaleStrictlyMonotone(1.0, 1.0 + p.targetPct, t.price);
    }
  }

  /**
   * What one poll at a price does, given the invariant and a positive entry:
   * the peak becomes the larger of peak and price; at or above the target,
   * "1:2" sells and "1:3" moves the target to price * (1 + targetPct) and
   * cannot also be stopped out; below the target, the position is sold
   * exactly when the price is at or below the (raised) stop. At most one
   * sell is placed, and a rejected sell breaks off with the position open.
   */
  lemma NextAtPrice(p: Profile, entry: real, s: Snapshot, price: real, accepted: bool)
    requires Canonical(p) && Inv(p, entry, s) && Armed(entry, s) && !s.closed && entry > 0.0
    ensures var out := Next(p, s, Quote(price, accepted));
      && out.state.highest == Max(s.highest, price)
      && out.state.last == price
      && out.state.stop == out.state.highest * (1.0 - p.stopPct)
      && (price >= s.target && p.ratio == OneToTwo ==>
            out.state.target == s.target &&
            if accepted then out.state.closed && out.sold == Some(Sell(TakeProfit, price))
            else out.aborted && !out.state.closed)
      && (price >= s.target && p.ratio == OneToThree ==>
            out == StepOut(out.state, None, false) && !out.state.closed &&
            out.state.target == price * (1.0 + p.targetPct))
      && (price < s.target && price <= out.state.stop ==>
            out.state.target == s.target &&
            if accepted then out.state.closed && out.sold == Some(Sell(StopLoss, price))
            else out.aborted && !out.state.closed)
      && (price < s.target && price > out.state.stop ==>
            out == StepOut(out.state, None, false) && out.state.target == s.target)
  {
    if price >= s.target {
      assert price > s.highest;
      assert price * (1.0 - p.stopPct) < price by {
        ScaleStrictlyMonotone(1.0 - p.stopPct, 1.0, price);
      }
    }
  }

  /** Why the loop stopped: still polling when the polls ran out, closed, or broken off. */
  datatype Halt = Tracking | Closed | Aborted

  /**
   * The loop's progress: the current variables, the sells placed, the
   * variables after each poll so far, and whether it has stopped.
   */
  datatype Run = Run(state: Snapshot, sells: seq<Sell>, history: seq<Snapshot>, halt: Halt)

  function HaltAfter(out: StepOut): (h: Halt)
    ensures h == Tracking ==> !out.state.closed
  {
    if out.aborted then Aborted else if out.state.closed then Closed else Tracking
  }

  /** `while not closed`, from poll i on; a run that has stopped stays as it is. */
  function Continue(p: Profile, r: Run, ticks: seq<Tick>, i: nat): (c: Run)
    requires i <= |ticks|
    requires r.halt == Tracking ==> !r.state.closed
    ensures r.halt != Tracking ==> c == r
    ensures |r.history| <= |c.history| <= |r.history| + (|ticks| - i)
    ensures c.history[..|r.history|] == r.history
    ensures |r.sells| <= |c.sells| && c.sells[..|r.sells|] == r.sells
    ensures c.halt == Tracking ==> !c.state.closed
    ensures r.halt == Tracking && c.halt == Tracking ==> |c.history| == |r.history| + (|ticks| - i)
    ensures r.halt == Tracking && c.halt != Tracking ==> |c.history| > |r.history|
    decreases |ticks| - i
  {
    if i == |ticks| || r.halt != Tracking then r
    else
      var out := Next(p, r.state, ticks[i]);
      Continue(p, Run(out.state, r.sells + ToSeq(out.sold), r.history + [out.state], HaltAfter(out)), ticks, i + 1)
  }

  /** The loop from open variables s over the polls in ticks. */
  function Replay(p: Profile, s: Snapshot, ticks: seq<Tick>): (run: Run)
    requires !s.closed
    ensures |run.history| <= |ticks|
    ensures run.halt == Tracking ==> |run.history| == |ticks| && !run.state.closed
    ensures run.halt != Tracking ==> 0 < |run.history|
  {
    Continue(p, Run(s, [], [], Tracking), ticks, 0)
  }

  /** The peak and the stop never go down along a history, starting from s0. */
  ghost predicate Ratchets(s0: Snapshot, h: seq<Snapshot>) {
    && (forall k :: 0 <= k < |h| ==> s0.highest <= h[k].highest && s0.stop <= h[k].stop)
    && (forall k, m :: 0 <= k <= m < |h| ==> h[k].highest <= h[m].highest && h[k].stop <= h[m].stop)
  }

  /** Everything the loop keeps true of its progress from the start s0. */
  ghost predicate Progress(p: Profile, entry: real, s0: Snapshot, ticks: seq<Tick>, r: Run) {
    var h := r.history;
    && |h| <= |ticks|
    && r.state == (if h == [] then s0 else h[|h| - 1])
    && (forall k :: 0 <= k < |h| ==> Inv(p, entry, h[k]))
    && Ratchets(s0, h)
    && |r.sells| <= 1
    && (|r.sells| == 1 <==> r.halt == Closed)
    && (r.halt == Closed <==> r.state.closed)
    && (r.halt == Tracking ==> !r.state.closed && Armed(entry, r.state))
    && (forall k :: 0 <= k < |h| - 1 ==> !h[k].closed)
    && (r.halt != Tracking ==> h != [])
    && (r.halt == Aborted ==> ticks[|h| - 1].QuoteFailed? || !ticks[|h| - 1].sellAccepted)
    && (r.halt == Aborted && ticks[|h| - 1].QuoteFailed? ==> r.state == (if |h| == 1 then s0 else h[|h| - 2]))
  }

  /** One more poll: appending a state that is at least the last keeps the ratchet. */
  lemma RatchetsStep(s0: Snapshot, h: seq<Snapshot>, last: Snapshot, next: Snapshot)
    requires Ratchets(s0, h)
    requires last == (if h == [] then s0 else h[|h| - 1])
    requires s0.highest <= last.highest && s0.stop <= last.stop
    requires last.highest <= next.highest && last.stop <= next.stop
    ensures Ratchets(s0, h + [next])
  {
    var h' := h + [next];
    assert forall k :: 0 <= k < |h| ==> h'[k] == h[k];
  }

  /** One poll from a run that is still tracking keeps its progress. */
  lemma ProgressStep(p: Profile, entry: real, s0: Snapshot, ticks: seq<Tick>, r: Run)
    requires Canonical(p) && Inv(p, entry, s0)
    requires Progress(p, entry, s0, ticks, r)
    requires r.halt == Tracking && |r.history| < |ticks|
    ensures var out := Next(p, r.state, ticks[|r.history|]);
      Progress(p, entry, s0, ticks, Run(out.state, r.sells + ToSeq(out.sold), r.history + [out.state], HaltAfter(out)))
  {
    var h := r.history;
    var t := ticks[|h|];
    var out := Next(p, r.state, t);
    assert Inv(p, entry, r.state);
    NextKeepsInvariant(p, entry, r.state, t);
    NextKeepsArmed(p, entry, r.state, t);
    assert s0.highest <= r.state.highest && s0.stop <= r.state.stop;
    RatchetsStep(s0, h, r.state, out.state);
    var h' := h + [out.state];
    assert forall k :: 0 <= k < |h| ==> h'[k] == h[k];
    assert r.sells == [];
  }

  lemma {:induction false} ContinueProgress(p: Profile, entry: real, s0: Snapshot, ticks: seq<Tick>, r: Run)
    requires Canonical(p) && Inv(p, entry, s0)
    requires Progress(p, entry, s0, ticks, r)
    ensures Progress(p, entry, s0, ticks, Continue(p, r, ticks, |r.history|))
    ensures Continue(p, r, ticks, |r.history|).halt == Tracking ==> |Continue(p, r, ticks, |r.history|).history| == |ticks|
    decreases |ticks| - |r.history|
  {
    if |r.history| < |ticks| && r.halt == Tracking {
      var out := Next(p, r.state, ticks[|r.history|]);
      var r' := Run(out.state, r.sells + ToSeq(out.sold), r.history + [out.state], HaltAfter(out));
      ProgressStep(p, entry, s0, ticks, r);
      ContinueProgress(p, entry, s0, ticks, r');
    }
  }

  /**
   * The loop over any sequence of polls, from the entry state:
   * - after every poll the stop is the peak less stopPct, and the peak and
   *   the stop never go down;
   * - at most one sell is placed, exactly when the loop ends closed, and the
   *   loop stops at the first poll that closes;
   * - the loop ends only on a close, a failed call, or the end of the polls;
   *   after a failed price request the variables are those of the poll
   *   before it, with the position open.
   */
  lemma {:induction false} ReplayProperties(p: Profile, entry: real, ticks: seq<Tick>)
    requires Canonical(p)
    ensures Finished(p, entry, Start(p, entry), ticks, Replay(p, Start(p, entry), ticks))
  {
    var s0 := Start(p, entry);
    var r0 := Run(s0, [], [], Tracking);
    assert Progress(p, entry, s0, ticks, r0);
    ContinueProgress(p, entry, s0, ticks, r0);
    ProgressOutcome(p, entry, s0, ticks, Replay(p, s0, ticks));
  }

  /** What a finished loop from s0 over the polls in ticks has to show for itself. */
  ghost predicate Finished(p: Profile, entry: real, s0: Snapshot, ticks: seq<Tick>, r: Run) {
    var h := r.history;
    && (forall k :: 0 <= k < |h| ==> h[k].stop == h[k].highest * (1.0 - p.stopPct) && h[k].highest >= entry)
    && (forall k, m :: 0 <= k <= m < |h| ==> h[k].highest <= h[m].highest && h[k].stop <= h[m].stop)
    && r.state == (if h == [] then s0 else h[|h| - 1])
    && r.state.highest >= r.state.last
    && |r.sells| <= 1
    && (|r.sells| == 1 <==> r.state.closed)
    && (r.halt == Closed <==> r.state.closed)
    && (forall k :: 0 <= k < |h| - 1 ==> !h[k].closed)
    && (r.halt == Tracking ==> |h| == |ticks| && !r.state.closed)
    && (r.halt == Aborted ==>
          !r.state.closed && 0 < |h| <= |ticks| && (ticks[|h| - 1].QuoteFailed? || !ticks[|h| - 1].sellAccepted))
    && (r.halt == Aborted && ticks[|h| - 1].QuoteFailed? ==> r.state == (if |h| == 1 then s0 else h[|h| - 2]))
  }

  /** A run with the loop's progress invariant that has stopped, or used every poll, has the outcome above. */
  lemma ProgressOutcome(p: Profile, entry: real, s0: Snapshot, ticks: seq<Tick>, r: Run)
    requires Inv(p, entry, s0)
    requires Progress(p, entry, s0, ticks, r)
    requires r.halt == Tracking ==> |r.history| == |ticks|
    ensures Finished(p, entry, s0, ticks, r)
  {
  }

  /**
   * Entry at 100 in the "1:2" profile (stop 99, target 102), polls at 100,
   * 105, 103, 98: the poll at 105 raises the stop to 103.95 and, being above
   * the target, takes profit there; the later polls are never made.
   */
  lemma ConservativeTakesProfit()
    ensures var r := Replay(Conservative, Start(Conservative, 100.0),
                            [Quote(100.0, true), Quote(105.0, true), Quote(103.0, true), Quote(98.0, true)]);
      && r.halt == Closed
      && r.sells == [Sell(TakeProfit, 105.0)]
      && |r.history| == 2
      && r.state == Snapshot(105.0, 103.95, 102.0, true, 105.0)
  {
    var p := Conservative;
    var ticks := [Quote(100.0, true), Quote(105.0, true), Quote(103.0, true), Quote(98.0, true)];
    var s0 := Start(p, 100.0);
    assert s0 == Snapshot(100.0, 99.0, 102.0, false, 100.0);
    var s1 := Snapshot(100.0, 99.0, 102.0, false, 100.0);
    assert Next(p, s0, ticks[0]) == StepOut(s1, None, false);
    var s2 := Snapshot(105.0, 103.95, 102.0, true, 105.0);
    assert Next(p, s1, ticks[1]) == StepOut(s2, Some(Sell(TakeProfit, 105.0)), false);
    assert Replay(p, s0, ticks) == Continue(p, Run(s1, [], [s1], Tracking), ticks, 1);
    assert Continue(p, Run(s1, [], [s1], Tracking), ticks, 1) == Run(s2, [Sell(TakeProfit, 105.0)], [s1, s2], Closed);
  }

  /**
   * Entry at 100 in the "1:3" profile (stop 99, target 103), polls at 100,
   * 104, 130: the poll at 104 reaches the target and moves it to 107.12,
   * the poll at 130 moves it to 133.9; the position stays open with peak
   * 130 and stop 128.7.
   */
  lemma AggressiveRebasesTarget()
    ensures var r := Replay(Aggressive, Start(Aggressive, 100.0), [Quote(100.0, true), Quote(104.0, true), Quote(130.0, true)]);
      && r.halt == Tracking
      && r.sells == []
      && r.state == Snapshot(130.0, 128.7, 133.9, false, 130.0)
  {
    var p := Aggressive;
    var ticks := [Quote(100.0, true), Quote(104.0, true), Quote(130.0, true)];
    var s0 := Start(p, 100.0);
    assert s0 == Snapshot(100.0, 99.0, 103.0, false, 100.0);
    var s1 := Snapshot(100.0, 99.0, 103.0, false, 100.0);
    assert Next(p, s0, ticks[0]) == StepOut(s1, None, false);
    var s2 := Snapshot(104.0, 102.96, 107.12, false, 104.0);
    assert Next(p, s1, ticks[1]) == StepOut(s2, None, false);
    var s3 := Snapshot(130.0, 128.7, 133.9, false, 130.0);
    assert Next(p, s2, ticks[2]) == StepOut(s3, None, false);
    assert Replay(p, s0, ticks) == Continue(p, Run(s1, [], [s1], Tracking), ticks, 1);
    assert Continue(p, Run(s1, [], [s1], Tracking), ticks, 1) == Continue(p, Run(s2, [], [s1, s2], Tracking), ticks, 2);
    assert Continue(p, Run(s2, [], [s1, s2], Tracking), ticks, 2) == Run(s3, [], [s1, s2, s3], Tracking);
  }

  /**
   * A failed price request ends the loop at once: the position is reported
   * open with the price, peak and stop of the poll before it.
   */
  lemma PollFailureKeepsLastState()
    ensures var s1 := Snapshot(104.0, 102.96, 107.12, false, 104.0);
      var r := Replay(Aggressive, Start(Aggressive, 100.0), [Quote(104.0, true), QuoteFailed, Quote(90.0, true)]);
      && r.halt == Aborted
      && r.sells == []
      && r.state == s1
      && |r.history| == 2
  {
    var p := Aggressive;
    var ticks := [Quote(104.0, true), QuoteFailed, Quote(90.0, true)];
    var s0 := Start(p, 100.0);
    assert s0 == Snapshot(100.0, 99.0, 103.0, false, 100.0);
    var s1 := Snapshot(104.0, 102.96, 107.12, false, 104.0);
    assert Next(p, s0, ticks[0]) == StepOut(s1, None, false);
    assert Next(p, s1, ticks[1]) == StepOut(s1, None, true);
    assert Replay(p, s0, ticks) == Continue(p, Run(s1, [], [s1], Tracking), ticks, 1);
    assert Continue(p, Run(s1, [], [s1], Tracking), ticks, 1) == Run(s1, [], [s1, s1], Aborted);
  }

  /** The result the loop hands back: entry, last price, peak, stop, closed. */
  datatype Report = Report(symbol: string, entry: real, quantity: real, exit: real, peak: real, stop: real, closed: bool)

  /**
   * The trailing exit of one position: the loop's variables as fields,
   * updated in place poll by poll, and the sells placed.
   */
  class Trail {
    const symbol: string
    const quantity: real
    const profile: Profile
    const entry: real
    var highest: real
    var stopPrice: real
    var targetPrice: real
    var closed: bool
    var lastPrice: real
    var sells: seq<Sell>

    function State(): Snapshot
      reads this
    {
      Snapshot(highest, stopPrice, targetPrice, closed, lastPrice)
    }

    ghost predicate Valid()
      reads this
    {
      && Canonical(profile)
      && Inv(profile, entry, State())
      && |sells| <= 1
      && (closed <==> |sells| == 1)
    }

    /** The state right after the entry fill. */
    constructor (symbol: string, quantity: real, profile: Profile, entry: real)
      requires Canonical(profile)
      ensures Valid()
      ensures this.symbol == symbol && this.quantity == quantity && this.profile == profile && this.entry == entry
      ensures State() == Start(profile, entry) && sells == []
    {
      this.symbol := symbol;
      this.quantity := quantity;
      this.profile := profile;
      this.entry := entry;
      highest := entry;
      stopPrice := entry * (1.0 - profile.stopPct);
      targetPrice := entry * (1.0 + profile.targetPct);
      closed := false;
      lastPrice := entry;
      sells := [];
    }

    /**
     * One pass of the loop body: read the price, raise the peak and the
     * stop, check the target, then the stop. Returns whether an exchange
     * call failed, which breaks the loop.
     */
    method Poll(t: Tick) returns (aborted: bool)
      requires Valid() && !closed
      modifies this
      ensures Valid()
      ensures State() == Next(profile, old(State()), t).state
      ensures aborted == Next(profile, old(State()), t).aborted
      ensures sells == old(sells) + ToSeq(Next(profile, old(State()), t).sold)
    {
      NextKeepsInvariant(profile, entry, State(), t);
      match t
      case QuoteFailed =>
        return true;
      case Quote(price, accepted) =>
        lastPrice := price;
        if lastPrice > highest {
          highest := lastPrice;
          stopPrice := highest * (1.0 - profile.stopPct);
        }
        if lastPrice >= targetPrice {
          if profile.ratio == OneToThree {
            targetPrice := lastPrice * (1.0 + profile.targetPct);
          } else {
            if !accepted {
              return true;
            }
            sells := sells + [Sell(TakeProfit, lastPrice)];
            closed := true;
          }
        }
        if lastPrice <= stopPrice && !closed {
          if !accepted {
            return true;
          }
          sells := sells + [Sell(StopLoss, lastPrice)];
          closed := true;
        }
        return false;
    }

    /**
     * `while not closed`: poll until the position is closed, a call fails,
     * or the polls run out; then report entry, last price, peak, stop and
     * whether the position was closed.
     */
    method Track(ticks: seq<Tick>) returns (report: Report)
      requires Valid() && !closed
      modifies this
      ensures Valid()
      ensures State() == Replay(profile, old(State()), ticks).state
      ensures sells == old(sells) + Replay(profile, old(State()), ticks).sells
      ensures report == Report(symbol, entry, quantity, lastPrice, highest, stopPrice, closed)
    {
      ghost var s0 := State();
      ghost var sells0 := sells;
      ghost var history: seq<Snapshot> := [];
      var i := 0;
      var aborted := false;
      while !closed && !aborted && i < |ticks|
        invariant 0 <= i <= |ticks|
        invariant Valid()
        invariant aborted ==> !closed
        invariant sells0 == []
        invariant Replay(profile, s0, ticks) ==
          Continue(profile, Run(State(), sells, history, if aborted then Aborted else if closed then Closed else Tracking), ticks, i)
        decreases |ticks| - i
      {
        ghost var before := Run(State(), sells, history, Tracking);
        ghost var out := Next(profile, State(), ticks[i]);
        aborted := Poll(ticks[i]);
        history := history + [State()];
        assert Continue(profile, before, ticks, i) ==
          Continue(profile, Run(out.state, before.sells + ToSeq(out.sold), before.history + [out.state], HaltAfter(out)), ticks, i + 1);
        i := i + 1;
      }
      report := Report(symbol, entry, quantity, lastPrice, highest, stopPrice, closed);
    }
  }
}
