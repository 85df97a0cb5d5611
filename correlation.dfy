/**
 * The mirror-market correlation gate of place_order_with_trailing
 * (utils.py): a candidate is traded only when its last 50 closes move with
 * the leader's last 50 closes.
 *
 * The Pearson coefficient itself (np.corrcoef) is a parameter. It is
 * `NotANumber` when a series has zero variance, as NumPy's is.
 */
module Correlation {

  datatype Coefficient = Defined(value: real) | NotANumber

  /** Number of closes both series must have. */
  const Window: nat := 50
  /** Smallest correlation that admits a candidate. */
  const MinCorrelation: real := 0.85

  /**
   * The `corr` the source compares: Pearson over the two series when both
   * hold exactly Window closes, and 0 otherwise.
   */
  function GatedCorrelation(candidate: seq<real>, leader: seq<real>, pearson: (seq<real>, seq<real>) -> Coefficient): (c: Coefficient)
    ensures |candidate| != Window || |leader| != Window ==> c == Defined(0.0)
    ensures |candidate| == Window && |leader| == Window ==> c == pearson(candidate, leader)
  {
    if |candidate| == Window && |leader| == Window then pearson(candidate, leader) else Defined(0.0)
  }

  /**
   * The gate as written: skip when `corr < 0.85`. A NaN coefficient is not
   * below 0.85, so it is let through.
   */
  function AdmitAsWritten(candidate: seq<real>, leader: seq<real>, pearson: (seq<real>, seq<real>) -> Coefficient): (admit: bool)
    ensures admit <==> |candidate| == Window && |leader| == Window &&
                       (pearson(candidate, leader).NotANumber? || pearson(candidate, leader).value >= MinCorrelation)
  {
    match GatedCorrelation(candidate, leader, pearson)
    case NotANumber => true
    case Defined(c) => !(c < MinCorrelation)
  }

  /**
   * The gate as intended: admit exactly when both series are full and their
   * correlation is a number of at least 0.85, failing closed on NaN as it
   * does on short history.
   */
  function Admit(candidate: seq<real>, leader: seq<real>, pearson: (seq<real>, seq<real>) -> Coefficient): (admit: bool)
    ensures admit <==> |candidate| == Window && |leader| == Window &&
                       pearson(candidate, leader).Defined? && pearson(candidate, leader).value >= MinCorrelation
    ensures admit ==> AdmitAsWritten(candidate, leader, pearson)
  {
    match GatedCorrelation(candidate, leader, pearson)
    case NotANumber => false
    case Defined(c) => c >= MinCorrelation
  }

  /**
   * Fail-closed on short history: with fewer or more than 50 closes on
   * either side, no coefficient whatever admits the candidate, under either gate.
   */
  lemma ShortHistoryRejected(candidate: seq<real>, leader: seq<real>, pearson: (seq<real>, seq<real>) -> Coefficient)
    requires |candidate| != Window || |leader| != Window
    ensures !Admit(candidate, leader, pearson) && !AdmitAsWritten(candidate, leader, pearson)
  {
  }

  /** The boundary, under either gate: a coefficient of exactly 0.85 admits, anything below rejects. */
  lemma Boundary(candidate: seq<real>, leader: seq<real>, pearson: (seq<real>, seq<real>) -> Coefficient)
    requires |candidate| == Window && |leader| == Window && pearson(candidate, leader).Defined?
    ensures pearson(candidate, leader).value == 0.85 ==> Admit(candidate, leader, pearson)
    ensures pearson(candidate, leader).value < 0.85 ==> !Admit(candidate, leader, pearson)
    ensures pearson(candidate, leader).value == 0.85 ==> AdmitAsWritten(candidate, leader, pearson)
    ensures pearson(candidate, leader).value < 0.85 ==> !AdmitAsWritten(candidate, leader, pearson)
  {
  }

  /** Fifty equal closes: a series with zero variance. */
  function Flat(price: real): (s: seq<real>)
    ensures |s| == Window
    ensures forall i :: 0 <= i < |s| ==> s[i] == price
  {
    seq(Window, _ => price)
  }

  /**
   * The discrepancy: a candidate whose 50 closes are all equal has no
   * defined correlation with anything, yet the gate as written admits it;
   * the intended gate rejects it.
   */
  lemma FlatCandidateAdmittedAsWritten(price: real, leader: seq<real>, pearson: (seq<real>, seq<real>) -> Coefficient)
    requires |leader| == Window
    requires pearson(Flat(price), leader) == NotANumber
    ensures AdmitAsWritten(Flat(price), leader, pearson)
    ensures !Admit(Flat(price), leader, pearson)
  {
  }
}
