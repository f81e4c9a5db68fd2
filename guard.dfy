/** The liquidation guard: what a route does with a freshly computed margin
    ratio. Live trading terminates the strategy; a backtest terminates and
    raises unless it was configured to keep running through liquidations. */
module Guard {
  import opened Common
  import Metrics

  datatype GuardAction = Continue | Terminate | TerminateAndRaise

  /** A ratio below 0 or at/above the threshold counts as liquidated; the
      boundary is inclusive. */
  predicate Breach(mr: real, threshold: real) {
    mr < 0.0 || mr >= threshold
  }

  /** The decision of check_liquidation. */
  function LiquidationAction(mr: real, threshold: real, live: bool, keepRunning: bool): (a: GuardAction)
    ensures a != Continue ==> Breach(mr, threshold)
    ensures Breach(mr, threshold) && (live || !keepRunning) ==> a != Continue
    ensures a == TerminateAndRaise <==> Breach(mr, threshold) && !live && !keepRunning
    ensures a == Terminate <==> Breach(mr, threshold) && live
  {
    if Breach(mr, threshold) then
      if live then Terminate
      else if !keepRunning then TerminateAndRaise
      else Continue
    else Continue
  }

  /** The guard acts at exactly the threshold, and not just below it. */
  lemma GuardBoundary(threshold: real, live: bool)
    requires threshold > 0.0
    ensures LiquidationAction(threshold, threshold, live, false) != Continue
    ensures LiquidationAction(threshold - 0.01, threshold, live, false) == Continue <==> threshold - 0.01 >= 0.0
  {
  }

  /** A margin ratio as reported is never negative, so the guard fires on
      it exactly at or above the threshold; a maintenance margin and a margin
      balance of opposite signs therefore trip any threshold up to 100. */
  lemma GuardOnReportedRatio(maintenanceMargin: real, marginBalance: real, threshold: real, live: bool)
    requires marginBalance != 0.0
    ensures var mr := Metrics.MarginRatio(maintenanceMargin, marginBalance).value;
      Breach(mr, threshold) <==> mr >= threshold
    ensures maintenanceMargin / marginBalance * 100.0 < -0.005 && threshold <= 100.0 ==>
      LiquidationAction(Metrics.MarginRatio(maintenanceMargin, marginBalance).value, threshold, live, false) != Continue
  {
    Metrics.MarginRatioFold(maintenanceMargin, marginBalance);
  }

  /** The default threshold is 97: the scenario's 97% ratio stops a backtest. */
  lemma GuardScenario()
    ensures LiquidationAction(Metrics.MarginRatio(7760.0, 8000.0).value, 97.0, false, false) == TerminateAndRaise
    ensures LiquidationAction(Metrics.MarginRatio(500.0, 8000.0).value, 97.0, false, false) == Continue
  {
    Metrics.MarginRatioScenario();
  }
}
