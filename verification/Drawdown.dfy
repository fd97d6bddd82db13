/** The drawdown scan of an account's P&L summary over its equity snapshots. */
module Drawdown {
  import opened Common
  import opened PaperText
  import opened PaperEngine
  import opened FillLaws
  import opened PaperLedger
  import opened LedgerInvariant

  predicate IsPeak(xs: seq<real>, m: real) {
    m in xs && forall i :: 0 <= i < |xs| ==> xs[i] <= m
  }

  function Drop(xs: seq<real>, i: nat, j: nat): real
    requires i <= j < |xs|
  {
    xs[i] - xs[j]
  }

  /** m is the largest fall from an earlier (or the same) point to a later one. */
  ghost predicate IsMaxDrawdown(xs: seq<real>, m: real) {
    && (exists i, j :: 0 <= i <= j < |xs| && Drop(xs, i, j) == m)
    && (forall i, j :: 0 <= i <= j < |xs| ==> Drop(xs, i, j) <= m)
  }

  /** The one-pass scan, oldest snapshot first. Its running peak starts at zero, so it
      scans the history as if it began with an equity of zero. */
  method ScanDrawdown(equities: seq<real>, reportedEquity: real)
    returns (peakEquity: real, maxDrawdown: real, currentDrawdown: real)
    ensures equities == [] ==> peakEquity == reportedEquity && maxDrawdown == currentDrawdown == 0.0
    ensures equities != [] ==>
              && IsPeak([0.0] + equities, peakEquity)
              && IsMaxDrawdown([0.0] + equities, maxDrawdown)
              && currentDrawdown == peakEquity - Last(equities)
              && 0.0 <= currentDrawdown <= maxDrawdown
  {
    var peak, current, maxDD := 0.0, 0.0, 0.0;
    var haveSnapshot := false;
    ScanStart();
    for n := 0 to |equities|
      invariant haveSnapshot <==> n > 0
      invariant IsPeak([0.0] + equities[..n], peak)
      invariant IsMaxDrawdown([0.0] + equities[..n], maxDD)
      invariant n > 0 ==> current == equities[n - 1] && 0.0 <= peak - current <= maxDD
    {
      ghost var seen := [0.0] + equities[..n];
      var eq := equities[n];
      haveSnapshot := true;
      ScanStep(seen, peak, maxDD, eq);
      assert [0.0] + equities[..n + 1] == seen + [eq];
      if eq > peak {
        peak := eq;
      }
      if peak - eq > maxDD {
        maxDD := peak - eq;
      }
      current := eq;
    }
    assert equities[..|equities|] == equities;
    if haveSnapshot {
      return peak, maxDD, peak - current;
    }
    return reportedEquity, 0.0, 0.0;
  }

  lemma ScanStart()
    ensures IsPeak([0.0] + [], 0.0) && IsMaxDrawdown([0.0] + [], 0.0)
  {
    assert Drop([0.0] + [], 0, 0) == 0.0;
  }

  lemma ScanStep(seen: seq<real>, peak: real, maxDD: real, eq: real)
    requires IsPeak(seen, peak) && IsMaxDrawdown(seen, maxDD)
    ensures var peak' := if eq > peak then eq else peak;
            && IsPeak(seen + [eq], peak')
            && IsMaxDrawdown(seen + [eq], if peak' - eq > maxDD then peak' - eq else maxDD)
  {
    var grown := seen + [eq];
    var n := |seen|;
    var peak' := if eq > peak then eq else peak;
    assert grown[n] == eq;
    var p :| 0 <= p < n && seen[p] == peak;
    assert grown[p] == peak;
    var i, j :| 0 <= i <= j < n && Drop(seen, i, j) == maxDD;
    assert Drop(grown, i, j) == maxDD;
    assert Drop(grown, p, n) == peak - eq && Drop(grown, n, n) == 0.0;
    assert maxDD >= 0.0 by { assert Drop(seen, 0, 0) <= maxDD; }
    forall a, b | 0 <= a <= b < n + 1
      ensures b < n ==> Drop(grown, a, b) <= maxDD
      ensures b == n ==> Drop(grown, a, b) <= peak' - eq
    {
      if b < n {
        assert Drop(grown, a, b) == Drop(seen, a, b);
      }
    }
  }

  /** On a history that starts at a non-negative equity the scan is exact: the peak is the
      true maximum and the drawdown the true largest fall. */
  lemma ScanExactFromNonNegativeStart(equities: seq<real>, peak: real, maxDD: real)
    requires equities != [] && equities[0] >= 0.0
    ensures IsPeak([0.0] + equities, peak) ==> IsPeak(equities, peak)
    ensures IsMaxDrawdown([0.0] + equities, maxDD) ==> IsMaxDrawdown(equities, maxDD)
  {
    var xs := [0.0] + equities;
    assert xs[1] == equities[0];
    if IsPeak(xs, peak) {
      assert forall i :: 0 <= i < |equities| ==> xs[i + 1] == equities[i];
    }
    if IsMaxDrawdown(xs, maxDD) {
      var i, j :| 0 <= i <= j < |xs| && Drop(xs, i, j) == maxDD;
      DrawdownWithin(equities, maxDD);
      if i > 0 {
        assert Drop(equities, i - 1, j - 1) == maxDD;
      } else if j > 0 {
        assert Drop(equities, 0, j - 1) >= maxDD;
      } else {
        assert Drop(equities, 0, 0) == 0.0;
      }
    }
  }

  lemma DrawdownWithin(equities: seq<real>, m: real)
    requires IsMaxDrawdown([0.0] + equities, m)
    ensures forall i, j :: 0 <= i <= j < |equities| ==> Drop(equities, i, j) <= m
    ensures forall l :: 0 <= l < |equities| ==> -equities[l] <= m
  {
    var xs := [0.0] + equities;
    forall i, j | 0 <= i <= j < |equities| ensures Drop(equities, i, j) <= m {
      assert Drop(xs, i + 1, j + 1) <= m;
    }
    forall l | 0 <= l < |equities| ensures -equities[l] <= m {
      assert Drop(xs, 0, l + 1) <= m;
    }
  }

  /** Some recorded fall is at least as deep as the account ever was below zero. */
  ghost predicate FallCoversDebt(equities: seq<real>) {
    exists i, j :: 0 <= i <= j < |equities| &&
      forall l :: 0 <= l < |equities| ==> -equities[l] <= Drop(equities, i, j)
  }

  /** On any history (a reset account can start one below zero) the scanned peak is right
      exactly when some snapshot is non-negative, and the scanned drawdown exactly when
      some recorded fall covers the deepest debt. */
  lemma ScanExactIff(equities: seq<real>, peak: real, maxDD: real)
    requires equities != []
    requires IsPeak([0.0] + equities, peak) && IsMaxDrawdown([0.0] + equities, maxDD)
    ensures IsPeak(equities, peak) <==> exists i :: 0 <= i < |equities| && equities[i] >= 0.0
    ensures IsMaxDrawdown(equities, maxDD) <==> FallCoversDebt(equities)
  {
    hide IsMaxDrawdown, FallCoversDebt;
    PeakExactIff(equities, peak);
    DrawdownExactIff(equities, maxDD);
  }

  lemma PeakExactIff(equities: seq<real>, peak: real)
    requires equities != [] && IsPeak([0.0] + equities, peak)
    ensures IsPeak(equities, peak) <==> exists i :: 0 <= i < |equities| && equities[i] >= 0.0
  {
    var xs := [0.0] + equities;
    assert forall i :: 0 <= i < |equities| ==> xs[i + 1] == equities[i];
    assert peak >= xs[0];
  }

  lemma DrawdownExactIff(equities: seq<real>, maxDD: real)
    requires equities != [] && IsMaxDrawdown([0.0] + equities, maxDD)
    ensures IsMaxDrawdown(equities, maxDD) <==> FallCoversDebt(equities)
  {
    DrawdownWithin(equities, maxDD);
    if IsMaxDrawdown(equities, maxDD) {
      var i, j :| 0 <= i <= j < |equities| && Drop(equities, i, j) == maxDD;
      assert forall l :: 0 <= l < |equities| ==> -equities[l] <= Drop(equities, i, j);
    }
    if FallCoversDebt(equities) {
      CoveredDrawdown(equities, maxDD);
    }
  }

  lemma CoveredDrawdown(equities: seq<real>, maxDD: real)
    requires equities != [] && IsMaxDrawdown([0.0] + equities, maxDD) && FallCoversDebt(equities)
    ensures IsMaxDrawdown(equities, maxDD)
  {
    var xs := [0.0] + equities;
    DrawdownWithin(equities, maxDD);
    var a, b :| 0 <= a <= b < |equities| &&
      forall l :: 0 <= l < |equities| ==> -equities[l] <= Drop(equities, a, b);
    var i, j :| 0 <= i <= j < |xs| && Drop(xs, i, j) == maxDD;
    if i > 0 {
      assert Drop(equities, i - 1, j - 1) == maxDD;
    } else if j > 0 {
      assert -equities[j - 1] <= Drop(equities, a, b);
      assert Drop(equities, a, b) == maxDD;
    } else {
      assert Drop(equities, 0, 0) == maxDD;
    }
  }

  /** A history that is only ever in debt is misread. */
  lemma DebtOnlyHistoryIsMisread()
    ensures IsMaxDrawdown([0.0] + [-5.0], 5.0) && IsMaxDrawdown([-5.0], 0.0)
    ensures IsPeak([0.0] + [-5.0], 0.0) && IsPeak([-5.0], -5.0)
  {
    assert Drop([0.0] + [-5.0], 0, 1) == 5.0;
    assert Drop([-5.0], 0, 0) == 0.0;
  }

  predicate KeepsHistory(e: Event) {
    !e.ResetTo?
  }

  /** The history of an account that was never reset starts at its opening balance, so its
      scan is exact whenever that balance is not negative. */
  lemma {:induction false} HistoryStartsAtOpeningBalance(startingBalance: real, events: seq<Event>)
    requires forall i :: 0 <= i < |events| ==> KeepsHistory(events[i])
    ensures var snapshots := Run(Start(startingBalance), events).ledger.snapshots;
            snapshots != [] && snapshots[0] == startingBalance
  {
    if events != [] {
      HistoryStartsAtOpeningBalance(startingBalance, Init(events));
      StepKeepsFirstSnapshot(Run(Start(startingBalance), Init(events)), Last(events));
    }
  }

  lemma StepKeepsFirstSnapshot(w: World, e: Event)
    requires KeepsHistory(e)
    ensures w.ledger.snapshots <= Step(w, e).ledger.snapshots
  {
    hide ReportedEquity, OutcomeOf, Lookup, RequestKey;
  }

  // ---------- a run that leads below zero ----------

  /** Ten at 100 with a fee of a tenth. */
  const COSTLY := Request("NSE", "SBIN", "MIS", Buy, Market, 10.0, 100.0, 0.0, 0.0, 0.0, 1000.0)

  lemma CostlyFill(s: Ledger)
    requires s.positions == [] && s.trades == []
    ensures ReportedEquity(AfterFill(s, COSTLY)) == s.startingBalance - 100.0
  {
    assert DecisionOn(s, COSTLY) == Accept(10.0, 100.0) by {
      hide RequestKey;
      assert Lookup(s.positions, RequestKey(COSTLY)) == None;
    }
    hide AfterFill, OutcomeOf, DecisionOn, Normalize, ToUpper, NewRow, RowKey, RequestKey, Settle;
    AcceptedEffect(s, COSTLY);
    OpeningAverage(0.0, 10.0, 100.0);
    var t, p := OutcomeOf(s, COSTLY).trade.value, NewRow(s, COSTLY);
    assert AfterFill(s, COSTLY).trades == [t] && AfterFill(s, COSTLY).positions == [p];
    OneRowSum(t, RealizedOf);
    OneRowSum(t, FeesOf);
    OneRowSum(p, UnrealizedOf);
  }

  /** A ledger really gets there: a reset clears the opening snapshot, and one order whose fee
      exceeds the balance leaves a history of a single debt. Both scanned figures are wrong. */
  lemma DebtIsReachedAndMisread()
    ensures var history := Run(Start(95.0), [ResetTo(None), PlaceOrder(COSTLY)]).ledger.snapshots;
            && history == [-5.0]
            && IsPeak([0.0] + history, 0.0) && !IsPeak(history, 0.0)
            && IsMaxDrawdown([0.0] + history, 5.0) && !IsMaxDrawdown(history, 5.0)
  {
    hide AfterFill, ReportedEquity, IsPeak, IsMaxDrawdown;
    var fresh' := AfterReset(Opened(95.0), None);
    RunNothing(Start(95.0));
    RunMore(Start(95.0), [], ResetTo(None));
    RunMore(Start(95.0), [ResetTo(None)], PlaceOrder(COSTLY));
    assert [] + [ResetTo(None)] == [ResetTo(None)];
    assert [ResetTo(None)] + [PlaceOrder(COSTLY)] == [ResetTo(None), PlaceOrder(COSTLY)];
    CostlyFill(fresh');
    FillSnapshots(fresh', COSTLY);
    DebtOnlyHistoryIsMisread();
    OnlyOnePeakAndFall();
  }

  lemma FillSnapshots(s: Ledger, req: Request)
    requires Storable(req)
    ensures AfterFill(s, req).snapshots == s.snapshots + [ReportedEquity(AfterFill(s, req))]
  {
    hide OutcomeOf, Lookup, RequestKey, Sum;
  }

  lemma OnlyOnePeakAndFall()
    ensures !IsPeak([-5.0], 0.0) && !IsMaxDrawdown([-5.0], 5.0)
  {
  }
}
