/** The account-level theorems: what holds in every state that any run of events reaches. */
module LedgerLaws {
  import opened Common
  import opened PaperText
  import opened PaperEngine
  import opened FillLaws
  import opened PaperLedger
  import opened LedgerInvariant

  function At(s: Ledger, k: Key): Option<Position> {
    Lookup(s.positions, k)
  }

  // ---------- the cost-basis identity ----------

  /** In every reachable state, with sweeps and account edits interleaved in any way, cash
      plus the cost of what is held equals the starting balance plus realized P&L less fees
      plus the drift of late edits. */
  lemma CostBasisIdentity(startingBalance: real, events: seq<Event>)
    ensures var s := Run(Start(startingBalance), events).ledger;
            s.cashBalance + Sum(s.positions, CostOf) ==
            s.startingBalance + Sum(s.trades, RealizedOf) - Sum(s.trades, FeesOf)
            + EditDrift(Start(startingBalance), events)
  {
    StartsInInv(startingBalance);
    RunImbalance(Start(startingBalance), events);
  }

  predicate EditIsCurrent(w: World, e: Event) {
    e.EditWrite? && e.edit < |w.edits| ==> EditShift(w.ledger, w.edits[e.edit]) == 0.0
  }

  /** Every edit of the run writes balances that leave cash minus starting balance as it is. */
  predicate EditsAreCurrent(w: World, events: seq<Event>) {
    events != [] ==> EditsAreCurrent(w, Init(events)) && EditIsCurrent(Run(w, Init(events)), Last(events))
  }

  predicate AlwaysBalanced(w: World, events: seq<Event>) {
    Balanced(Run(w, events).ledger) && (events != [] ==> AlwaysBalanced(w, Init(events)))
  }

  /** The identity without drift holds in every state of a run if and only if every edit of
      the run is written while its balances still leave cash minus starting balance as is. */
  lemma {:induction false} AlwaysBalancedIff(w: World, events: seq<Event>)
    requires Inv(w) && Balanced(w.ledger)
    ensures AlwaysBalanced(w, events) <==> EditsAreCurrent(w, events)
  {
    if events != [] {
      hide Step, Imbalance, EditShift, Inv;
      AlwaysBalancedIff(w, Init(events));
      RunKeepsInv(w, Init(events));
      if AlwaysBalanced(w, Init(events)) {
        BalancedStepIff(Run(w, Init(events)), Last(events));
      }
    }
  }

  lemma BalancedStepIff(w: World, e: Event)
    requires Inv(w) && Balanced(w.ledger)
    ensures Balanced(Step(w, e).ledger) <==> EditIsCurrent(w, e)
  {
    hide Step, Imbalance, EditShift, Paired, Replayed, Keyed;
    StepImbalance(w, e);
  }

  lemma {:induction false} NoEditsAreCurrent(w: World, events: seq<Event>)
    requires forall i :: 0 <= i < |events| ==> !events[i].EditWrite?
    ensures EditsAreCurrent(w, events)
  {
    if events != [] {
      NoEditsAreCurrent(w, Init(events));
    }
  }

  lemma CurrentEditsDoNotDrift(startingBalance: real, events: seq<Event>)
    requires EditsAreCurrent(Start(startingBalance), events)
    ensures EditDrift(Start(startingBalance), events) == 0.0
  {
    StartsInInv(startingBalance);
    AlwaysBalancedIff(Start(startingBalance), events);
    RunImbalance(Start(startingBalance), events);
  }

  // ---------- edits that meet no fill ----------

  predicate Fills(w: World, e: Event) {
    e.PlaceOrder? && DecisionOn(w.ledger, e.req).Accept?
  }

  /** How many edits had been read when the run last filled an order or was reset. */
  function EditsAtLastMove(w: World, events: seq<Event>): nat {
    if events == [] then |w.edits|
    else if Fills(Run(w, Init(events)), Last(events)) || Last(events).ResetTo? then |Run(w, Init(events)).edits|
    else EditsAtLastMove(w, Init(events))
  }

  /** Every edit is written before the next fill or reset. */
  predicate NoMoveBetween(w: World, events: seq<Event>) {
    events != [] ==>
      && NoMoveBetween(w, Init(events))
      && (Last(events).EditWrite? ==> Last(events).edit >= EditsAtLastMove(w, Init(events)))
  }

  predicate EditsCurrentFrom(w: World, n: nat) {
    forall k :: n <= k < |w.edits| ==> EditShift(w.ledger, w.edits[k]) == 0.0
  }

  lemma QuietStepKeepsEditsCurrent(w: World, e: Event, n: nat)
    requires EditsCurrentFrom(w, n) && !Fills(w, e) && !e.ResetTo? && (e.EditWrite? ==> e.edit >= n)
    ensures EditsCurrentFrom(Step(w, e), n)
  {
    hide AfterFill, DecisionOn, ReportedEquity;
    if e.PlaceOrder? {
      RejectionMovesNothing(w.ledger, e.req);
    }
  }

  lemma MoveReadsNoEdit(w: World, e: Event)
    requires Fills(w, e) || e.ResetTo?
    ensures Step(w, e).edits == w.edits
  {
  }

  lemma {:induction false} NoMoveBetweenIsCurrent(w: World, events: seq<Event>)
    requires NoMoveBetween(w, events)
    ensures EditsCurrentFrom(Run(w, events), EditsAtLastMove(w, events)) && EditsAreCurrent(w, events)
  {
    if events != [] {
      hide Step, Fills, EditShift;
      var before, e := Run(w, Init(events)), Last(events);
      NoMoveBetweenIsCurrent(w, Init(events));
      if Fills(before, e) || e.ResetTo? {
        MoveReadsNoEdit(before, e);
      } else {
        QuietStepKeepsEditsCurrent(before, e, EditsAtLastMove(w, Init(events)));
      }
    }
  }

  /** When every edit is written before the next fill or reset, the identity holds without
      drift. */
  lemma EditsBetweenMovesKeepTheIdentity(startingBalance: real, events: seq<Event>)
    requires NoMoveBetween(Start(startingBalance), events)
    ensures var s := Run(Start(startingBalance), events).ledger;
            s.cashBalance + Sum(s.positions, CostOf) ==
            s.startingBalance + Sum(s.trades, RealizedOf) - Sum(s.trades, FeesOf)
  {
    NoMoveBetweenIsCurrent(Start(startingBalance), events);
    CurrentEditsDoNotDrift(startingBalance, events);
    CostBasisIdentity(startingBalance, events);
  }

  // ---------- positions against their trades ----------

  function SignedQuantity(t: Trade): real { FillOf(t).delta }

  function DeltaOf(f: Fill): real { f.delta }

  lemma {:induction false} ReplayQuantity(log: seq<Fill>)
    requires Executed(log)
    ensures Replay(log).quantity == Sum(log, DeltaOf)
  {
    if log != [] {
      ReplayQuantity(Init(log));
    }
  }

  lemma {:induction false} LogDeltas(ts: seq<Trade>)
    ensures Sum(Map(ts, FillOf), DeltaOf) == Sum(ts, SignedQuantity)
  {
    if ts != [] {
      assert Init(Map(ts, FillOf)) == Map(Init(ts), FillOf);
      LogDeltas(Init(ts));
    }
  }

  /** At every commit there is at most one position per normalised key, its quantity is the
      signed sum of the trades whose orders carry that key, its average is what replaying
      them gives, and FILLED orders and trades are in one-to-one correspondence. */
  lemma PositionsMatchTheirTrades(startingBalance: real, events: seq<Event>, k: Key)
    ensures var s := Run(Start(startingBalance), events).ledger;
            && (forall i, j :: 0 <= i < j < |s.positions| ==> RowKey(s.positions[i]) != RowKey(s.positions[j]))
            && (forall i :: 0 <= i < |s.positions| ==> StoredNormalized(s.positions[i]))
            && QuantityOf(At(s, k)) == Sum(KeyTrades(s, k), SignedQuantity)
            && Executed(KeyLog(s, k)) && AvgOf(At(s, k)) == Replay(KeyLog(s, k)).avg
            && (forall i, j :: 0 <= i < j < |s.orders| ==> s.orders[i].id != s.orders[j].id)
            && Map(s.trades, OrderIdOf) == Map(Filter(s.orders, IsFilled), IdOf)
  {
    StartsInInv(startingBalance);
    RunKeepsInv(Start(startingBalance), events);
    var s := Run(Start(startingBalance), events).ledger;
    assert Replayed(s, k);
    ReplayQuantity(KeyLog(s, k));
    LogDeltas(KeyTrades(s, k));
  }

  // ---------- equity ----------

  /** How far a row's stored unrealized P&L is from its own mark. */
  function GapOf(p: Position): real {
    p.unrealizedPnL - UnrealizedPnL(p.quantity, p.avgEntryPrice, p.lastPrice)
  }

  predicate Coherent(s: Ledger) {
    forall i :: 0 <= i < |s.positions| ==> GapOf(s.positions[i]) == 0.0
  }

  /** Cash plus the market value of what is held. */
  function TrueEquity(s: Ledger): real {
    s.cashBalance + Sum(s.positions, ValueOf)
  }

  lemma {:induction false} UnrealizedSplits(rows: seq<Position>)
    ensures Sum(rows, UnrealizedOf) == Sum(rows, ValueOf) - Sum(rows, CostOf) + Sum(rows, GapOf)
  {
    if rows != [] {
      UnrealizedSplits(Init(rows));
      var p := Last(rows);
      assert (p.lastPrice - p.avgEntryPrice) * p.quantity == p.quantity * p.lastPrice - p.quantity * p.avgEntryPrice;
    }
  }

  /** By how much the reported equity is off. */
  function EquityError(s: Ledger): real {
    ReportedEquity(s) - TrueEquity(s)
  }

  /** On any tables: the staleness of the marks, less the imbalance of cash and cost. */
  lemma ErrorIsGapsLessImbalance(s: Ledger)
    ensures EquityError(s) == Sum(s.positions, GapOf) - Imbalance(s)
  {
    UnrealizedSplits(s.positions);
  }

  /** In every reachable state, whatever sweeps and edits interleave, reported equity misses
      cash plus market value by exactly the total staleness of the marks less the drift of
      late edits. */
  lemma EquityGap(startingBalance: real, events: seq<Event>)
    ensures var s := Run(Start(startingBalance), events).ledger;
            ReportedEquity(s) ==
            TrueEquity(s) + Sum(s.positions, GapOf) - EditDrift(Start(startingBalance), events)
  {
    StartsInInv(startingBalance);
    RunImbalance(Start(startingBalance), events);
    ErrorIsGapsLessImbalance(Run(Start(startingBalance), events).ledger);
  }

  lemma OrderKeepsCoherence(s: Ledger, req: Request)
    requires Keyed(s) && Coherent(s)
    ensures Coherent(AfterFill(s, req))
  {
    hide Settle, AfterFill, OutcomeOf, DecisionOn, UnrealizedPnL, FindRow, Normalize, ToUpper;
    if DecisionOn(s, req).Accept? {
      AcceptedEffect(s, req);
    } else {
      RejectionMovesNothing(s, req);
    }
  }

  /** The copy still shows the quantity and average of the row it was read from, or that row
      is gone. */
  predicate CopyIsCurrent(w: World, copy: nat)
    requires copy < |w.copies|
  {
    forall i :: 0 <= i < |w.ledger.positions| && w.ledger.positions[i].id == w.copies[copy].id ==>
      && w.ledger.positions[i].quantity == w.copies[copy].quantity
      && w.ledger.positions[i].avgEntryPrice == w.copies[copy].avgEntryPrice
  }

  predicate WriteIsCurrent(w: World, e: Event) {
    e.SweepWrite? && e.copy < |w.copies| ==> CopyIsCurrent(w, e.copy)
  }

  /** Every mark of the run is written from a copy that is still current at that moment. */
  predicate WritesAreCurrent(w: World, events: seq<Event>) {
    events != [] ==> WritesAreCurrent(w, Init(events)) && WriteIsCurrent(Run(w, Init(events)), Last(events))
  }

  lemma CurrentMarkKeepsCoherence(w: World, copy: nat, ltp: real)
    requires Coherent(w.ledger) && copy < |w.copies| && CopyIsCurrent(w, copy)
    ensures Coherent(AfterMark(w.ledger, w.copies[copy], ltp))
  {
    hide UnrealizedPnL;
  }

  lemma CurrentStepIsCoherent(w: World, e: Event)
    requires Keyed(w.ledger) && Coherent(w.ledger) && WriteIsCurrent(w, e)
    ensures Coherent(Step(w, e).ledger)
  {
    hide Keyed, AfterFill, AfterMark, GapOf, ReportedEquity, CopyIsCurrent;
    match e
    case PlaceOrder(req) => OrderKeepsCoherence(w.ledger, req);
    case SweepWrite(copy, ltp) =>
      if copy < |w.copies| { CurrentMarkKeepsCoherence(w, copy, ltp); }
    case _ =>
  }

  lemma {:induction false} CurrentRunIsCoherent(w: World, events: seq<Event>)
    requires Inv(w) && Coherent(w.ledger) && WritesAreCurrent(w, events)
    ensures Coherent(Run(w, events).ledger)
  {
    if events != [] {
      hide Step, Coherent, Keyed, Paired, Replayed, WriteIsCurrent;
      CurrentRunIsCoherent(w, Init(events));
      RunKeepsInv(w, Init(events));
      CurrentStepIsCoherent(Run(w, Init(events)), Last(events));
    }
  }

  lemma {:induction false} NoWritesAreCurrent(w: World, events: seq<Event>)
    requires forall i :: 0 <= i < |events| ==> !events[i].SweepWrite?
    ensures WritesAreCurrent(w, events)
  {
    if events != [] {
      NoWritesAreCurrent(w, Init(events));
    }
  }

  /** When every mark is written from a copy that is still current, the equity reported
      without looking at cash is cash plus market value, less only the drift of late edits;
      so it is right whenever every edit is current too. */
  lemma EquityIsCashPlusMarketValue(startingBalance: real, events: seq<Event>)
    requires WritesAreCurrent(Start(startingBalance), events)
    ensures var s := Run(Start(startingBalance), events).ledger;
            ReportedEquity(s) ==
            s.cashBalance + Sum(s.positions, ValueOf) - EditDrift(Start(startingBalance), events)
    ensures EditsAreCurrent(Start(startingBalance), events) ==>
              var s := Run(Start(startingBalance), events).ledger;
              ReportedEquity(s) == s.cashBalance + Sum(s.positions, ValueOf)
  {
    StartsInInv(startingBalance);
    CurrentRunIsCoherent(Start(startingBalance), events);
    EquityGap(startingBalance, events);
    ZeroSum(Run(Start(startingBalance), events).ledger.positions, GapOf);
    if EditsAreCurrent(Start(startingBalance), events) {
      CurrentEditsDoNotDrift(startingBalance, events);
    }
  }

  // ---------- sweeps that meet no fill ----------

  /** How many copies had been read when the run's last fill came: those may be stale, and
      the later ones were read after it. */
  function CopiesAtLastFill(w: World, events: seq<Event>): nat {
    if events == [] then |w.copies|
    else if Fills(Run(w, Init(events)), Last(events)) then |Run(w, Init(events)).copies|
    else CopiesAtLastFill(w, Init(events))
  }

  /** Every sweep writes its marks before the next fill. Rejected orders, resets, other
      sweeps and snapshots may come between its read and its writes. */
  predicate NoFillBetween(w: World, events: seq<Event>) {
    events != [] ==>
      && NoFillBetween(w, Init(events))
      && (Last(events).SweepWrite? ==> Last(events).copy >= CopiesAtLastFill(w, Init(events)))
  }

  predicate CurrentFrom(w: World, n: nat) {
    forall c :: n <= c < |w.copies| ==> CopyIsCurrent(w, c)
  }

  lemma SameCostsStayCurrent(w: World, w': World, n: nat)
    requires CurrentFrom(w, n) && w'.copies == w.copies && |w'.ledger.positions| <= |w.ledger.positions|
    requires forall i :: 0 <= i < |w'.ledger.positions| ==>
               w'.ledger.positions[i] == w.ledger.positions[i].(
                 lastPrice := w'.ledger.positions[i].lastPrice, unrealizedPnL := w'.ledger.positions[i].unrealizedPnL)
    ensures CurrentFrom(w', n)
  {
    forall c | n <= c < |w'.copies| ensures CopyIsCurrent(w', c) {
      assert CopyIsCurrent(w, c);
    }
  }

  /** An event other than a fill changes no quantity and no average. */
  lemma QuietStepKeepsCopiesCurrent(w: World, e: Event, n: nat)
    requires Inv(w) && CurrentFrom(w, n) && !Fills(w, e)
    ensures CurrentFrom(Step(w, e), n)
  {
    hide RowKey, UnrealizedPnL, ReportedEquity, Normalize, KeyTrades, Lookup, FindRow, AfterFill, DecisionOn, CurrentFrom;
    if e.SweepRead? {
      ReadCopiesAreCurrent(w, n);
    } else {
      if e.PlaceOrder? {
        RejectionMovesNothing(w.ledger, e.req);
      }
      SameCostsStayCurrent(w, Step(w, e), n);
    }
  }

  lemma ReadCopiesAreCurrent(w: World, n: nat)
    requires UniqueRows(w.ledger.positions) && CurrentFrom(w, n)
    ensures CurrentFrom(Step(w, SweepRead), n)
  {
    hide RowKey;
    var rows, w' := w.ledger.positions, Step(w, SweepRead);
    FilterMembers(rows, IsOpen);
    forall c | n <= c < |w'.copies| ensures CopyIsCurrent(w', c) {
      if c < |w.copies| {
        assert CopyIsCurrent(w, c);
      } else {
        assert w'.copies[c] == Filter(rows, IsOpen)[c - |w.copies|];
        assert w'.copies[c] in rows;
      }
    }
  }

  lemma {:induction false} CopiesSinceLastFillAreCurrent(w: World, events: seq<Event>)
    requires Inv(w)
    ensures CurrentFrom(Run(w, events), CopiesAtLastFill(w, events))
  {
    if events != [] {
      hide Step, Inv, Fills, CopyIsCurrent;
      var before, e := Run(w, Init(events)), Last(events);
      CopiesSinceLastFillAreCurrent(w, Init(events));
      RunKeepsInv(w, Init(events));
      if Fills(before, e) {
        FillReadsNothing(before, e);
      } else {
        QuietStepKeepsCopiesCurrent(before, e, CopiesAtLastFill(w, Init(events)));
      }
    }
  }

  lemma FillReadsNothing(w: World, e: Event)
    requires Fills(w, e)
    ensures Step(w, e).copies == w.copies
  {
  }

  lemma {:induction false} NoFillBetweenIsCurrent(w: World, events: seq<Event>)
    requires Inv(w) && NoFillBetween(w, events)
    ensures WritesAreCurrent(w, events)
  {
    if events != [] {
      hide Step, Inv, Run, CopyIsCurrent;
      NoFillBetweenIsCurrent(w, Init(events));
      CopiesSinceLastFillAreCurrent(w, Init(events));
    }
  }

  /** When every sweep finishes its writes before the next fill, and every edit before the
      next fill or reset, reported equity is cash plus market value. */
  lemma SweepsBetweenFillsKeepEquity(startingBalance: real, events: seq<Event>)
    requires NoFillBetween(Start(startingBalance), events) && NoMoveBetween(Start(startingBalance), events)
    ensures var s := Run(Start(startingBalance), events).ledger;
            ReportedEquity(s) == s.cashBalance + Sum(s.positions, ValueOf)
  {
    StartsInInv(startingBalance);
    NoFillBetweenIsCurrent(Start(startingBalance), events);
    NoMoveBetweenIsCurrent(Start(startingBalance), events);
    EquityIsCashPlusMarketValue(startingBalance, events);
  }

  // ---------- stale marks ----------

  /** A mark from any copy of row i moves the equity error by exactly this: the row's old gap
      goes, and what the copy and the row disagree on at the new price comes. */
  lemma MarkMovesEquityError(s: Ledger, seen: Position, i: nat, ltp: real)
    requires UniqueRows(s.positions) && i < |s.positions| && s.positions[i].id == seen.id
    ensures var now := s.positions[i];
            EquityError(AfterMark(s, seen, ltp)) ==
            EquityError(s) - GapOf(now)
            + ((ltp - seen.avgEntryPrice) * seen.quantity - (ltp - now.avgEntryPrice) * now.quantity)
  {
    hide RowKey, UnrealizedPnL, EquityError, GapOf, CostOf;
    var s', now := AfterMark(s, seen, ltp), s.positions[i];
    var marked := now.(lastPrice := ltp, unrealizedPnL := UnrealizedPnL(seen.quantity, seen.avgEntryPrice, ltp));
    assert s'.positions == s.positions[i := marked];
    MarkedColumns(now, seen, ltp);
    SumUpdate(s.positions, i, marked, GapOf);
    SumUpdate(s.positions, i, marked, CostOf);
    ErrorIsGapsLessImbalance(s);
    ErrorIsGapsLessImbalance(s');
  }

  lemma MarkedColumns(now: Position, seen: Position, ltp: real)
    ensures var marked := now.(lastPrice := ltp,
                               unrealizedPnL := UnrealizedPnL(seen.quantity, seen.avgEntryPrice, ltp));
            && GapOf(marked) ==
               (ltp - seen.avgEntryPrice) * seen.quantity - (ltp - now.avgEntryPrice) * now.quantity
            && CostOf(marked) == CostOf(now)
  {
  }

  /** After a mark computed from an old copy of row i, reported equity is cash plus market
      value if and only if the error there was and the disagreement of copy and row at the new
      price make up the row's old gap. When the equity was right and the row's mark was not
      stale, that is: if and only if copy and row agree on their P&L at the new price. */
  lemma StaleMarkKeepsEquityIff(w: World, copy: nat, i: nat, ltp: real)
    requires Inv(w) && copy < |w.copies| && i < |w.ledger.positions|
    requires w.ledger.positions[i].id == w.copies[copy].id
    ensures var s', seen, now := Step(w, SweepWrite(copy, ltp)).ledger, w.copies[copy], w.ledger.positions[i];
            var seenPnL, truePnL := (ltp - seen.avgEntryPrice) * seen.quantity, (ltp - now.avgEntryPrice) * now.quantity;
            && (ReportedEquity(s') == TrueEquity(s') <==> EquityError(w.ledger) + (seenPnL - truePnL) == GapOf(now))
            && (EquityError(w.ledger) == 0.0 && GapOf(now) == 0.0 ==>
                  (ReportedEquity(s') == TrueEquity(s') <==> seenPnL == truePnL))
  {
    hide RowKey, ReportedEquity, TrueEquity, Replayed, Paired, AfterMark, UnrealizedPnL, Sum, GapOf;
    MarkMovesEquityError(w.ledger, w.copies[copy], i, ltp);
  }

  /** When the row was flattened after the sweep read it, the copy's P&L at the new price must
      make up the difference between the row's P&L and the error there was. When there was
      neither, the mark is harmless only if the new price happens to be the old average. */
  lemma StaleMarkOnFlattenedRow(w: World, copy: nat, i: nat, ltp: real)
    requires Inv(w) && copy < |w.copies| && i < |w.ledger.positions|
    requires w.ledger.positions[i].id == w.copies[copy].id && !IsOpen(w.ledger.positions[i])
    ensures var s', seen, now := Step(w, SweepWrite(copy, ltp)).ledger, w.copies[copy], w.ledger.positions[i];
            && (ReportedEquity(s') == TrueEquity(s') <==>
                EquityError(w.ledger) + (ltp - seen.avgEntryPrice) * seen.quantity == now.unrealizedPnL)
            && (EquityError(w.ledger) == 0.0 && now.unrealizedPnL == 0.0 ==>
                  (ReportedEquity(s') == TrueEquity(s') <==> ltp == seen.avgEntryPrice))
  {
    hide Step, Inv, ReportedEquity, TrueEquity, EquityError;
    StaleMarkKeepsEquityIff(w, copy, i, ltp);
    CopiesAreOpen(w, copy);
    NoProductIsZero(ltp - w.copies[copy].avgEntryPrice, w.copies[copy].quantity);
  }

  lemma NoProductIsZero(x: real, q: real)
    requires q != 0.0
    ensures x * q == 0.0 <==> x == 0.0
  {
  }

  lemma CopiesAreOpen(w: World, copy: nat)
    requires Inv(w) && copy < |w.copies|
    ensures IsOpen(w.copies[copy])
  {
  }

  /** A mark whose row no longer exists (a reset came between) changes nothing. */
  lemma StaleMarkAfterResetIsLost(w: World, copy: nat, ltp: real)
    requires copy < |w.copies|
    requires forall i :: 0 <= i < |w.ledger.positions| ==> w.ledger.positions[i].id != w.copies[copy].id
    ensures Step(w, SweepWrite(copy, ltp)) == w
  {
    var rows := w.ledger.positions;
    assert AfterMark(w.ledger, w.copies[copy], ltp).positions == rows;
  }

  /** Rows created after a moment have ids the copies read before it cannot have, so no
      sweep that began before a reset ever touches a row created after it. */
  lemma {:induction false} ResetShieldsNewRows(w: World, newBalance: Option<real>, events: seq<Event>, copy: nat, ltp: real)
    requires Inv(w) && copy < |w.copies|
    ensures var after := Run(Step(w, ResetTo(newBalance)), events);
            && copy < |after.copies| && after.copies[copy] == w.copies[copy]
            && (forall i :: 0 <= i < |after.ledger.positions| ==> after.ledger.positions[i].id >= w.ledger.nextId)
            && after.ledger.nextId >= w.ledger.nextId
            && Step(after, SweepWrite(copy, ltp)) == after
  {
    var after := Run(Step(w, ResetTo(newBalance)), events);
    if events != [] {
      ResetShieldsNewRows(w, newBalance, Init(events), copy, ltp);
      NewRowsAreNewer(Run(Step(w, ResetTo(newBalance)), Init(events)), Last(events), w.ledger.nextId);
    }
    StaleMarkAfterResetIsLost(after, copy, ltp);
  }

  lemma NewRowsAreNewer(w: World, e: Event, bound: nat)
    requires forall i :: 0 <= i < |w.ledger.positions| ==> w.ledger.positions[i].id >= bound
    requires w.ledger.nextId >= bound
    ensures forall i :: 0 <= i < |Step(w, e).ledger.positions| ==> Step(w, e).ledger.positions[i].id >= bound
    ensures Step(w, e).ledger.nextId >= bound
    ensures w.copies <= Step(w, e).copies
  {
    hide Lookup, Normalize, ToUpper, ReportedEquity, Settle, UnrealizedPnL;
    if e.PlaceOrder? && DecisionOn(w.ledger, e.req).Accept? {
      AcceptedEffect(w.ledger, e.req);
    }
  }

  /** Whatever marks went stale before, a filled order leaves the row at its key agreeing
      with UnrealizedPnL. */
  lemma FillHealsItsRow(s: Ledger, req: Request)
    requires Keyed(s) && DecisionOn(s, req).Accept?
    ensures var row := At(AfterFill(s, req), RequestKey(req));
            && row.Some? && GapOf(row.value) == 0.0
            && row.value.quantity == QuantityOf(At(s, RequestKey(req))) + DecisionOn(s, req).delta
            && row.value.lastPrice == DecisionOn(s, req).price
  {
    hide Settle, AfterFill, OutcomeOf, DecisionOn, UnrealizedPnL, FindRow, Normalize, ToUpper;
    AcceptedEffect(s, req);
    NewRowKey(s, req);
    UpsertMovesOneKey(s.positions, NewRow(s, req), RequestKey(req));
    var held := At(s, RequestKey(req));
    CostIsConserved(QuantityOf(held), AvgOf(held), DecisionOn(s, req).delta, DecisionOn(s, req).price);
  }
}
