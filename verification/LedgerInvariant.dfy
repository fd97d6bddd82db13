/** What every run of orders, resets, balance edits, marks and sweeps keeps true of an
    account: keys and ids are unique, trades pair with filled orders, and every position
    is the replay of its own trades; and what moves the balance of cash and cost. */
module LedgerInvariant {
  import opened Common
  import opened PaperText
  import opened PaperEngine
  import opened FillLaws
  import opened PaperLedger

  predicate IsFilled(o: Order) { o.status == FILLED }

  function OrderIdOf(t: Trade): nat { t.orderId }

  function IdOf(o: Order): nat { o.id }

  /** The trade's order carries key k: a join of trades with orders. */
  predicate CarriesKey(orders: seq<Order>, k: Key, t: Trade) {
    exists i :: 0 <= i < |orders| && orders[i].id == t.orderId && OrderKey(orders[i]) == k
  }

  ghost function KeyTrades(s: Ledger, k: Key): seq<Trade> {
    Filter(s.trades, t => CarriesKey(s.orders, k, t))
  }

  function FillOf(t: Trade): Fill {
    Fill(if t.side == Buy then t.quantity else -t.quantity, t.price)
  }

  ghost function KeyLog(s: Ledger, k: Key): seq<Fill> {
    Map(KeyTrades(s, k), FillOf)
  }

  predicate UniqueRows(rows: seq<Position>) {
    && (forall i, j :: 0 <= i < j < |rows| ==> rows[i].id != rows[j].id)
    && (forall i, j :: 0 <= i < j < |rows| ==> RowKey(rows[i]) != RowKey(rows[j]))
  }

  predicate StoredNormalized(p: Position) {
    p.exchange == Normalize(p.exchange) && p.symbol == Normalize(p.symbol)
  }

  predicate Keyed(s: Ledger) {
    && UniqueRows(s.positions)
    && (forall i :: 0 <= i < |s.positions| ==>
          s.positions[i].id < s.nextId && StoredNormalized(s.positions[i]))
    && (forall i :: 0 <= i < |s.orders| ==> s.orders[i].id < s.nextId)
    && (forall i, j :: 0 <= i < j < |s.orders| ==> s.orders[i].id < s.orders[j].id)
    && (forall i :: 0 <= i < |s.trades| ==> s.trades[i].orderId < s.nextId)
  }

  /** FILLED orders and trades are in one-to-one correspondence, in order. */
  predicate Paired(s: Ledger) {
    Map(s.trades, OrderIdOf) == Map(Filter(s.orders, IsFilled), IdOf)
  }

  /** How far cash plus cost is from the starting balance plus realized P&L less fees. */
  function Imbalance(s: Ledger): real {
    s.cashBalance + Sum(s.positions, CostOf)
    - (s.startingBalance + Sum(s.trades, RealizedOf) - Sum(s.trades, FeesOf))
  }

  predicate Balanced(s: Ledger) {
    Imbalance(s) == 0.0
  }

  /** The position at k, and its realized P&L, are what replaying k's trades gives. */
  ghost predicate Replayed(s: Ledger, k: Key) {
    var log, held := KeyLog(s, k), Lookup(s.positions, k);
    && Executed(log)
    && Replay(log) == Change(QuantityOf(held), AvgOf(held), Sum(KeyTrades(s, k), RealizedOf))
  }

  ghost predicate Inv(w: World) {
    && Keyed(w.ledger)
    && Paired(w.ledger)
    && (forall k :: Replayed(w.ledger, k))
    && (forall i :: 0 <= i < |w.copies| ==> w.copies[i].id < w.ledger.nextId && IsOpen(w.copies[i]))
  }

  // ---------- position rows ----------

  lemma {:induction false} FindRowByKeys(rows: seq<Position>, rows': seq<Position>, k: Key)
    requires |rows| == |rows'|
    requires forall i :: 0 <= i < |rows| ==> RowKey(rows[i]) == RowKey(rows'[i])
    ensures FindRow(rows, k) == FindRow(rows', k)
  {
    if rows != [] {
      FindRowByKeys(Init(rows), Init(rows'), k);
    }
  }

  /** The row an upsert leaves at its key. */
  function Written(existing: Option<Position>, p: Position): Position {
    if existing.Some? then
      existing.value.(quantity := p.quantity, avgEntryPrice := p.avgEntryPrice,
                      lastPrice := p.lastPrice, unrealizedPnL := p.unrealizedPnL)
    else p
  }

  /** An upsert at p's key changes exactly the row at that key. */
  lemma UpsertMovesOneKey(rows: seq<Position>, p: Position, k: Key)
    requires UniqueRows(rows)
    ensures var existing := Lookup(rows, RowKey(p));
            Lookup(Upsert(rows, existing, p), k) ==
            if k == RowKey(p) then Some(Written(existing, p)) else Lookup(rows, k)
  {
    hide ToUpper;
    match FindRow(rows, RowKey(p))
    case None =>
      assert Init(rows + [p]) == rows;
    case Some(i) =>
      FindRowByKeys(rows, WriteWhereId(rows, rows[i].id, p), k);
  }

  /** An upsert changes a column's total by the difference at its own row. */
  lemma UpsertSum(rows: seq<Position>, p: Position, f: Position -> real)
    requires UniqueRows(rows)
    ensures var existing := Lookup(rows, RowKey(p));
            Sum(Upsert(rows, existing, p), f) ==
            Sum(rows, f) - (if existing.Some? then f(existing.value) else 0.0) + f(Written(existing, p))
  {
    hide ToUpper;
    var existing := Lookup(rows, RowKey(p));
    match FindRow(rows, RowKey(p))
    case None =>
      SumAppend(rows, p, f);
    case Some(i) =>
      assert Upsert(rows, existing, p) == rows[i := Written(existing, p)];
      SumUpdate(rows, i, Written(existing, p), f);
  }

  lemma UpsertKeepsUnique(s: Ledger, p: Position)
    requires Keyed(s) && p.id == s.nextId + 2
    requires StoredNormalized(p)
    ensures var rows := Upsert(s.positions, Lookup(s.positions, RowKey(p)), p);
            UniqueRows(rows) &&
            forall i :: 0 <= i < |rows| ==> rows[i].id < s.nextId + 3 && StoredNormalized(rows[i])
  {
    hide ToUpper, Normalize;
  }

  // ---------- one order ----------

  /** The row the store writes for an accepted order. */
  function NewRow(s: Ledger, req: Request): (p: Position)
    requires OutcomeOf(s, req).position.Some?
  {
    Normalized(OutcomeOf(s, req).position.value)
  }

  lemma NewRowKey(s: Ledger, req: Request)
    requires OutcomeOf(s, req).position.Some?
    ensures var p := NewRow(s, req);
            RowKey(p) == RequestKey(req) && StoredNormalized(p)
  {
    hide Normalize, ToUpper, Decide, Settle, Lookup;
    NormalizeTwice(req.exchange);
    NormalizeTwice(req.symbol);
  }

  function DecisionOn(s: Ledger, req: Request): Decision {
    Decide(QuantityOf(Lookup(s.positions, RequestKey(req))), req)
  }

  /** What an accepted order writes, table by table. */
  lemma AcceptedEffect(s: Ledger, req: Request)
    requires DecisionOn(s, req).Accept?
    ensures Storable(req) && OutcomeOf(s, req).position.Some? && OutcomeOf(s, req).trade.Some?
    ensures var s', out := AfterFill(s, req), OutcomeOf(s, req);
            var d, t, o := DecisionOn(s, req), out.trade.value, out.order;
            var held := Lookup(s.positions, RequestKey(req));
            var c := Settle(QuantityOf(held), AvgOf(held), d.delta, d.price);
            var p := NewRow(s, req);
            && d.delta != 0.0 && s'.orders == s.orders + [o] && s'.trades == s.trades + [t]
            && s'.positions == Upsert(s.positions, held, p)
            && s'.startingBalance == s.startingBalance && s'.nextId == s.nextId + 3
            && s'.cashBalance == s.cashBalance - Notional(d.delta, d.price) - t.fees
            && o.id == s.nextId && o.status == FILLED && OrderKey(o) == RequestKey(req)
            && t.orderId == o.id && FillOf(t) == Fill(d.delta, d.price) && t.realizedPnL == c.realized
            && t.quantity == Abs(d.delta) && t.fees == Fee(d.price, Abs(d.delta), req.feeBps)
            && p.quantity == c.quantity && p.avgEntryPrice == c.avg && p.lastPrice == d.price
            && p.unrealizedPnL == UnrealizedPnL(c.quantity, c.avg, d.price)
            && p.id == (if held.Some? then held.value.id else s.nextId + 2)
  {
    hide Settle, ReportedEquity, Lookup, Upsert, Normalize, ToUpper, Fee, Notional, UnrealizedPnL, SlippedPrice, ValidateOrder;
  }

  /** A rejected order leaves a REJECTED order row and nothing else: cash, positions and
      trades are untouched. */
  lemma RejectionMovesNothing(s: Ledger, req: Request)
    requires DecisionOn(s, req).Refuse?
    ensures var s' := AfterFill(s, req);
            && s'.cashBalance == s.cashBalance && s'.startingBalance == s.startingBalance
            && s'.positions == s.positions && s'.trades == s.trades
            && (s'.orders == s.orders || s'.orders == s.orders + [OutcomeOf(s, req).order])
            && OutcomeOf(s, req).order.status == REJECTED
            && OutcomeOf(s, req).order.reason == Some(DecisionOn(s, req).reason)
  {
  }

  /** A trade's key is fixed when its order is inserted: later orders have other ids. */
  lemma OldTradesKeepTheirKeys(s: Ledger, o: Order, k: Key)
    requires Keyed(s) && o.id == s.nextId
    ensures Filter(s.trades, t => CarriesKey(s.orders + [o], k, t)) == KeyTrades(s, k)
  {
    hide OrderKey;
    var orders' := s.orders + [o];
    forall t | t in s.trades
      ensures CarriesKey(s.orders, k, t) == CarriesKey(orders', k, t)
    {
      if CarriesKey(s.orders, k, t) {
        var i :| 0 <= i < |s.orders| && s.orders[i].id == t.orderId && OrderKey(s.orders[i]) == k;
        assert orders'[i] == s.orders[i];
      }
    }
    FilterCongruent(s.trades, t => CarriesKey(s.orders, k, t), t => CarriesKey(orders', k, t));
  }

  /** An accepted order adds one trade to the log of its own key and to no other. */
  lemma AcceptedOrderExtendsOneLog(s: Ledger, req: Request, k: Key)
    requires Keyed(s) && DecisionOn(s, req).Accept?
    ensures var t := OutcomeOf(s, req).trade.value;
            KeyTrades(AfterFill(s, req), k) ==
            KeyTrades(s, k) + if k == RequestKey(req) then [t] else []
  {
    hide OrderKey, AfterFill, OutcomeOf, DecisionOn;
    AcceptedEffect(s, req);
    var out := OutcomeOf(s, req);
    var t, orders' := out.trade.value, s.orders + [out.order];
    var carries := u => CarriesKey(orders', k, u);
    OldTradesKeepTheirKeys(s, out.order, k);
    FilterAppend(s.trades, t, carries);
    assert orders'[|s.orders|] == out.order;
    assert KeyTrades(AfterFill(s, req), k) == Filter(s.trades + [t], carries);
  }

  lemma ReplayGrows(log: seq<Fill>, f: Fill)
    requires Executed(log) && f.delta != 0.0
    ensures Executed(log + [f])
    ensures var c := Replay(log);
            var d := Settle(c.quantity, c.avg, f.delta, f.price);
            Replay(log + [f]) == d.(realized := c.realized + d.realized)
  {
    assert Init(log + [f]) == log;
  }

  lemma OrderKeepsReplay(s: Ledger, req: Request, k: Key)
    requires Keyed(s) && Replayed(s, k)
    ensures Replayed(AfterFill(s, req), k)
  {
    hide Settle, AfterFill, OutcomeOf, Replay, DecisionOn, Decide, KeyTrades, Lookup, FindRow, RowKey, RequestKey, NewRow,
      Upsert, UniqueRows, FillOf, Sum;
    if DecisionOn(s, req).Refuse? {
      RejectedOrderKeepsReplay(s, req, k);
    } else {
      AcceptedEffect(s, req);
      var s', t, p := AfterFill(s, req), OutcomeOf(s, req).trade.value, NewRow(s, req);
      NewRowKey(s, req);
      AcceptedOrderExtendsOneLog(s, req, k);
      UpsertMovesOneKey(s.positions, p, k);
      if k == RequestKey(req) {
        ReplayGrows(KeyLog(s, k), FillOf(t));
        assert KeyLog(s', k) == KeyLog(s, k) + [FillOf(t)];
        SumAppend(KeyTrades(s, k), t, RealizedOf);
      } else {
        assert KeyTrades(s', k) == KeyTrades(s, k);
      }
    }
  }

  lemma RejectedOrderKeepsReplay(s: Ledger, req: Request, k: Key)
    requires Keyed(s) && Replayed(s, k) && DecisionOn(s, req).Refuse?
    ensures Replayed(AfterFill(s, req), k)
  {
    RejectionMovesNothing(s, req);
    OldTradesKeepTheirKeys(s, OutcomeOf(s, req).order, k);
    assert KeyTrades(AfterFill(s, req), k) == KeyTrades(s, k);
  }

  lemma OrderKeepsBalance(s: Ledger, req: Request)
    requires Keyed(s)
    ensures Imbalance(AfterFill(s, req)) == Imbalance(s)
  {
    hide Settle, AfterFill, OutcomeOf, Fee, Notional, DecisionOn, Lookup, RowKey, RequestKey, NewRow, Upsert, FillOf,
      UnrealizedPnL, Sum, UniqueRows;
    if DecisionOn(s, req).Accept? {
      AcceptedEffect(s, req);
      var held := Lookup(s.positions, RequestKey(req));
      var d, t, p := DecisionOn(s, req), OutcomeOf(s, req).trade.value, NewRow(s, req);
      NewRowKey(s, req);
      UpsertSum(s.positions, p, CostOf);
      SumAppend(s.trades, t, RealizedOf);
      SumAppend(s.trades, t, FeesOf);
      CostOfFill(QuantityOf(held), AvgOf(held), d.delta, d.price);
    } else {
      RejectionMovesNothing(s, req);
    }
  }

  lemma CostOfFill(q: real, a: real, delta: real, p: real)
    requires delta != 0.0
    ensures var c := Settle(q, a, delta, p);
            c.quantity * c.avg - q * a == Notional(delta, p) + c.realized
  {
    CostIsConserved(q, a, delta, p);
  }

  lemma OrderKeepsPairs(s: Ledger, req: Request)
    requires Paired(s)
    ensures Paired(AfterFill(s, req))
  {
    var out := OutcomeOf(s, req);
    FilterAppend(s.orders, out.order, IsFilled);
    if DecisionOn(s, req).Accept? {
      hide AfterFill, OutcomeOf, DecisionOn, FillOf, Lookup;
      AcceptedEffect(s, req);
      MapAppend(s.trades, out.trade.value, OrderIdOf);
      MapAppend(Filter(s.orders, IsFilled), out.order, IdOf);
    } else {
      RejectionMovesNothing(s, req);
      assert Filter(AfterFill(s, req).orders, IsFilled) == Filter(s.orders, IsFilled);
    }
  }

  lemma AcceptedOrderKeepsKeys(s: Ledger, req: Request)
    requires Keyed(s) && DecisionOn(s, req).Accept?
    ensures Keyed(AfterFill(s, req))
  {
    hide Settle, AfterFill, OutcomeOf, DecisionOn, OrderKey, Lookup, UnrealizedPnL, ToUpper, Normalize,
      NewRow, FillOf, RowKey, RequestKey, Decide, UniqueRows, Fee, Notional;
    AcceptedEffect(s, req);
    NewRowKey(s, req);
    var held, p := Lookup(s.positions, RequestKey(req)), NewRow(s, req);
    var added := p.(id := s.nextId + 2);
    assert Upsert(s.positions, held, p) == Upsert(s.positions, held, added);
    SameRowKey(p, added);
    UpsertKeepsUnique(s, added);
  }

  lemma SameRowKey(p: Position, p': Position)
    requires p.exchange == p'.exchange && p.symbol == p'.symbol && p.product == p'.product
    ensures RowKey(p) == RowKey(p')
  {
  }

  lemma OrderKeepsKeys(s: Ledger, req: Request)
    requires Keyed(s)
    ensures Keyed(AfterFill(s, req))
  {
    hide OrderKey, Lookup, RowKey, Normalize, ToUpper, ReportedEquity;
    if DecisionOn(s, req).Accept? {
      AcceptedOrderKeepsKeys(s, req);
    } else {
      RejectionMovesNothing(s, req);
    }
  }

  // ---------- marks ----------

  /** A mark changes last price and unrealized P&L of its row; quantities, averages, cash,
      orders, trades and every other row stay. */
  lemma MarksMoveNoCost(s: Ledger, seen: Position, ltp: real, k: Key)
    ensures var s' := AfterMark(s, seen, ltp);
            && s' == s.(positions := s'.positions) && |s'.positions| == |s.positions|
            && (forall i :: 0 <= i < |s.positions| ==>
                  && RowKey(s'.positions[i]) == RowKey(s.positions[i])
                  && s'.positions[i] == s.positions[i].(lastPrice := s'.positions[i].lastPrice,
                                                        unrealizedPnL := s'.positions[i].unrealizedPnL)
                  && (s.positions[i].id != seen.id ==> s'.positions[i] == s.positions[i]))
            && Sum(s'.positions, CostOf) == Sum(s.positions, CostOf)
            && QuantityOf(Lookup(s'.positions, k)) == QuantityOf(Lookup(s.positions, k))
            && AvgOf(Lookup(s'.positions, k)) == AvgOf(Lookup(s.positions, k))
  {
    hide ToUpper, FindRow, UnrealizedPnL, Sum;
    var s' := AfterMark(s, seen, ltp);
    FindRowByKeys(s.positions, s'.positions, k);
    EqualColumnsEqualSums(s.positions, s'.positions, CostOf);
  }

  lemma {:induction false} EqualColumnsEqualSums(rows: seq<Position>, rows': seq<Position>, f: Position -> real)
    requires |rows| == |rows'|
    requires forall i :: 0 <= i < |rows| ==> f(rows[i]) == f(rows'[i])
    ensures Sum(rows, f) == Sum(rows', f)
  {
    if rows != [] {
      EqualColumnsEqualSums(Init(rows), Init(rows'), f);
    }
  }

  lemma MarkKeepsInv(w: World, seen: Position, ltp: real)
    requires Inv(w)
    ensures Inv(w.(ledger := AfterMark(w.ledger, seen, ltp)))
  {
    hide ToUpper, Normalize, Lookup, OrderKey;
    var s, s' := w.ledger, AfterMark(w.ledger, seen, ltp);
    MarksMoveNoCost(s, seen, ltp, Key("", "", ""));
    forall k ensures Replayed(s', k) {
      assert Replayed(s, k);
      MarksMoveNoCost(s, seen, ltp, k);
      assert KeyTrades(s', k) == KeyTrades(s, k);
    }
  }

  // ---------- runs ----------

  lemma RunNothing(w: World)
    ensures Run(w, []) == w
  {
  }

  lemma RunMore(w: World, events: seq<Event>, e: Event)
    ensures Run(w, events + [e]) == Step(Run(w, events), e)
  {
    assert Init(events + [e]) == events;
  }

  lemma StartsInInv(startingBalance: real)
    ensures Inv(Start(startingBalance)) && Balanced(Start(startingBalance).ledger)
  {
  }

  lemma OrderKeepsInv(w: World, req: Request)
    requires Inv(w)
    ensures Inv(w.(ledger := AfterFill(w.ledger, req)))
  {
    OrderKeepsKeys(w.ledger, req);
    OrderKeepsPairs(w.ledger, req);
    forall k ensures Replayed(AfterFill(w.ledger, req), k) {
      OrderKeepsReplay(w.ledger, req, k);
    }
    assert AfterFill(w.ledger, req).nextId >= w.ledger.nextId;
  }

  /** Ledgers that differ only in balances and snapshots replay alike. */
  lemma SameTablesReplayAlike(s: Ledger, s': Ledger)
    requires s'.positions == s.positions && s'.orders == s.orders && s'.trades == s.trades
    requires forall k :: Replayed(s, k)
    ensures forall k :: Replayed(s', k)
  {
    forall k ensures Replayed(s', k) {
      assert Replayed(s, k);
      assert KeyTrades(s', k) == KeyTrades(s, k);
    }
  }

  lemma ReadKeepsInv(w: World)
    requires Inv(w)
    ensures Inv(Step(w, SweepRead))
  {
    hide Lookup, OrderKey, RowKey, KeyTrades;
    var open := Filter(w.ledger.positions, IsOpen);
    FilterMembers(w.ledger.positions, IsOpen);
    assert forall i :: 0 <= i < |open| ==> open[i] in open;
  }

  lemma ResetKeepsInv(w: World, newBalance: Option<real>)
    requires Inv(w)
    ensures Inv(Step(w, ResetTo(newBalance)))
  {
    var s' := AfterReset(w.ledger, newBalance);
    assert forall k :: KeyLog(s', k) == [] && Lookup(s'.positions, k) == None;
    assert forall k :: Replayed(s', k);
  }

  lemma RebalancedKeepsInv(w: World, s': Ledger)
    requires Inv(w)
    requires s'.positions == w.ledger.positions && s'.orders == w.ledger.orders && s'.trades == w.ledger.trades
    requires s'.nextId == w.ledger.nextId
    ensures Inv(w.(ledger := s'))
  {
    SameTablesReplayAlike(w.ledger, s');
    hide Replayed;
  }

  lemma StepKeepsInv(w: World, e: Event)
    requires Inv(w)
    ensures Inv(Step(w, e))
  {
    hide Keyed, Paired, Replayed, AfterMark, AfterFill;
    match e
    case PlaceOrder(req) => OrderKeepsInv(w, req);
    case ResetTo(newBalance) => ResetKeepsInv(w, newBalance);
    case EditRead(newBalance) =>
    case EditWrite(edit) =>
      if edit < |w.edits| { RebalancedKeepsInv(w, EditWritten(w.ledger, w.edits[edit])); }
    case SweepRead => ReadKeepsInv(w);
    case SweepWrite(copy, ltp) =>
      if copy < |w.copies| { MarkKeepsInv(w, w.copies[copy], ltp); }
    case Snapshot => RebalancedKeepsInv(w, Snapshotted(w.ledger));
  }

  /** Every event of every run keeps the invariant. */
  lemma {:induction false} RunKeepsInv(w: World, events: seq<Event>)
    requires Inv(w)
    ensures Inv(Run(w, events))
  {
    if events != [] {
      RunKeepsInv(w, Init(events));
      StepKeepsInv(Run(w, Init(events)), Last(events));
    }
  }

  // ---------- the cost-basis balance ----------

  /** What writing back an edit does to cash minus starting balance. */
  function EditShift(s: Ledger, edit: Edit): real {
    (edit.cashBalance - edit.startingBalance) - (s.cashBalance - s.startingBalance)
  }

  /** The imbalance after one more event: only a late edit shifts it, and a reset clears it. */
  function NextImbalance(w: World, e: Event, before: real): real {
    match e
    case ResetTo(_) => 0.0
    case EditWrite(edit) => if edit < |w.edits| then before + EditShift(w.ledger, w.edits[edit]) else before
    case _ => before
  }

  lemma StepImbalance(w: World, e: Event)
    requires Keyed(w.ledger)
    ensures Imbalance(Step(w, e).ledger) == NextImbalance(w, e, Imbalance(w.ledger))
  {
    hide Keyed, AfterFill, AfterMark, ReportedEquity, CostOf, Filter;
    match e
    case PlaceOrder(req) => OrderKeepsBalance(w.ledger, req);
    case SweepWrite(copy, ltp) =>
      if copy < |w.copies| { MarksMoveNoCost(w.ledger, w.copies[copy], ltp, Key("", "", "")); }
    case _ =>
  }

  /** What the edits of the run have shifted since the last reset. */
  function EditDrift(w: World, events: seq<Event>): real {
    if events == [] then 0.0
    else NextImbalance(Run(w, Init(events)), Last(events), EditDrift(w, Init(events)))
  }

  lemma {:induction false} RunImbalance(w: World, events: seq<Event>)
    requires Inv(w) && Balanced(w.ledger)
    ensures Imbalance(Run(w, events).ledger) == EditDrift(w, events)
  {
    if events != [] {
      hide Step, Imbalance, NextImbalance, Keyed, Paired, Replayed;
      RunImbalance(w, Init(events));
      RunKeepsInv(w, Init(events));
      StepImbalance(Run(w, Init(events)), Last(events));
    }
  }
}
