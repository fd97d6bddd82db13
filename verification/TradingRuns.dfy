/** Trading laws over whole runs of an account: friction, averages, lot drift, closing, and
    the sweep race that makes reported equity wrong. */
module TradingRuns {
  import opened Common
  import opened RealArithmetic
  import opened PaperText
  import opened PaperEngine
  import opened FillLaws
  import opened PaperLedger
  import opened LedgerInvariant
  import opened LedgerLaws

  // ---------- friction ----------

  function TradedQuantity(t: Trade): real { t.quantity }

  function Volume(s: Ledger): real {
    Sum(s.trades, TradedQuantity)
  }

  datatype Terms = Terms(key: Key, price: real, slippageBps: real, feeBps: real)

  /** Every order of the run is on one key, at one quoted price and one fee schedule, and
      no reset or account edit is written. Sweeps may interleave. */
  predicate OnTerms(e: Event, terms: Terms) {
    match e
    case PlaceOrder(req) =>
      RequestKey(req) == terms.key && req.price == terms.price &&
      req.slippageBps == terms.slippageBps && req.feeBps == terms.feeBps
    case ResetTo(_) => false
    case EditWrite(_) => false
    case _ => true
  }

  function MidRate(terms: Terms): real {
    terms.price * (1.0 + terms.slippageBps / 10000.0 * (terms.feeBps / 10000.0))
  }

  function FrictionRate(terms: Terms): real {
    terms.price * (terms.slippageBps / 10000.0 + terms.feeBps / 10000.0)
  }

  /** Cash, plus the position at the middle rate, plus the friction paid so far. */
  function Potential(s: Ledger, terms: Terms): real {
    s.cashBalance + MidRate(terms) * QuantityOf(At(s, terms.key)) + FrictionRate(terms) * Volume(s)
  }

  lemma FillCash(delta: real, terms: Terms)
    requires delta != 0.0 && terms.slippageBps >= 0.0
    ensures var p := SlippedPrice(terms.price, terms.slippageBps, delta);
            Notional(delta, p) + Fee(p, Abs(delta), terms.feeBps) ==
            MidRate(terms) * delta + FrictionRate(terms) * Abs(delta)
  {
    var price, slip, fee := terms.price, terms.slippageBps / 10000.0, terms.feeBps / 10000.0;
    var p := SlippedPrice(price, terms.slippageBps, delta);
    FeeAsFraction(p, Abs(delta), terms.feeBps);
    if delta > 0.0 {
      assert p == price * (1.0 + slip);
      BuyCash(price, slip, fee, delta);
    } else {
      assert p == price * (1.0 - slip);
      SellCash(price, slip, fee, -delta);
      Negations(price * (1.0 - slip), -delta);
      Negations(price * (1.0 + slip * fee), -delta);
    }
  }

  lemma PotentialAlgebra(cash: real, mid: real, friction: real, q: real, v: real, d: real, n: real)
    ensures (cash - (mid * d + friction * n)) + mid * (q + d) + friction * (v + n) == cash + mid * q + friction * v
  {
    Distribute(mid, q, d);
    Distribute(friction, v, n);
  }

  lemma FeeAsFraction(p: real, n: real, feeBps: real)
    ensures Fee(p, n, feeBps) == p * n * (feeBps / 10000.0)
  {
  }

  lemma BuyCash(price: real, slip: real, fee: real, n: real)
    ensures n * (price * (1.0 + slip)) + price * (1.0 + slip) * n * fee ==
            price * (1.0 + slip * fee) * n + price * (slip + fee) * n
  {
    var x := price * n;
    assert n * (price * (1.0 + slip)) == x * (1.0 + slip);
    assert price * (1.0 + slip) * n * fee == x * (1.0 + slip) * fee;
    assert price * (1.0 + slip * fee) * n == x * (1.0 + slip * fee);
    assert price * (slip + fee) * n == x * (slip + fee);
    assert x * (1.0 + slip) + x * (1.0 + slip) * fee == x * (1.0 + slip * fee) + x * (slip + fee);
  }

  lemma SellCash(price: real, slip: real, fee: real, n: real)
    ensures -(n * (price * (1.0 - slip))) + price * (1.0 - slip) * n * fee ==
            -(price * (1.0 + slip * fee) * n) + price * (slip + fee) * n
  {
    var x := price * n;
    assert n * (price * (1.0 - slip)) == x * (1.0 - slip);
    assert price * (1.0 - slip) * n * fee == x * (1.0 - slip) * fee;
    assert price * (1.0 + slip * fee) * n == x * (1.0 + slip * fee);
    assert price * (slip + fee) * n == x * (slip + fee);
    assert -(x * (1.0 - slip)) + x * (1.0 - slip) * fee == -(x * (1.0 + slip * fee)) + x * (slip + fee);
  }

  /** What an accepted order moves: cash, the quantity at its key, and volume. */
  lemma AcceptedMoves(s: Ledger, req: Request)
    requires Keyed(s) && DecisionOn(s, req).Accept?
    ensures var s', d := AfterFill(s, req), DecisionOn(s, req);
            && d.delta != 0.0 && d.price == SlippedPrice(req.price, req.slippageBps, d.delta)
            && s'.cashBalance == s.cashBalance - (Notional(d.delta, d.price) + Fee(d.price, Abs(d.delta), req.feeBps))
            && QuantityOf(At(s', RequestKey(req))) == QuantityOf(At(s, RequestKey(req))) + d.delta
            && Volume(s') == Volume(s) + Abs(d.delta)
  {
    hide AfterFill, OutcomeOf, FillOf, Settle, At, Fee, Notional, UnrealizedPnL, Upsert, Keyed, SlippedPrice, ValidateOrder;
    AcceptedEffect(s, req);
    FillHealsItsRow(s, req);
    SumAppend(s.trades, OutcomeOf(s, req).trade.value, TradedQuantity);
  }

  lemma OrderKeepsPotential(s: Ledger, req: Request, terms: Terms)
    requires Keyed(s) && OnTerms(PlaceOrder(req), terms) && terms.slippageBps >= 0.0
    ensures Potential(AfterFill(s, req), terms) == Potential(s, terms)
  {
    hide AfterFill, OutcomeOf, DecisionOn, At, Fee, Notional, Keyed, MidRate, FrictionRate, SlippedPrice, RequestKey, Volume;
    if DecisionOn(s, req).Accept? {
      var d := DecisionOn(s, req);
      AcceptedMoves(s, req);
      FillCash(d.delta, terms);
      PotentialAlgebra(s.cashBalance, MidRate(terms), FrictionRate(terms),
                       QuantityOf(At(s, terms.key)), Volume(s), d.delta, Abs(d.delta));
    } else {
      RejectionMovesNothing(s, req);
      SameTablesSamePotential(s, AfterFill(s, req), terms);
    }
  }

  lemma SameTablesSamePotential(s: Ledger, s': Ledger, terms: Terms)
    requires s'.cashBalance == s.cashBalance && s'.positions == s.positions && s'.trades == s.trades
    ensures Potential(s', terms) == Potential(s, terms)
  {
  }

  lemma StepKeepsPotential(w: World, e: Event, terms: Terms)
    requires Keyed(w.ledger) && OnTerms(e, terms) && terms.slippageBps >= 0.0
    ensures Potential(Step(w, e).ledger, terms) == Potential(w.ledger, terms)
    ensures Volume(Step(w, e).ledger) >= Volume(w.ledger)
  {
    hide Lookup, AfterFill, AfterMark, RequestKey, Keyed, MidRate, FrictionRate, DecisionOn, Sum;
    match e
    case PlaceOrder(req) =>
      OrderKeepsPotential(w.ledger, req, terms);
      if DecisionOn(w.ledger, req).Accept? {
        AcceptedMoves(w.ledger, req);
      } else {
        RejectionMovesNothing(w.ledger, req);
      }
    case SweepWrite(copy, ltp) =>
      if copy < |w.copies| { MarksMoveNoCost(w.ledger, w.copies[copy], ltp, terms.key); }
    case _ =>
  }

  lemma {:induction false} RunKeepsPotential(w: World, events: seq<Event>, terms: Terms)
    requires Inv(w) && terms.slippageBps >= 0.0
    requires forall i :: 0 <= i < |events| ==> OnTerms(events[i], terms)
    ensures Potential(Run(w, events).ledger, terms) == Potential(w.ledger, terms)
    ensures Volume(Run(w, events).ledger) >= Volume(w.ledger)
  {
    if events != [] {
      hide Step, Potential, Volume, Keyed, Paired, Replayed, OnTerms;
      RunKeepsPotential(w, Init(events), terms);
      RunKeepsInv(w, Init(events));
      StepKeepsPotential(Run(w, Init(events)), Last(events), terms);
    }
  }

  /** From flat to flat on one key at one quoted price, however the run extends, flips or
      closes, cash pays exactly the slippage and fee fractions of the quoted value traded. */
  lemma RoundTripCostsItsFriction(w: World, events: seq<Event>, terms: Terms)
    requires Inv(w) && terms.slippageBps >= 0.0
    requires forall i :: 0 <= i < |events| ==> OnTerms(events[i], terms)
    requires QuantityOf(At(w.ledger, terms.key)) == 0.0
    requires QuantityOf(At(Run(w, events).ledger, terms.key)) == 0.0
    ensures var s' := Run(w, events).ledger;
            s'.cashBalance - w.ledger.cashBalance ==
            -(terms.price * (Volume(s') - Volume(w.ledger)) * ((terms.slippageBps + terms.feeBps) / 10000.0))
    ensures terms.price >= 0.0 && terms.feeBps >= 0.0 ==>
              Run(w, events).ledger.cashBalance <= w.ledger.cashBalance
  {
    hide Run, Inv, Volume, At, OnTerms, MidRate;
    RunKeepsPotential(w, events, terms);
    FrictionAlgebra(terms, Volume(w.ledger), Volume(Run(w, events).ledger));
  }

  lemma FrictionAlgebra(terms: Terms, v: real, v': real)
    ensures FrictionRate(terms) * v - FrictionRate(terms) * v' ==
            -(terms.price * (v' - v) * ((terms.slippageBps + terms.feeBps) / 10000.0))
    ensures v <= v' && terms.price >= 0.0 && terms.slippageBps + terms.feeBps >= 0.0 ==>
              FrictionRate(terms) * v <= FrictionRate(terms) * v'
  {
    var r := (terms.slippageBps + terms.feeBps) / 10000.0;
    assert FrictionRate(terms) == terms.price * r;
    Regroup(terms.price, r, v, v');
    if v <= v' && terms.price >= 0.0 && r >= 0.0 {
      ProductMonotone(0.0, terms.price, v' - v);
      ProductMonotone(0.0, terms.price * (v' - v), r);
    }
  }

  lemma Regroup(p: real, r: real, v: real, v': real)
    ensures p * r * v' - p * r * v == p * (v' - v) * r
  {
  }

  // ---------- order splitting on the account ----------

  /** What fills on k move: its position and the account's totals. */
  function BookAt(s: Ledger, k: Key): Book {
    Book(QuantityOf(At(s, k)), AvgOf(At(s, k)), Sum(s.trades, RealizedOf), Sum(s.trades, FeesOf), s.cashBalance)
  }

  /** An accepted order is one fill of the book at its key. */
  lemma AcceptedOrderFillsTheBook(s: Ledger, req: Request)
    requires Keyed(s) && DecisionOn(s, req).Accept?
    ensures var d, k := DecisionOn(s, req), RequestKey(req);
            d.delta != 0.0 && BookAt(AfterFill(s, req), k) == FillBook(BookAt(s, k), d.delta, d.price, req.feeBps)
  {
    hide AfterFill, OutcomeOf, DecisionOn, FillOf, Settle, FindRow, Fee, Notional, UnrealizedPnL, RowKey, RequestKey, NewRow;
    AcceptedEffect(s, req);
    NewRowKey(s, req);
    UpsertMovesOneKey(s.positions, NewRow(s, req), RequestKey(req));
    SumAppend(s.trades, OutcomeOf(s, req).trade.value, RealizedOf);
    SumAppend(s.trades, OutcomeOf(s, req).trade.value, FeesOf);
  }

  function PlaceAll(s: Ledger, reqs: seq<Request>): Ledger {
    if reqs == [] then s else AfterFill(PlaceAll(s, Init(reqs)), Last(reqs))
  }

  /** The order with another quantity. */
  function Resized(whole: Request, quantity: real): Request {
    whole.(quantity := quantity)
  }

  function Signed(whole: Request, quantity: real): real {
    if whole.side.Buy? then quantity else -quantity
  }

  function Pieces(whole: Request, quantities: seq<real>): seq<Request> {
    if quantities == [] then []
    else Pieces(whole, Init(quantities)) + [Resized(whole, Last(quantities))]
  }

  function Deltas(whole: Request, quantities: seq<real>): seq<real> {
    if quantities == [] then []
    else Deltas(whole, Init(quantities)) + [Signed(whole, Last(quantities))]
  }

  /** The price every fill of the order gets: slippage depends only on its side. */
  function PiecePrice(whole: Request): real {
    SlippedPrice(whole.price, whole.slippageBps, Signed(whole, 1.0))
  }

  /** A buy or sell that meets every constraint is filled whatever the account holds. */
  predicate Fillable(req: Request) {
    (req.side.Buy? || req.side.Sell?) && req.quantity > 0.0 && ValidateOrder(req) == None
  }

  lemma FillableIsFilled(s: Ledger, req: Request)
    requires req.side.Buy? || req.side.Sell?
    ensures Fillable(req) <==> DecisionOn(s, req).Accept?
  {
    hide ValidateOrder, Lookup;
  }

  lemma DeltasGrow(whole: Request, quantities: seq<real>)
    requires quantities != []
    ensures var before, d := Deltas(whole, Init(quantities)), Signed(whole, Last(quantities));
            && Deltas(whole, quantities) == before + [d]
            && Total(Deltas(whole, quantities)) == Total(before) + d
  {
    hide Signed;
    var before, d := Deltas(whole, Init(quantities)), Signed(whole, Last(quantities));
    assert Init(before + [d]) == before;
  }

  lemma {:induction false} DeltasAt(whole: Request, quantities: seq<real>)
    ensures |Deltas(whole, quantities)| == |quantities|
    ensures forall i :: 0 <= i < |quantities| ==> Deltas(whole, quantities)[i] == Signed(whole, quantities[i])
    ensures Total(Deltas(whole, quantities)) == Signed(whole, Total(quantities))
  {
    if quantities == [] {
      SignedAdds(whole, 0.0, 0.0);
    } else {
      hide Signed, Deltas;
      DeltasAt(whole, Init(quantities));
      DeltasGrow(whole, quantities);
      SignedAdds(whole, Total(Init(quantities)), Last(quantities));
    }
  }

  lemma SignedAdds(whole: Request, n: real, n': real)
    ensures Signed(whole, n + n') == Signed(whole, n) + Signed(whole, n')
  {
  }

  lemma PieceIsOneFill(s: Ledger, whole: Request, n: real)
    requires Keyed(s) && Fillable(Resized(whole, n))
    ensures var s', k := AfterFill(s, Resized(whole, n)), RequestKey(whole);
            && Keyed(s')
            && BookAt(s', k) == FillBook(BookAt(s, k), Signed(whole, n), PiecePrice(whole), whole.feeBps)
  {
    FillableIsFilled(s, Resized(whole, n));
    assert RequestKey(Resized(whole, n)) == RequestKey(whole);
    assert DecisionOn(s, Resized(whole, n)) == Accept(Signed(whole, n), PiecePrice(whole));
    hide AfterFill, BookAt, FillBook, RequestKey, Keyed, DecisionOn, PiecePrice, Fillable;
    AcceptedOrderFillsTheBook(s, Resized(whole, n));
    OrderKeepsKeys(s, Resized(whole, n));
  }

  lemma {:induction false} PiecesFillTheBook(s: Ledger, whole: Request, quantities: seq<real>)
    requires Keyed(s)
    requires forall i :: 0 <= i < |quantities| ==> Fillable(Resized(whole, quantities[i]))
    requires forall i :: 0 <= i < |Deltas(whole, quantities)| ==> Deltas(whole, quantities)[i] != 0.0
    ensures Keyed(PlaceAll(s, Pieces(whole, quantities)))
    ensures BookAt(PlaceAll(s, Pieces(whole, quantities)), RequestKey(whole)) ==
            FillBookAll(BookAt(s, RequestKey(whole)), Deltas(whole, quantities), PiecePrice(whole), whole.feeBps)
  {
    hide AfterFill, Keyed, BookAt, FillBook, PiecePrice, RequestKey, Fillable;
    if quantities != [] {
      var init := Init(quantities);
      assert Init(Pieces(whole, quantities)) == Pieces(whole, init);
      assert Init(Deltas(whole, quantities)) == Deltas(whole, init);
      PiecesFillTheBook(s, whole, init);
      PieceIsOneFill(PlaceAll(s, Pieces(whole, init)), whole, Last(quantities));
    }
  }

  lemma PiecesHaveTheSide(whole: Request, quantities: seq<real>)
    requires forall i :: 0 <= i < |quantities| ==> Fillable(Resized(whole, quantities[i]))
    ensures OneSided(Deltas(whole, quantities))
    ensures forall i :: 0 <= i < |Deltas(whole, quantities)| ==> Deltas(whole, quantities)[i] != 0.0
  {
    hide ValidateOrder;
    DeltasAt(whole, quantities);
    forall i | 0 <= i < |quantities| ensures quantities[i] > 0.0 {
      assert Fillable(Resized(whole, quantities[i]));
    }
    hide Fillable, Deltas;
  }

  /** Splitting an order into fillable pieces, placed one after another on the account, ends
      with the same quantity, average, total realized P&L, total fees and cash as placing
      the whole, wherever the pieces land on or cross zero. */
  lemma SplittingOnTheAccount(s: Ledger, whole: Request, quantities: seq<real>)
    requires Keyed(s) && quantities != [] && whole.quantity == Total(quantities)
    requires Fillable(whole) && forall i :: 0 <= i < |quantities| ==> Fillable(Resized(whole, quantities[i]))
    ensures BookAt(PlaceAll(s, Pieces(whole, quantities)), RequestKey(whole)) ==
            BookAt(AfterFill(s, whole), RequestKey(whole))
  {
    hide AfterFill, BookAt, FillBook, FillBookAll, RequestKey, Keyed, PiecePrice, PlaceAll, Pieces, Total, Fillable, Deltas,
      ValidateOrder;
    PiecesHaveTheSide(whole, quantities);
    DeltasAt(whole, quantities);
    PiecesFillTheBook(s, whole, quantities);
    SplittingAnOrder(BookAt(s, RequestKey(whole)), Deltas(whole, quantities), PiecePrice(whole), whole.feeBps);
    assert Resized(whole, whole.quantity) == whole;
    PieceIsOneFill(s, whole, whole.quantity);
  }

  // ---------- averages ----------

  predicate PricesPositive(s: Ledger) {
    forall i :: 0 <= i < |s.trades| ==> s.trades[i].price > 0.0
  }

  /** Slippage below 100 percent. */
  predicate SlippageBounded(e: Event) {
    e.PlaceOrder? ==> e.req.slippageBps < 10000.0
  }

  lemma SlippedPricePositive(price: real, slippageBps: real, delta: real)
    requires price > 0.0 && slippageBps < 10000.0
    ensures SlippedPrice(price, slippageBps, delta) > 0.0
  {
    ProductStrict(0.0, 1.0 - slippageBps / 10000.0, price);
    if slippageBps > 0.0 {
      ProductStrict(0.0, 1.0 + slippageBps / 10000.0, price);
    }
  }

  lemma StepKeepsPricesPositive(w: World, e: Event)
    requires PricesPositive(w.ledger) && SlippageBounded(e)
    ensures PricesPositive(Step(w, e).ledger)
  {
    hide Lookup, ReportedEquity, Settle, UnrealizedPnL, Upsert, AfterFill, FillOf;
    if e.PlaceOrder? {
      var s, req := w.ledger, e.req;
      if DecisionOn(s, req).Accept? {
        AcceptedEffect(s, req);
        SlippedPricePositive(req.price, req.slippageBps, DecisionOn(s, req).delta);
        assert OutcomeOf(s, req).trade.value.price == DecisionOn(s, req).price;
      } else {
        RejectionMovesNothing(s, req);
      }
    }
  }

  lemma {:induction false} RunKeepsPricesPositive(w: World, events: seq<Event>)
    requires PricesPositive(w.ledger)
    requires forall i :: 0 <= i < |events| ==> SlippageBounded(events[i])
    ensures PricesPositive(Run(w, events).ledger)
  {
    if events != [] {
      RunKeepsPricesPositive(w, Init(events));
      StepKeepsPricesPositive(Run(w, Init(events)), Last(events));
    }
  }

  lemma KeyLogPricesPositive(s: Ledger, k: Key)
    requires PricesPositive(s)
    ensures forall i :: 0 <= i < |KeyLog(s, k)| ==> KeyLog(s, k)[i].price > 0.0
  {
    var carries := t => CarriesKey(s.orders, k, t);
    var ts := Filter(s.trades, carries);
    assert ts == KeyTrades(s, k);
    FilterMembers(s.trades, carries);
    forall i | 0 <= i < |ts| ensures KeyLog(s, k)[i].price > 0.0 {
      assert ts[i] in ts && ts[i] in s.trades;
      assert KeyLog(s, k)[i] == FillOf(ts[i]);
    }
  }

  /** Over every run with slippage below 100 percent a position's average is 0 exactly when
      it is flat; otherwise it is positive and lies between the least and the greatest fill
      price at which the position was entered since it last opened or flipped. */
  lemma AverageWithinEntryPrices(startingBalance: real, events: seq<Event>, k: Key)
    requires forall i :: 0 <= i < |events| ==> SlippageBounded(events[i])
    ensures var s := Run(Start(startingBalance), events).ledger;
            var row, log := At(s, k), KeyLog(s, k);
            && Executed(log)
            && (AvgOf(row) == 0.0 <==> QuantityOf(row) == 0.0)
            && (QuantityOf(row) != 0.0 ==>
                  EntryPrices(log) != [] &&
                  0.0 < Least(EntryPrices(log)) <= AvgOf(row) <= Greatest(EntryPrices(log)))
  {
    var s := Run(Start(startingBalance), events).ledger;
    StartsInInv(startingBalance);
    RunKeepsInv(Start(startingBalance), events);
    assert Replayed(s, k);
    RunKeepsPricesPositive(Start(startingBalance), events);
    hide Run, KeyLog, KeyTrades, Sum, Replay, EntryPrices, Lookup;
    KeyLogPricesPositive(s, k);
    AverageBetweenEntries(KeyLog(s, k));
  }

  // ---------- lot drift and closing ----------

  predicate LotFill(s: Ledger, e: Event, k: Key) {
    && e.PlaceOrder? && RequestKey(e.req) == k && !e.req.side.Close?
    && DecisionOn(s, e.req).Accept?
  }

  /** How many non-CLOSE fills k has had since it was last flat, after one more event. */
  function NextLotFills(w: World, e: Event, k: Key, n: nat): nat {
    if QuantityOf(At(Step(w, e).ledger, k)) == 0.0 then 0
    else if LotFill(w.ledger, e, k) then n + 1
    else n
  }

  function LotFills(w: World, events: seq<Event>, k: Key): nat {
    if events == [] then 0
    else NextLotFills(Run(w, Init(events)), Last(events), k, LotFills(w, Init(events), k))
  }

  predicate LotSized(e: Event, k: Key, lot: real) {
    e.PlaceOrder? && RequestKey(e.req) == k ==> e.req.lotSize == lot
  }

  /** One event changes k's quantity only by an accepted order on k or by a reset. */
  lemma StepQuantity(w: World, e: Event, k: Key)
    requires Keyed(w.ledger)
    ensures var q, q' := QuantityOf(At(w.ledger, k)), QuantityOf(At(Step(w, e).ledger, k));
            if e.PlaceOrder? && RequestKey(e.req) == k && DecisionOn(w.ledger, e.req).Accept? then
              q' == q + DecisionOn(w.ledger, e.req).delta
            else q' == q || q' == 0.0
  {
    hide AfterFill, AfterMark, OutcomeOf, DecisionOn, ReportedEquity, FindRow, RowKey, RequestKey, Settle;
    var s := w.ledger;
    match e
    case PlaceOrder(req) =>
      if DecisionOn(s, req).Accept? {
        FillHealsItsRow(s, req);
        AcceptedEffect(s, req);
        NewRowKey(s, req);
        UpsertMovesOneKey(s.positions, NewRow(s, req), k);
      } else {
        RejectionMovesNothing(s, req);
      }
    case SweepWrite(copy, ltp) =>
      if copy < |w.copies| { MarksMoveNoCost(s, w.copies[copy], ltp, k); }
    case _ =>
  }

  lemma ZeroIsWhole(lot: real)
    requires lot > 0.0
    ensures WithinOfInteger(0.0 / lot, 0.0)
  {
    assert NearBy(0.0 / lot, 0, 0.0);
  }

  lemma LotFillDrift(s: Ledger, req: Request, lot: real, n: nat)
    requires LotFill(s, PlaceOrder(req), RequestKey(req)) && req.lotSize == lot > 0.0
    requires WithinOfInteger(QuantityOf(At(s, RequestKey(req))) / lot, n as real * TOLERANCE)
    ensures WithinOfInteger((QuantityOf(At(s, RequestKey(req))) + DecisionOn(s, req).delta) / lot,
                            (n + 1) as real * TOLERANCE)
  {
    hide ValidateOrder, Lookup, IsMultiple, WithinOfInteger;
    var delta := DecisionOn(s, req).delta;
    assert Abs(delta) == req.quantity;
    DriftStep(QuantityOf(At(s, RequestKey(req))), delta, lot, n as real * TOLERANCE);
    assert n as real * TOLERANCE + TOLERANCE == (n + 1) as real * TOLERANCE;
  }

  ghost predicate LotsWithin(s: Ledger, k: Key, lot: real, n: nat)
    requires lot > 0.0
  {
    WithinOfInteger(QuantityOf(At(s, k)) / lot, n as real * TOLERANCE)
  }

  lemma StepDrift(w: World, e: Event, k: Key, lot: real, n: nat)
    requires Keyed(w.ledger) && lot > 0.0 && LotSized(e, k, lot) && LotsWithin(w.ledger, k, lot, n)
    ensures LotsWithin(Step(w, e).ledger, k, lot, NextLotFills(w, e, k, n))
  {
    hide Step, Keyed, WithinOfInteger, RequestKey, Decide, At;
    ZeroIsWhole(lot);
    StepQuantity(w, e, k);
    if LotFill(w.ledger, e, k) {
      LotFillDrift(w.ledger, e.req, lot, n);
    } else if e.PlaceOrder? && RequestKey(e.req) == k && DecisionOn(w.ledger, e.req).Accept? {
      CloseDelta(w.ledger, e.req);
    }
  }

  /** With one lot size, after n non-CLOSE fills since k was last flat its quantity is
      within n tolerances of a whole number of lots. */
  lemma {:induction false} LotDriftBound(w: World, events: seq<Event>, k: Key, lot: real)
    requires Inv(w) && lot > 0.0 && QuantityOf(At(w.ledger, k)) == 0.0
    requires forall i :: 0 <= i < |events| ==> LotSized(events[i], k, lot)
    ensures LotsWithin(Run(w, events).ledger, k, lot, LotFills(w, events, k))
  {
    if events == [] {
      ZeroIsWhole(lot);
    } else {
      hide Step, NextLotFills, LotsWithin, LotSized, Keyed, Paired, Replayed;
      LotDriftBound(w, Init(events), k, lot);
      RunKeepsInv(w, Init(events));
      StepDrift(Run(w, Init(events)), Last(events), k, lot, LotFills(w, Init(events), k));
    }
  }

  lemma CloseDelta(s: Ledger, req: Request)
    requires req.side.Close? && DecisionOn(s, req).Accept?
    ensures QuantityOf(At(s, RequestKey(req))) + DecisionOn(s, req).delta == 0.0
  {
  }

  /** A filled CLOSE leaves exactly nothing, and any CLOSE on that key right after it is
      rejected, moving nothing. */
  lemma CloseFlattensAndThenIsRejected(s: Ledger, close: Request, again: Request)
    requires Keyed(s) && close.side.Close? && again.side.Close?
    requires RequestKey(again) == RequestKey(close) && DecisionOn(s, close).Accept?
    ensures var s' := AfterFill(s, close);
            && QuantityOf(At(s', RequestKey(close))) == 0.0 && AvgOf(At(s', RequestKey(close))) == 0.0
            && DecisionOn(s', again).Refuse?
            && AfterFill(s', again).trades == s'.trades && AfterFill(s', again).positions == s'.positions
  {
    hide AfterFill, OutcomeOf, ReportedEquity, Normalize, FindRow, UnrealizedPnL, ValidateOrder, RequestKey;
    CloseDelta(s, close);
    AcceptedEffect(s, close);
    NewRowKey(s, close);
    UpsertMovesOneKey(s.positions, NewRow(s, close), RequestKey(close));
    RejectionMovesNothing(AfterFill(s, close), again);
  }

  // ---------- the sweep race, concretely ----------

  function MarketOrder(side: Side, quantity: real, price: real): Request {
    Request("NSE", "SBIN", "MIS", side, Market, quantity, price, 0.0, 0.0, 0.0, 0.0)
  }

  /** Buy 10 at 100; a sweep reads the row; the position closes at 100; the sweep then
      writes its mark at 110. */
  const RACE: seq<Event> := [
    PlaceOrder(MarketOrder(Buy, 10.0, 100.0)), SweepRead,
    PlaceOrder(MarketOrder(Close, 0.0, 100.0)), SweepWrite(0, 110.0)]

  lemma RaceSteps(startingBalance: real)
    ensures Run(Start(startingBalance), RACE[..3]) == Step(Step(Step(Start(startingBalance), RACE[0]), RACE[1]), RACE[2])
    ensures Run(Start(startingBalance), RACE) == Step(Run(Start(startingBalance), RACE[..3]), RACE[3])
  {
    hide Step, Start, MarketOrder;
    var w := Start(startingBalance);
    assert RACE[..1] == [] + [RACE[0]] && RACE[..2] == RACE[..1] + [RACE[1]];
    assert RACE[..3] == RACE[..2] + [RACE[2]] && RACE == RACE[..3] + [RACE[3]];
    RunMore(w, [], RACE[0]);
    RunMore(w, RACE[..1], RACE[1]);
    RunMore(w, RACE[..2], RACE[2]);
    RunMore(w, RACE[..3], RACE[3]);
  }

  /** After the buy there is one row of 10 at 100, and the sweep copies it. */
  lemma RaceCopiesTheRow(startingBalance: real)
    ensures var w := Step(Step(Start(startingBalance), RACE[0]), RACE[1]);
            && |w.ledger.positions| == 1 && w.copies == w.ledger.positions
            && w.ledger.positions[0].quantity == 10.0 && w.ledger.positions[0].avgEntryPrice == 100.0
            && RowKey(w.ledger.positions[0]) == RequestKey(MarketOrder(Close, 0.0, 100.0))
  {
    var s, req := Opened(startingBalance), MarketOrder(Buy, 10.0, 100.0);
    FirstBuy(startingBalance);
    hide AfterFill, NewRow, RequestKey, RowKey;
    var rows := AfterFill(s, req).positions;
    assert Init(rows) == [];
    assert Filter(rows, IsOpen) == rows;
    assert RequestKey(req) == RequestKey(MarketOrder(Close, 0.0, 100.0)) by {
      SameKey(req, MarketOrder(Close, 0.0, 100.0));
    }
  }

  lemma SameKey(req: Request, req': Request)
    requires req.exchange == req'.exchange && req.symbol == req'.symbol && req.product == req'.product
    ensures RequestKey(req) == RequestKey(req')
  {
  }

  lemma FirstBuy(startingBalance: real)
    ensures var s, req := Opened(startingBalance), MarketOrder(Buy, 10.0, 100.0);
            var rows := AfterFill(s, req).positions;
            && |rows| == 1 && rows[0].quantity == 10.0 && rows[0].avgEntryPrice == 100.0
            && RowKey(rows[0]) == RequestKey(req)
  {
    var s, req := Opened(startingBalance), MarketOrder(Buy, 10.0, 100.0);
    assert s.positions == [];
    assert Lookup(s.positions, RequestKey(req)) == None;
    assert DecisionOn(s, req) == Accept(10.0, 100.0) by { hide RequestKey; }
    hide AfterFill, OutcomeOf, DecisionOn, Normalize, ToUpper, Lookup, NewRow, RowKey, RequestKey, UnrealizedPnL, Fee;
    AcceptedEffect(s, req);
    NewRowKey(s, req);
    OpeningAverage(0.0, 10.0, 100.0);
    assert AfterFill(s, req).positions == [NewRow(s, req)];
  }

  /** The close flattens that row, which keeps its id. */
  lemma RaceFlattensTheRow(startingBalance: real)
    ensures var w := Run(Start(startingBalance), RACE[..3]);
            && |w.ledger.positions| == 1 && |w.copies| == 1
            && w.ledger.positions[0].id == w.copies[0].id && !IsOpen(w.ledger.positions[0])
            && w.copies[0].avgEntryPrice == 100.0
  {
    var w := Step(Step(Start(startingBalance), RACE[0]), RACE[1]);
    RaceSteps(startingBalance);
    RaceCopiesTheRow(startingBalance);
    StartsInInv(startingBalance);
    StepKeepsInv(Start(startingBalance), RACE[0]);
    StepKeepsInv(Step(Start(startingBalance), RACE[0]), RACE[1]);
    var s, close := w.ledger, MarketOrder(Close, 0.0, 100.0);
    assert RowKey(s.positions[0]) == RequestKey(close);
    assert At(s, RequestKey(close)) == Some(s.positions[0]);
    assert DecisionOn(s, close) == Accept(-10.0, 100.0);
    hide AfterFill, OutcomeOf, DecisionOn, Normalize, ToUpper;
    AcceptedEffect(s, close);
  }

  /** The equity identity really fails under the race: a mark written after the close
      makes reported equity differ from cash plus market value. */
  lemma RaceBreaksReportedEquity(startingBalance: real)
    ensures var s := Run(Start(startingBalance), RACE).ledger;
            ReportedEquity(s) != s.cashBalance + Sum(s.positions, ValueOf)
  {
    hide Step, Run, Inv, Coherent, ReportedEquity, Start, IsOpen, MarketOrder, Sum;
    RaceSteps(startingBalance);
    RaceFlattensTheRow(startingBalance);
    RaceIsCoherentUntilTheWrite(startingBalance);
    LastWriteOfTheRace(Run(Start(startingBalance), RACE[..3]));
  }

  lemma LastWriteOfTheRace(w: World)
    requires Inv(w) && Coherent(w.ledger) && EquityError(w.ledger) == 0.0
    requires |w.ledger.positions| == 1 && |w.copies| == 1
    requires w.ledger.positions[0].id == w.copies[0].id && !IsOpen(w.ledger.positions[0])
    requires w.copies[0].avgEntryPrice == 100.0
    ensures var s := Step(w, RACE[3]).ledger;
            ReportedEquity(s) != s.cashBalance + Sum(s.positions, ValueOf)
  {
    hide Step, Inv, ReportedEquity, MarketOrder, Sum;
    assert RACE[3] == SweepWrite(0, 110.0);
    assert GapOf(w.ledger.positions[0]) == 0.0;
    StaleMarkOnFlattenedRow(w, 0, 0, 110.0);
  }

  lemma RaceIsCoherentUntilTheWrite(startingBalance: real)
    ensures var w := Run(Start(startingBalance), RACE[..3]);
            Inv(w) && Coherent(w.ledger) && EquityError(w.ledger) == 0.0
  {
    hide Run, Step, MarketOrder, ReportedEquity, TrueEquity, Inv, Coherent;
    StartsInInv(startingBalance);
    NothingIsStale(startingBalance);
    RunKeepsInv(Start(startingBalance), RACE[..3]);
    NoWritesAreCurrent(Start(startingBalance), RACE[..3]);
    CurrentRunIsCoherent(Start(startingBalance), RACE[..3]);
    EquityIsCashPlusMarketValue(startingBalance, RACE[..3]);
    NoEditsAreCurrent(Start(startingBalance), RACE[..3]);
    SameEquity(Run(Start(startingBalance), RACE[..3]).ledger);
  }

  lemma SameEquity(s: Ledger)
    requires ReportedEquity(s) == s.cashBalance + Sum(s.positions, ValueOf)
    ensures EquityError(s) == 0.0
  {
  }

  lemma NothingIsStale(startingBalance: real)
    ensures Coherent(Start(startingBalance).ledger)
  {
  }

  // ---------- a late edit, concretely ----------

  /** A label is edited: the account is read, a fill of 10 at 100 pays for its position, and
      the edit writes back the balances it read. */
  const LATE_EDIT: seq<Event> := [EditRead(None), PlaceOrder(MarketOrder(Buy, 10.0, 100.0)), EditWrite(0)]

  /** The fill is paid for, then its cash comes back: the position is kept and cash stands
      where it stood, so the cost-basis identity is off by what was paid. */
  lemma LateEditLosesTheFill(startingBalance: real)
    ensures var s := Run(Start(startingBalance), LATE_EDIT).ledger;
            && s.cashBalance == s.startingBalance == startingBalance
            && Sum(s.positions, CostOf) == 1000.0 && Sum(s.trades, RealizedOf) == Sum(s.trades, FeesOf) == 0.0
  {
    hide AfterFill, Run, MarketOrder, ReportedEquity;
    var w := Start(startingBalance);
    RunMore(w, [], LATE_EDIT[0]);
    RunNothing(w);
    RunMore(w, [LATE_EDIT[0]], LATE_EDIT[1]);
    RunMore(w, [LATE_EDIT[0], LATE_EDIT[1]], LATE_EDIT[2]);
    assert [] + [LATE_EDIT[0]] == [LATE_EDIT[0]];
    assert [LATE_EDIT[0]] + [LATE_EDIT[1]] == [LATE_EDIT[0], LATE_EDIT[1]];
    assert [LATE_EDIT[0], LATE_EDIT[1]] + [LATE_EDIT[2]] == LATE_EDIT;
    FirstBuy(startingBalance);
    FirstBuyTotals(startingBalance);
  }

  lemma FirstBuyTotals(startingBalance: real)
    ensures var s' := AfterFill(Opened(startingBalance), MarketOrder(Buy, 10.0, 100.0));
            && Sum(s'.positions, CostOf) == 1000.0
            && Sum(s'.trades, RealizedOf) == 0.0 && Sum(s'.trades, FeesOf) == 0.0
  {
    var s, req := Opened(startingBalance), MarketOrder(Buy, 10.0, 100.0);
    FirstBuy(startingBalance);
    assert s.positions == [] && s.trades == [];
    assert Lookup(s.positions, RequestKey(req)) == None;
    assert DecisionOn(s, req) == Accept(10.0, 100.0) by { hide RequestKey; }
    hide AfterFill, OutcomeOf, DecisionOn, Normalize, ToUpper, NewRow, RowKey, RequestKey, UnrealizedPnL, Settle;
    AcceptedEffect(s, req);
    OpeningAverage(0.0, 10.0, 100.0);
    var rows, t := AfterFill(s, req).positions, OutcomeOf(s, req).trade.value;
    assert rows == [rows[0]] && AfterFill(s, req).trades == [t];
    OneRowSum(rows[0], CostOf);
    OneRowSum(t, RealizedOf);
    OneRowSum(t, FeesOf);
  }

  // ---------- how long a stale flat row lasts ----------

  /** Events that are neither orders, resets nor writes of a copy of the row that was read
      before the run. */
  predicate LaterSweep(e: Event, copies: seq<Position>, rowId: nat) {
    match e
    case SweepWrite(copy, _) => copy < |copies| ==> copies[copy].id != rowId
    case PlaceOrder(_) => false
    case ResetTo(_) => false
    case _ => true
  }

  ghost predicate NeverCopied(copies: seq<Position>, read: nat, rowId: nat) {
    forall c :: read <= c < |copies| ==> copies[c].id != rowId
  }

  /** A flat row is never read by a later sweep, so whatever unrealized P&L it was left with
      stays in reported equity through all of them. Besides a fill or a reset, only a write
      of a copy read while the row was still open can change it. */
  lemma {:induction false} SweepsNeverHealFlatRows(w: World, events: seq<Event>, i: nat)
    requires Inv(w) && i < |w.ledger.positions| && !IsOpen(w.ledger.positions[i])
    requires forall j :: 0 <= j < |events| ==> LaterSweep(events[j], w.copies, w.ledger.positions[i].id)
    ensures var w' := Run(w, events);
            && |w'.ledger.positions| == |w.ledger.positions|
            && w'.ledger.positions[i] == w.ledger.positions[i]
            && w.copies <= w'.copies && NeverCopied(w'.copies, |w.copies|, w.ledger.positions[i].id)
  {
    if events != [] {
      hide Step, Inv;
      var before := Run(w, Init(events));
      SweepsNeverHealFlatRows(w, Init(events), i);
      RunKeepsInv(w, Init(events));
      LaterSweepKeepsFlatRow(before, Last(events), i, w.copies);
    }
  }

  lemma LaterSweepKeepsFlatRow(w: World, e: Event, i: nat, copies: seq<Position>)
    requires Inv(w) && i < |w.ledger.positions| && !IsOpen(w.ledger.positions[i])
    requires LaterSweep(e, copies, w.ledger.positions[i].id) && copies <= w.copies
    requires NeverCopied(w.copies, |copies|, w.ledger.positions[i].id)
    ensures var w' := Step(w, e);
            && |w'.ledger.positions| == |w.ledger.positions|
            && w'.ledger.positions[i] == w.ledger.positions[i]
            && copies <= w'.copies && NeverCopied(w'.copies, |copies|, w.ledger.positions[i].id)
  {
    assert UniqueRows(w.ledger.positions);
    hide Inv, Keyed, UniqueRows, AfterFill, AfterReset, EditOf, Normalize, ReportedEquity, UnrealizedPnL;
    if e.SweepRead? {
      NoFlatRowIsRead(w.ledger.positions, i);
    }
  }

  lemma NoFlatRowIsRead(rows: seq<Position>, i: nat)
    requires UniqueRows(rows) && i < |rows| && !IsOpen(rows[i])
    ensures forall p :: p in Filter(rows, IsOpen) ==> p.id != rows[i].id
  {
    hide RowKey;
    FilterMembers(rows, IsOpen);
  }
}
