/** Which orders an account accepts, which reason a refused one is stored with, and what the
    accepted one is filled at: all by the numbers on the order and the position held. */
module OrderAcceptance {
  import opened Common
  import opened PaperText
  import opened PaperEngine
  import opened FillLaws
  import opened PaperLedger
  import opened LedgerInvariant

  /** What each refusal says of the order and the quantity held at its key. */
  ghost predicate Breaks(held: real, req: Request, check: Reason) {
    match check
    case UnsupportedSide => req.side.OtherSide?
    case UnsupportedOrderType => req.orderType.OtherType?
    case PriceRequired => req.price <= 0.0
    case OffTick => req.tickSize > 0.0 && !NearInteger(req.price / req.tickSize)
    case OffLot => req.side != Close && req.lotSize > 0.0 && !NearInteger(req.quantity / req.lotSize)
    case NoOpenPosition => req.side == Close && held == 0.0
    case QuantityNotPositive => req.side != Close && req.quantity <= 0.0
  }

  /** The place of each check among the checks. */
  function Place(check: Reason): nat {
    match check
    case UnsupportedSide => 0
    case UnsupportedOrderType => 1
    case PriceRequired => 2
    case OffTick => 3
    case OffLot => 4
    case NoOpenPosition => 5
    case QuantityNotPositive => 6
  }

  /** The check is broken and none before it is. */
  ghost predicate FirstBroken(held: real, req: Request, check: Reason) {
    && Breaks(held, req, check)
    && forall earlier :: Place(earlier) < Place(check) ==> !Breaks(held, req, earlier)
  }

  lemma DecidedByChecks(held: real, req: Request)
    ensures Decide(held, req).Accept? <==> forall check :: !Breaks(held, req, check)
    ensures Decide(held, req).Refuse? ==> FirstBroken(held, req, Decide(held, req).reason)
  {
    hide NearInteger, SlippedPrice;
    var d := Decide(held, req);
    if d.Refuse? {
      assert Breaks(held, req, d.reason);
    }
  }

  lemma FirstIsUnique(held: real, req: Request, check: Reason, other: Reason)
    requires FirstBroken(held, req, check) && FirstBroken(held, req, other)
    ensures check == other
  {
    assert Place(check) >= Place(other) && Place(other) >= Place(check);
  }

  /** Off the grid by a millionth of a step is off: less is not. */
  lemma ToleranceIsAMillionth(n: int, off: real)
    requires 0.0 <= off <= 0.5
    ensures NearInteger(n as real + off) <==> off < 0.000001
    ensures NearInteger(n as real - off) <==> off < 0.000001
  {
    NearestCounts(n as real + off, n);
    NearestCounts(n as real - off, n);
  }

  lemma NearestCounts(ratio: real, n: int)
    requires -0.5 <= ratio - n as real <= 0.5
    ensures NearInteger(ratio) <==> Near(ratio, n)
  {
    if NearInteger(ratio) {
      var k :| Near(ratio, k);
      assert k == n || k <= n - 1 || k >= n + 1;
      assert k <= n - 1 ==> ratio - k as real >= 0.5;
      assert k >= n + 1 ==> k as real - ratio >= 0.5;
    }
  }

  function HeldFor(s: Ledger, req: Request): real {
    QuantityOf(Lookup(s.positions, RequestKey(req)))
  }

  /** On any account: an order is filled if and only if its side and type are known, it has a
      price on the tick, a BUY or SELL has a positive quantity in whole lots, and a CLOSE finds
      an open position. Any other order is refused with the first check it breaks as reason. */
  lemma FilledIff(s: Ledger, req: Request)
    ensures var order, held := OutcomeOf(s, req).order, HeldFor(s, req);
            && (order.status == FILLED <==>
                && (req.side == Buy || req.side == Sell || req.side == Close)
                && (req.orderType == Market || req.orderType == Limit)
                && req.price > 0.0
                && (req.tickSize > 0.0 ==> NearInteger(req.price / req.tickSize))
                && (req.side != Close && req.lotSize > 0.0 ==> NearInteger(req.quantity / req.lotSize))
                && (if req.side == Close then held != 0.0 else req.quantity > 0.0))
            && (order.status == FILLED ==> order.reason == None)
            && (order.status != FILLED ==> order.status == REJECTED && order.reason.Some?)
            && forall check :: order.reason == Some(check) <==> FirstBroken(held, req, check)
  {
    hide Decide, NearInteger, Lookup, Settle, SlippedPrice, RequestKey, Place, UnrealizedPnL, Fee, Notional;
    var order, held := OutcomeOf(s, req).order, HeldFor(s, req);
    DecidedByChecks(held, req);
    assert forall check :: FirstBroken(held, req, check) ==> Breaks(held, req, check);
    forall check | FirstBroken(held, req, check) ensures order.reason == Some(check) {
      FirstIsUnique(held, req, check, order.reason.value);
    }
    AllChecks(held, req);
  }

  lemma AllChecks(held: real, req: Request)
    ensures (forall check :: !Breaks(held, req, check)) <==>
            && (req.side == Buy || req.side == Sell || req.side == Close)
            && (req.orderType == Market || req.orderType == Limit)
            && req.price > 0.0
            && (req.tickSize > 0.0 ==> NearInteger(req.price / req.tickSize))
            && (req.side != Close && req.lotSize > 0.0 ==> NearInteger(req.quantity / req.lotSize))
            && (if req.side == Close then held != 0.0 else req.quantity > 0.0)
  {
    hide NearInteger;
    if forall check :: !Breaks(held, req, check) {
      assert !Breaks(held, req, UnsupportedSide) && !Breaks(held, req, UnsupportedOrderType);
      assert !Breaks(held, req, PriceRequired) && !Breaks(held, req, OffTick) && !Breaks(held, req, OffLot);
      assert !Breaks(held, req, NoOpenPosition) && !Breaks(held, req, QuantityNotPositive);
    }
  }

  /** What the tables hold after an order. One whose side or type no column admits leaves no
      trace at all; any other is stored as it was asked for, as the newest order, and every
      older order stays. Only a filled one moves money: the trade carries the order's numbers
      and the cash pays it and its fee. */
  lemma StoredAsAsked(s: Ledger, req: Request)
    ensures var s', o := AfterFill(s, req), OutcomeOf(s, req).order;
            && (req.side.OtherSide? || req.orderType.OtherType? ==> s' == s)
            && (!req.side.OtherSide? && !req.orderType.OtherType? ==> s'.orders == s.orders + [o])
            && o.id == s.nextId
            && o.exchange == req.exchange && o.symbol == req.symbol && o.product == req.product
            && o.side == req.side && o.orderType == req.orderType && o.quantity == req.quantity
            && o.requestedPrice == (if req.price > 0.0 then Some(req.price) else None)
            && (o.status != FILLED ==> o.fillPrice == None && s' == s.(orders := s'.orders, snapshots := s'.snapshots, nextId := s'.nextId))
  {
    hide Settle, ReportedEquity, Lookup, Upsert, Fee, Notional, UnrealizedPnL, SlippedPrice, ValidateOrder, RequestKey;
  }

  /** The trade of a filled order: bought or sold what was asked, or what flattens the position
      for a CLOSE; at the quoted price moved against the taker by the slippage in basis points,
      never in his favour; with the fee in basis points of the traded value. The account pays
      for a buy, is paid for a sell, and pays the fee; the position moves by what was traded. */
  lemma TradedAsAsked(s: Ledger, req: Request)
    requires OutcomeOf(s, req).order.status == FILLED
    ensures OutcomeOf(s, req).trade.Some?
    ensures var s', o, t := AfterFill(s, req), OutcomeOf(s, req).order, OutcomeOf(s, req).trade.value;
            var held, bps := HeldFor(s, req), if req.slippageBps > 0.0 then req.slippageBps else 0.0;
            && s'.trades == s.trades + [t] && s'.startingBalance == s.startingBalance
            && t.orderId == o.id && t.id != o.id && t.exchange == req.exchange && t.symbol == req.symbol
            && (t.side == Buy <==> req.side == Buy || (req.side == Close && held < 0.0))
            && (t.side == Sell <==> req.side == Sell || (req.side == Close && held > 0.0))
            && t.quantity == (if req.side == Close then Abs(held) else req.quantity)
            && o.fillPrice == Some(t.price)
            && t.price - req.price == (if t.side == Buy then bps else -bps) * req.price / 10000.0
            && t.fees * 10000.0 == t.price * t.quantity * req.feeBps
            && s'.cashBalance == s.cashBalance + (if t.side == Buy then -(t.price * t.quantity) else t.price * t.quantity) - t.fees
  {
    var held := HeldFor(s, req);
    hide Lookup, FindRow, RequestKey, Settle, ReportedEquity, Upsert, UnrealizedPnL, ValidateOrder, Decide, Fee, SlippedPrice, Notional, Normalize;
    DecidedByChecks(held, req);
    var d := Decide(held, req);
    var t := OutcomeOf(s, req).trade.value;
    DeltaAsked(held, req);
    PriceAsked(req.price, req.slippageBps, d.delta);
    FeeAsked(d.price, Abs(d.delta), req.feeBps);
    CashLeg(d.price, Abs(d.delta));
  }

  lemma DeltaAsked(held: real, req: Request)
    requires Decide(held, req).Accept?
    ensures var d := Decide(held, req);
            && d.price == SlippedPrice(req.price, req.slippageBps, d.delta)
            && d.delta == (match req.side case Buy => req.quantity case Sell => -req.quantity case _ => -held)
            && d.delta != 0.0 && (req.side.Close? || req.quantity > 0.0) && Storable(req)
  {
    hide SlippedPrice, IsMultiple;
  }

  lemma PriceAsked(price: real, slippageBps: real, delta: real)
    ensures var bps := if slippageBps > 0.0 then slippageBps else 0.0;
            SlippedPrice(price, slippageBps, delta) - price == (if delta > 0.0 then bps else -bps) * price / 10000.0
  {
  }

  lemma FeeAsked(price: real, qty: real, feeBps: real)
    ensures Fee(price, qty, feeBps) * 10000.0 == price * qty * feeBps
  {
  }

  // ---------- the row an order moves ----------

  /** The orders name the same instrument, up to the case of letters and blanks around it. */
  ghost predicate SameInstrument(req: Request, other: Request) {
    SameText(req.exchange, other.exchange) && SameText(req.symbol, other.symbol) && req.product == other.product
  }

  lemma SameKeyIff(req: Request, other: Request)
    ensures RequestKey(req) == RequestKey(other) <==> SameInstrument(req, other)
  {
    hide Normalize, SameText, ToUpper;
    NormalizeTwice(req.exchange);
    NormalizeTwice(req.symbol);
    NormalizeTwice(other.exchange);
    NormalizeTwice(other.symbol);
    NormalizeAlikeIff(req.exchange, other.exchange);
    NormalizeAlikeIff(req.symbol, other.symbol);
  }

  /** A filled order moves the quantity held for every spelling of its instrument by what it
      traded, and the quantity held for no other; it adds a row only if there was none. */
  lemma FillMovesItsInstrument(s: Ledger, req: Request, other: Request)
    requires Keyed(s) && OutcomeOf(s, req).order.status == FILLED
    ensures OutcomeOf(s, req).trade.Some?
    ensures var s', t := AfterFill(s, req), OutcomeOf(s, req).trade.value;
            && HeldFor(s', other) == HeldFor(s, other) +
               (if !SameInstrument(req, other) then 0.0 else if t.side == Buy then t.quantity else -t.quantity)
            && |s'.positions| == |s.positions| + if Lookup(s.positions, RequestKey(req)) == None then 1 else 0
  {
    hide Settle, AfterFill, OutcomeOf, DecisionOn, UnrealizedPnL, FindRow, Normalize, ToUpper, NewRow, SameInstrument,
      RequestKey, RowKey, UniqueRows, Notional, Fee, Replayed;
    FilledIsAccepted(s, req);
    AcceptedEffect(s, req);
    NewRowKey(s, req);
    SameKeyIff(req, other);
    UpsertMovesOneKey(s.positions, NewRow(s, req), RequestKey(other));
    var held, d := Lookup(s.positions, RequestKey(req)), DecisionOn(s, req);
    CostIsConserved(QuantityOf(held), AvgOf(held), d.delta, d.price);
  }

  lemma FilledIsAccepted(s: Ledger, req: Request)
    requires OutcomeOf(s, req).order.status == FILLED
    ensures DecisionOn(s, req).Accept?
  {
    hide Decide, Settle, Lookup, RequestKey, UnrealizedPnL, Fee, Notional;
  }
}
