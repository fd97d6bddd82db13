/** The paper trading engine: validating an order, settling a fill against a signed
    position, and computing what one order writes. Money and quantities are reals. */
module PaperEngine {
  import opened Common
  import opened RealArithmetic

  datatype Side = Buy | Sell | Close | OtherSide(text: string)

  datatype OrderType = Market | Limit | OtherType(text: string)

  datatype Status = RECEIVED | VALIDATED | FILLED | REJECTED | CANCELLED

  datatype Reason =
    | UnsupportedSide | PriceRequired | UnsupportedOrderType
    | OffTick | OffLot | NoOpenPosition | QuantityNotPositive

  datatype Request = Request(
    exchange: string, symbol: string, product: string,
    side: Side, orderType: OrderType, quantity: real, price: real,
    tickSize: real, lotSize: real, slippageBps: real, feeBps: real)

  // Rows of paper_orders, paper_positions and paper_trades. Every row id is a fresh number.

  datatype Order = Order(
    id: nat, exchange: string, symbol: string, product: string,
    side: Side, orderType: OrderType, quantity: real, requestedPrice: Option<real>,
    status: Status, fillPrice: Option<real>, reason: Option<Reason>)

  datatype Position = Position(
    id: nat, exchange: string, symbol: string, product: string,
    quantity: real, avgEntryPrice: real, lastPrice: real, unrealizedPnL: real)

  datatype Trade = Trade(
    id: nat, orderId: nat, exchange: string, symbol: string,
    side: Side, quantity: real, price: real, realizedPnL: real, fees: real)

  datatype Outcome = Outcome(
    order: Order, position: Option<Position>, trade: Option<Trade>, newCashBalance: Option<real>)

  // ---------- validation ----------

  /** math.Round: to the nearest integer, halves away from zero. */
  function Round(x: real): int {
    if x >= 0.0 then (x + 0.5).Floor else -((-x + 0.5).Floor)
  }

  const TOLERANCE := 0.000001

  predicate Near(ratio: real, k: int) {
    Abs(ratio - k as real) < TOLERANCE
  }

  ghost predicate NearInteger(ratio: real) {
    exists k :: Near(ratio, k)
  }

  /** value is within the tolerance of some whole number of steps. */
  predicate IsMultiple(value: real, step: real): (r: bool)
    ensures step <= 0.0 ==> r
    ensures step > 0.0 ==> (r <==> NearInteger(value / step))
  {
    if step <= 0.0 then true
    else
      var ratio := value / step;
      assert forall k :: Near(ratio, k) ==> k == Round(ratio);
      assert Near(ratio, Round(ratio)) ==> exists k :: Near(ratio, k);
      Abs(ratio - Round(ratio) as real) < TOLERANCE
  }

  /** The first constraint the order breaks, in the order the engine checks them. */
  function ValidateOrder(req: Request): (r: Option<Reason>)
    ensures r == None ==> req.price > 0.0 && !req.side.OtherSide? && !req.orderType.OtherType?
    ensures r == None && !req.side.Close? ==> IsMultiple(req.quantity, req.lotSize)
  {
    if req.side.OtherSide? then Some(UnsupportedSide)
    else if req.orderType.OtherType? then Some(UnsupportedOrderType)
    else if req.price <= 0.0 then Some(PriceRequired)
    else if req.tickSize > 0.0 && !IsMultiple(req.price, req.tickSize) then Some(OffTick)
    else if !req.side.Close? && req.lotSize > 0.0 && !IsMultiple(req.quantity, req.lotSize) then Some(OffLot)
    else None
  }

  // ---------- settling one fill ----------

  datatype Change = Change(quantity: real, avg: real, realized: real)

  /** The reference settlement of a signed fill of delta units (positive buys, negative
      sells) against a signed position: extend, reduce, or flip through zero. */
  function Settle(q: real, a: real, delta: real, p: real): Change
    requires delta != 0.0
  {
    if (q >= 0.0 && delta > 0.0) || (q <= 0.0 && delta < 0.0) then
      Change(q + delta, (a * q + p * delta) / (q + delta), 0.0)
    else if Abs(delta) <= Abs(q) then
      Change(q + delta, if q + delta == 0.0 then 0.0 else a, (a - p) * delta)
    else
      Change(q + delta, p, (p - a) * q)
  }

  function ApplyBuy(currentQty: real, currentAvg: real, qty: real, fillPrice: real): Change
    requires qty > 0.0
  {
    if currentQty >= 0.0 then
      var newQty := currentQty + qty;
      Change(newQty, (currentAvg * currentQty + fillPrice * qty) / newQty, 0.0)
    else
      var shortQty := -currentQty;
      if qty <= shortQty then
        var newQty := currentQty + qty;
        Change(newQty, if newQty == 0.0 then 0.0 else currentAvg, (currentAvg - fillPrice) * qty)
      else
        Change(qty - shortQty, fillPrice, (currentAvg - fillPrice) * shortQty)
  }

  function ApplySell(currentQty: real, currentAvg: real, qty: real, fillPrice: real): Change
    requires qty > 0.0
  {
    if currentQty <= 0.0 then
      var absCurrent := -currentQty;
      var newQty := currentQty - qty;
      Change(newQty, (currentAvg * absCurrent + fillPrice * qty) / -newQty, 0.0)
    else
      var longQty := currentQty;
      if qty <= longQty then
        var newQty := currentQty - qty;
        Change(newQty, if newQty == 0.0 then 0.0 else currentAvg, (fillPrice - currentAvg) * qty)
      else
        Change(-(qty - longQty), fillPrice, (fillPrice - currentAvg) * longQty)
  }

  /** applyBuy, branch by branch, is the signed settlement of +qty. */
  lemma BuySettles(q: real, a: real, n: real, p: real)
    requires n > 0.0
    ensures ApplyBuy(q, a, n, p) == Settle(q, a, n, p)
  {
    if q < 0.0 && n > -q {
      NegatedProduct(a - p, -q);
    }
  }

  /** applySell, branch by branch, is the signed settlement of -qty. */
  lemma SellSettles(q: real, a: real, n: real, p: real)
    requires n > 0.0
    ensures ApplySell(q, a, n, p) == Settle(q, a, -n, p)
  {
    if q <= 0.0 {
      ExtendedShort(q, a, n, p);
    } else if n <= q {
      NegatedProduct(p - a, n);
    }
  }

  lemma ExtendedShort(q: real, a: real, n: real, p: real)
    requires q <= 0.0 < n
    ensures (a * -q + p * n) / -(q - n) == (a * q + p * -n) / (q + -n)
  {
    assert a * q + p * -n == -(a * -q + p * n);
    NegatedQuotient(a * -q + p * n, -(q - n));
  }

  /** UnrealizedPnL of a signed position: the same product for longs, shorts and flat. */
  function UnrealizedPnL(quantity: real, avgEntryPrice: real, lastPrice: real): (r: real)
    ensures r == (lastPrice - avgEntryPrice) * quantity
  {
    if quantity > 0.0 then (lastPrice - avgEntryPrice) * quantity
    else if quantity < 0.0 then
      NegatedProduct(avgEntryPrice - lastPrice, -quantity);
      (avgEntryPrice - lastPrice) * -quantity
    else 0.0
  }

  // ---------- computing one order ----------

  /** What the engine decides about an order: refuse it, or fill a signed delta at a price. */
  datatype Decision = Refuse(reason: Reason) | Accept(delta: real, price: real)

  /** The quoted price moved against the taker: up for a buy, down for a sell. */
  function SlippedPrice(price: real, slippageBps: real, delta: real): real {
    if slippageBps <= 0.0 then price
    else if delta > 0.0 then price * (1.0 + slippageBps / 10000.0)
    else price * (1.0 - slippageBps / 10000.0)
  }

  function SignedDelta(currentQty: real, req: Request): real {
    match req.side
    case Buy => req.quantity
    case Sell => -req.quantity
    case _ => -currentQty
  }

  function Decide(currentQty: real, req: Request): (d: Decision)
    ensures d.Accept? ==> d.delta != 0.0 && ValidateOrder(req) == None
    ensures d.Accept? && req.side.Close? ==> d.delta == -currentQty
    ensures currentQty == 0.0 && req.side.Close? ==> d.Refuse?
  {
    var invalid := ValidateOrder(req);
    if invalid.Some? then Refuse(invalid.value)
    else if req.side.Close? && currentQty == 0.0 then Refuse(NoOpenPosition)
    else if !req.side.Close? && req.quantity <= 0.0 then Refuse(QuantityNotPositive)
    else
      var delta := SignedDelta(currentQty, req);
      Accept(delta, SlippedPrice(req.price, req.slippageBps, delta))
  }

  function QuantityOf(position: Option<Position>): real {
    if position.Some? then position.value.quantity else 0.0
  }

  function AvgOf(position: Option<Position>): real {
    if position.Some? then position.value.avgEntryPrice else 0.0
  }

  function Fee(price: real, qty: real, feeBps: real): real {
    price * qty * feeBps / 10000.0
  }

  /** The signed value of a fill: paid by a buy, received by a sell. */
  function Notional(delta: real, price: real): real {
    delta * price
  }

  lemma CashLeg(price: real, qty: real)
    ensures -price * qty == -Notional(qty, price)
    ensures price * qty == -Notional(-qty, price)
  {
  }

  function BaseOrder(id: nat, req: Request): Order {
    Order(id, req.exchange, req.symbol, req.product, req.side, req.orderType, req.quantity,
          if req.price > 0.0 then Some(req.price) else None, REJECTED, None, None)
  }

  /** What one order writes, stated by its signed delta. The order, trade and (for a new
      position) position rows take the ids n, n + 1 and n + 2. */
  function FillOutcome(n: nat, cash: real, position: Option<Position>, req: Request): Outcome {
    match Decide(QuantityOf(position), req)
    case Refuse(reason) =>
      Outcome(BaseOrder(n, req).(reason := Some(reason)), None, None, None)
    case Accept(delta, price) =>
      var c := Settle(QuantityOf(position), AvgOf(position), delta, price);
      var fee := Fee(price, Abs(delta), req.feeBps);
      Outcome(
        BaseOrder(n, req).(status := FILLED, fillPrice := Some(price)),
        Some(Position(if position.Some? then position.value.id else n + 2,
                      req.exchange, req.symbol, req.product,
                      c.quantity, c.avg, price, UnrealizedPnL(c.quantity, c.avg, price))),
        Some(Trade(n + 1, n, req.exchange, req.symbol, if delta > 0.0 then Buy else Sell,
                   Abs(delta), price, c.realized, fee)),
        Some(cash - Notional(delta, price) - fee))
  }

  /** resolveCloseSide: the concrete side and quantity that flatten the position. */
  method ResolveCloseSide(currentQty: real) returns (side: Side, qty: real, ok: bool)
    ensures ok <==> currentQty != 0.0
    ensures ok ==> qty > 0.0 && (side == Buy || side == Sell)
    ensures ok ==> currentQty + (if side == Buy then qty else -qty) == 0.0
  {
    if currentQty == 0.0 {
      return OtherSide(""), 0.0, false;
    }
    if currentQty > 0.0 {
      return Sell, currentQty, true;
    }
    return Buy, -currentQty, true;
  }

  /** The step-by-step computation of one order, as the engine runs it. */
  method ComputeFill(n: nat, cash: real, position: Option<Position>, req: Request) returns (outcome: Outcome)
    ensures outcome == FillOutcome(n, cash, position, req)
  {
    hide Settle, ApplyBuy, ApplySell, Notional, Fee, UnrealizedPnL, ValidateOrder, IsMultiple;
    var baseOrder := BaseOrder(n, req);
    var invalid := ValidateOrder(req);
    if invalid.Some? {
      return Outcome(baseOrder.(reason := invalid), None, None, None);
    }
    var fillPrice := req.price;

    var currentQty, currentAvg := 0.0, 0.0;
    if position.Some? {
      currentQty, currentAvg := position.value.quantity, position.value.avgEntryPrice;
    }

    var side, qty := req.side, req.quantity;
    if side == Close {
      var s, q, ok := ResolveCloseSide(currentQty);
      if !ok {
        return Outcome(baseOrder.(reason := Some(NoOpenPosition)), None, None, None);
      }
      side, qty := s, q;
    } else if qty <= 0.0 {
      return Outcome(baseOrder.(reason := Some(QuantityNotPositive)), None, None, None);
    }

    if req.slippageBps > 0.0 {
      if side == Buy {
        fillPrice := fillPrice * (1.0 + req.slippageBps / 10000.0);
      } else {
        fillPrice := fillPrice * (1.0 - req.slippageBps / 10000.0);
      }
    }

    var change: Change;
    var cashDelta: real;
    ghost var delta := if side == Buy then qty else -qty;
    assert Decide(currentQty, req) == Accept(delta, fillPrice);
    if side == Buy {
      cashDelta := -fillPrice * qty;
      change := ApplyBuy(currentQty, currentAvg, qty, fillPrice);
      BuySettles(currentQty, currentAvg, qty, fillPrice);
    } else {
      cashDelta := fillPrice * qty;
      change := ApplySell(currentQty, currentAvg, qty, fillPrice);
      SellSettles(currentQty, currentAvg, qty, fillPrice);
    }
    CashLeg(fillPrice, qty);
    assert cashDelta == -Notional(delta, fillPrice);

    var fee := Fee(fillPrice, qty, req.feeBps);
    cashDelta := cashDelta - fee;

    baseOrder := baseOrder.(status := FILLED, fillPrice := Some(fillPrice));
    var newPosition := Position(
      n + 2, req.exchange, req.symbol, req.product, change.quantity, change.avg, fillPrice,
      UnrealizedPnL(change.quantity, change.avg, fillPrice));
    if position.Some? {
      newPosition := newPosition.(id := position.value.id);
    }
    var trade := Trade(
      n + 1, n, req.exchange, req.symbol, side, qty, fillPrice, change.realized, fee);
    outcome := Outcome(baseOrder, Some(newPosition), Some(trade), Some(cash + cashDelta));
  }
}
