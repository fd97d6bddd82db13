/** What a first-in-first-out reading of the win rate would count, beside the average cost
    that it does count: when the two give a close the same verdict. */
module FifoLots {
  import opened Common
  import opened RealArithmetic
  import opened WinRate

  /** An open lot with its buy price; the oldest comes first. */
  datatype OpenLot = OpenLot(quantity: real, price: real)

  function Quantity(lots: seq<OpenLot>): real {
    if lots == [] then 0.0 else lots[0].quantity + Quantity(lots[1..])
  }

  function Value(n: real, price: real): real {
    n * price
  }

  /** What the oldest n units cost, or all of them when there are fewer. */
  function CostOfOldest(lots: seq<OpenLot>, n: real): real {
    if lots == [] then 0.0
    else if n <= lots[0].quantity then Value(n, lots[0].price)
    else Value(lots[0].quantity, lots[0].price) + CostOfOldest(lots[1..], n - lots[0].quantity)
  }

  function WithoutOldest(lots: seq<OpenLot>, n: real): seq<OpenLot> {
    if lots == [] then []
    else if n < lots[0].quantity then [lots[0].(quantity := lots[0].quantity - n)] + lots[1..]
    else WithoutOldest(lots[1..], n - lots[0].quantity)
  }

  /** How much a close takes: never more than is open. */
  function Taken(open: real, t: Row): real {
    if Lot(t) > open then open else Lot(t)
  }

  function NextLots(lots: seq<OpenLot>, t: Row): seq<OpenLot> {
    if Priced(t) && t.signal.BUY? then lots + [OpenLot(Lot(t), t.fillPrice)]
    else if Closes(t) then WithoutOldest(lots, Taken(Quantity(lots), t))
    else lots
  }

  function LotsOf(rows: seq<Row>): seq<OpenLot> {
    if rows == [] then [] else NextLots(LotsOf(Init(rows)), Last(rows))
  }

  /** What a close earns over the cost of the lots it takes. */
  function Gain(lots: seq<OpenLot>, t: Row): real {
    var n := Taken(Quantity(lots), t);
    Value(n, t.fillPrice) - CostOfOldest(lots, n)
  }

  predicate FifoWins(lots: seq<OpenLot>, t: Row) {
    Closes(t) && lots != [] && Gain(lots, t) > 0.0
  }

  predicate FifoLoses(lots: seq<OpenLot>, t: Row) {
    Closes(t) && lots != [] && Gain(lots, t) < 0.0
  }

  // ---------- the two books hold the same quantity ----------

  predicate AllOpen(lots: seq<OpenLot>) {
    forall i :: 0 <= i < |lots| ==> lots[i].quantity > 0.0 && lots[i].price > 0.0
  }

  lemma {:induction false} QuantityAppend(lots: seq<OpenLot>, lot: OpenLot)
    ensures Quantity(lots + [lot]) == Quantity(lots) + lot.quantity
  {
    if lots == [] {
      assert lots + [lot] == [lot];
    } else {
      assert (lots + [lot])[1..] == lots[1..] + [lot];
      QuantityAppend(lots[1..], lot);
    }
  }

  lemma {:induction false} QuantityPositive(lots: seq<OpenLot>)
    requires AllOpen(lots)
    ensures Quantity(lots) >= 0.0 && (Quantity(lots) == 0.0 <==> lots == [])
  {
    if lots != [] {
      QuantityPositive(lots[1..]);
    }
  }

  lemma {:induction false} QuantityTaken(lots: seq<OpenLot>, n: real)
    requires AllOpen(lots) && 0.0 <= n <= Quantity(lots)
    ensures AllOpen(WithoutOldest(lots, n)) && Quantity(WithoutOldest(lots, n)) == Quantity(lots) - n
  {
    if lots != [] {
      if n < lots[0].quantity {
        var cut := WithoutOldest(lots, n);
        assert cut[1..] == lots[1..];
      } else {
        QuantityTaken(lots[1..], n - lots[0].quantity);
      }
    }
  }

  /** After the same rows the lots add up to what the average-cost book holds. */
  lemma {:induction false} LotsMatchHolding(rows: seq<Row>)
    ensures AllOpen(LotsOf(rows)) && Quantity(LotsOf(rows)) == Held(rows).lots
    ensures Held(rows) == FLAT || Held(rows).lots > 0.0
  {
    if rows != [] {
      hide Held, LotsOf, Next, NextLots;
      LotsMatchHolding(Init(rows));
      HeldStep(rows);
      OneRowMatches(Held(Init(rows)), LotsOf(Init(rows)), Last(rows));
    }
  }

  lemma HeldStep(rows: seq<Row>)
    requires rows != []
    ensures Held(rows) == Next(Held(Init(rows)), Last(rows))
    ensures LotsOf(rows) == NextLots(LotsOf(Init(rows)), Last(rows))
  {
  }

  lemma OneRowMatches(h: Holding, lots: seq<OpenLot>, t: Row)
    requires AllOpen(lots) && Quantity(lots) == h.lots && (h == FLAT || h.lots > 0.0)
    ensures AllOpen(NextLots(lots, t)) && Quantity(NextLots(lots, t)) == Next(h, t).lots
    ensures Next(h, t) == FLAT || Next(h, t).lots > 0.0
  {
    hide Next, Quantity, WithoutOldest;
    RowCases(h, t);
    if Priced(t) && t.signal.BUY? {
      QuantityAppend(lots, OpenLot(Lot(t), t.fillPrice));
    } else if Closes(t) {
      QuantityTaken(lots, Taken(Quantity(lots), t));
    }
  }

  // ---------- when the verdicts agree ----------

  predicate SameVerdict(h: Holding, lots: seq<OpenLot>, t: Row) {
    (Wins(h, t) <==> FifoWins(lots, t)) && (Loses(h, t) <==> FifoLoses(lots, t))
  }

  predicate AllAt(lots: seq<OpenLot>, price: real) {
    forall i :: 0 <= i < |lots| ==> lots[i].price == price
  }

  lemma ValuesAdd(m: real, n: real, price: real)
    ensures Value(m, price) + Value(n, price) == Value(m + n, price)
  {
    Distribute(price, m, n);
  }

  lemma ValuesCompare(n: real, x: real, y: real)
    requires n > 0.0
    ensures (Value(n, x) > Value(n, y) <==> x > y) && (Value(n, x) < Value(n, y) <==> x < y)
  {
    if x > y {
      ProductStrict(y, x, n);
    } else if x < y {
      ProductStrict(x, y, n);
    }
  }

  lemma NothingIsFree(price: real)
    ensures Value(0.0, price) == 0.0
  {
  }

  lemma {:induction false} UniformCost(lots: seq<OpenLot>, n: real, price: real)
    requires AllOpen(lots) && AllAt(lots, price) && 0.0 <= n <= Quantity(lots)
    ensures CostOfOldest(lots, n) == Value(n, price)
  {
    hide Value;
    if lots == [] {
      NothingIsFree(price);
    } else if n > lots[0].quantity {
      var q := lots[0].quantity;
      UniformCost(lots[1..], n - q, price);
      ValuesAdd(q, n - q, price);
      assert q + (n - q) == n;
    }
  }

  lemma UniformGain(lots: seq<OpenLot>, t: Row, price: real)
    requires AllOpen(lots) && lots != [] && AllAt(lots, price)
    ensures Gain(lots, t) > 0.0 <==> t.fillPrice > price
    ensures Gain(lots, t) < 0.0 <==> t.fillPrice < price
  {
    hide CostOfOldest, Quantity, Value;
    QuantityPositive(lots);
    var n := Taken(Quantity(lots), t);
    UniformCost(lots, n, price);
    ValuesCompare(n, t.fillPrice, price);
  }

  lemma UniformLotsAgree(h: Holding, lots: seq<OpenLot>, t: Row)
    requires AllOpen(lots) && Quantity(lots) == h.lots && AllAt(lots, h.avgPrice)
    ensures SameVerdict(h, lots, t)
  {
    hide Gain, Quantity;
    QuantityPositive(lots);
    if lots != [] {
      UniformGain(lots, t, h.avgPrice);
    }
  }

  /** The shortest run of oldest lots that ends with a lot at another price does not cost the
      average. */
  lemma {:induction false} MixedCost(lots: seq<OpenLot>, price: real) returns (n: real)
    requires AllOpen(lots) && !AllAt(lots, price)
    ensures 0.0 < n <= Quantity(lots) && CostOfOldest(lots, n) != Value(n, price)
  {
    hide Value;
    QuantityPositive(lots[1..]);
    var q := lots[0].quantity;
    if lots[0].price != price {
      n := q;
      ValuesCompare(q, lots[0].price, price);
    } else {
      var m := MixedCost(lots[1..], price);
      n := q + m;
      assert n - q == m;
      ValuesAdd(q, m, price);
    }
  }

  function Close(n: real, price: real): Row {
    Row(CLOSE, "", n, price, true)
  }

  /** On a book that holds lots at another price than the average, some close no larger than
      the holding, at the average itself, is undecided by average cost and decided by FIFO. */
  lemma MixedLotsDisagree(h: Holding, lots: seq<OpenLot>) returns (t: Row)
    requires AllOpen(lots) && Quantity(lots) == h.lots && h.avgPrice > 0.0 && !AllAt(lots, h.avgPrice)
    ensures Closes(t) && t.lotSize <= h.lots && t.fillPrice == h.avgPrice
    ensures !Wins(h, t) && !Loses(h, t) && (FifoWins(lots, t) || FifoLoses(lots, t))
  {
    hide CostOfOldest, Quantity, Value;
    var n := MixedCost(lots, h.avgPrice);
    t := Close(n, h.avgPrice);
  }

  lemma AverageIsPositive(rows: seq<Row>)
    requires Held(rows).lots > 0.0
    ensures Held(rows).avgPrice > 0.0
  {
    hide Held, EntryPrices;
    StoredAverageWithinBuyPrices(rows);
  }

  /** After any rows of a symbol, average cost and FIFO give every close, of any size at any
      price, the same verdict if and only if every open lot was bought at the stored
      average. It is enough to ask about closes no larger than the holding. */
  lemma VerdictsAgreeIff(rows: seq<Row>)
    ensures (forall t: Row :: SameVerdict(Held(rows), LotsOf(rows), t)) <==> AllAt(LotsOf(rows), Held(rows).avgPrice)
    ensures (forall t: Row :: t.lotSize <= Held(rows).lots ==> SameVerdict(Held(rows), LotsOf(rows), t)) <==>
            AllAt(LotsOf(rows), Held(rows).avgPrice)
  {
    hide Held, LotsOf, SameVerdict, AllOpen, Quantity;
    var h, lots := Held(rows), LotsOf(rows);
    LotsMatchHolding(rows);
    if AllAt(lots, h.avgPrice) {
      forall t ensures SameVerdict(h, lots, t) {
        UniformLotsAgree(h, lots, t);
      }
    } else {
      QuantityPositive(lots);
      AverageIsPositive(rows);
      var t := MixedLotsDisagree(h, lots);
      DisagreeingVerdict(h, lots, t);
    }
  }

  lemma DisagreeingVerdict(h: Holding, lots: seq<OpenLot>, t: Row)
    requires !Wins(h, t) && !Loses(h, t) && (FifoWins(lots, t) || FifoLoses(lots, t))
    ensures !SameVerdict(h, lots, t)
  {
  }

  // ---------- a list on which they differ ----------

  function Bought(price: real): Row {
    Row(BUY, "SBIN", 1.0, price, true)
  }

  function Sold(price: real): Row {
    Row(SELL, "SBIN", 1.0, price, true)
  }

  /** Buy one at 100 and one at 200, sell one at 150: undecided at average cost, a win when
      the oldest lot goes first. */
  lemma AverageCostIsNotFifo()
    ensures var rows := [Bought(100.0), Bought(200.0)];
            && Held(rows) == Holding(2.0, 150.0)
            && LotsOf(rows) == [OpenLot(1.0, 100.0), OpenLot(1.0, 200.0)]
            && TotalWins(rows + [Sold(150.0)]) == 0 && TotalLosses(rows + [Sold(150.0)]) == 0
            && FifoWins(LotsOf(rows), Sold(150.0))
  {
    hide Held, LotsOf, FifoWins, TotalWins, TotalLosses, Wins, Loses, Own;
    var rows := [Bought(100.0), Bought(200.0)];
    TwoBuys();
    OldestGains();
    BuysDecideNothing(rows);
    BothAreOwn();
    AtTheAverage();
    TotalsGrow(rows, Sold(150.0));
  }

  lemma AtTheAverage()
    ensures !Wins(Holding(2.0, 150.0), Sold(150.0)) && !Loses(Holding(2.0, 150.0), Sold(150.0))
  {
  }

  lemma BothAreOwn()
    ensures var rows := [Bought(100.0), Bought(200.0)]; Own(rows, "SBIN") == rows
  {
    var first, second := Bought(100.0), Bought(200.0);
    assert Own([], "SBIN") == [];
    hide Own;
    OwnGrows([], first, "SBIN");
    OwnGrows([first], second, "SBIN");
    assert [] + [first] == [first] && [first] + [second] == [first, second];
  }

  lemma TwoBuys()
    ensures var rows := [Bought(100.0), Bought(200.0)];
            Held(rows) == Holding(2.0, 150.0) && LotsOf(rows) == [OpenLot(1.0, 100.0), OpenLot(1.0, 200.0)]
  {
    var first, second := Bought(100.0), Bought(200.0);
    hide Held, LotsOf, Next, MeanPrice;
    HeldStep([first]);
    HeldStep([first, second]);
    assert Init([first]) == [] && Init([first, second]) == [first];
    NothingHeld();
    Means();
    RowCases(FLAT, first);
    RowCases(Holding(1.0, 100.0), second);
  }

  lemma Means()
    ensures MeanPrice(FLAT, Bought(100.0)) == 100.0
    ensures MeanPrice(Holding(1.0, 100.0), Bought(200.0)) == 150.0
  {
  }

  lemma NothingHeld()
    ensures Held([]) == FLAT && LotsOf([]) == []
  {
  }

  lemma OldestGains()
    ensures FifoWins([OpenLot(1.0, 100.0), OpenLot(1.0, 200.0)], Sold(150.0))
  {
    var lots := [OpenLot(1.0, 100.0), OpenLot(1.0, 200.0)];
    assert lots[1..] == [OpenLot(1.0, 200.0)] && lots[1..][1..] == [];
    assert Quantity(lots[1..]) == 1.0;
    assert Quantity(lots) == 2.0;
    assert CostOfOldest(lots, 1.0) == Value(1.0, 100.0);
    hide Quantity, CostOfOldest;
  }

  lemma {:induction false} BuysDecideNothing(rows: seq<Row>)
    requires forall i :: 0 <= i < |rows| ==> rows[i].signal.BUY?
    ensures TotalWins(rows) == 0 && TotalLosses(rows) == 0
  {
    if rows != [] {
      BuysDecideNothing(Init(rows));
    }
  }
}
