/** Laws of the fill arithmetic over whole sequences of fills on one position key. */
module FillLaws {
  import opened Common
  import opened RealArithmetic
  import opened PaperEngine

  /** A sell is a buy seen in a mirror: quantity and realized P&L change sign, the average
      does not. */
  lemma SellMirrorsBuy(q: real, a: real, n: real, p: real)
    requires n > 0.0
    ensures ApplySell(q, a, n, p) ==
            var b := ApplyBuy(-q, a, n, p); Change(-b.quantity, b.avg, -b.realized)
  {
    if q > 0.0 {
      Negations(p - a, n);
      Negations(p - a, q);
    }
  }

  /** What a fill spends is either still held at cost or has been realized. */
  lemma CostIsConserved(q: real, a: real, delta: real, p: real)
    requires delta != 0.0
    ensures var c := Settle(q, a, delta, p);
            c.quantity == q + delta && c.quantity * c.avg == q * a + delta * p + c.realized
  {
    if (q >= 0.0 && delta > 0.0) || (q <= 0.0 && delta < 0.0) {
      var total := a * q + p * delta;
      assert (total / (q + delta)) * (q + delta) == total;
    } else if Abs(delta) <= Abs(q) {
      assert (q + delta) * a == q * a + delta * p + (a - p) * delta;
    } else {
      assert (q + delta) * p == q * a + delta * p + (p - a) * q;
    }
  }

  // ---------- order splitting ----------

  /** Everything a run of fills on one key moves. */
  datatype Book = Book(quantity: real, avg: real, realized: real, fees: real, cash: real)

  function FillBook(b: Book, delta: real, price: real, feeBps: real): Book
    requires delta != 0.0
  {
    var c := Settle(b.quantity, b.avg, delta, price);
    var fee := Fee(price, Abs(delta), feeBps);
    Book(c.quantity, c.avg, b.realized + c.realized, b.fees + fee, b.cash - Notional(delta, price) - fee)
  }

  predicate OneSided(deltas: seq<real>) {
    || (forall i :: 0 <= i < |deltas| ==> deltas[i] > 0.0)
    || (forall i :: 0 <= i < |deltas| ==> deltas[i] < 0.0)
  }

  function Total(deltas: seq<real>): real {
    if deltas == [] then 0.0 else Total(Init(deltas)) + Last(deltas)
  }

  function FillBookAll(b: Book, deltas: seq<real>, price: real, feeBps: real): Book
    requires forall i :: 0 <= i < |deltas| ==> deltas[i] != 0.0
  {
    if deltas == [] then b
    else FillBook(FillBookAll(b, Init(deltas), price, feeBps), Last(deltas), price, feeBps)
  }

  lemma TotalHasTheSide(deltas: seq<real>)
    requires deltas != [] && OneSided(deltas)
    ensures deltas[0] > 0.0 ==> Total(deltas) > 0.0
    ensures deltas[0] < 0.0 ==> Total(deltas) < 0.0
  {
    if |deltas| > 1 {
      TotalHasTheSide(Init(deltas));
    }
  }

  lemma ExtendLongInTwo(q: real, a: real, d1: real, d2: real, p: real)
    requires q >= 0.0 && d1 > 0.0 && d2 > 0.0
    ensures ((a * q + p * d1) / (q + d1) * (q + d1) + p * d2) / (q + d1 + d2)
            == (a * q + p * (d1 + d2)) / (q + (d1 + d2))
  {
    QuotientTimes(a * q + p * d1, q + d1);
    assert p * (d1 + d2) == p * d1 + p * d2;
    assert q + d1 + d2 == q + (d1 + d2);
  }

  lemma ExtendAtSamePrice(q: real, d: real, p: real)
    requires q + d != 0.0
    ensures (p * q + p * d) / (q + d) == p
  {
    assert p * q + p * d == p * (q + d);
    QuotientTimes(p, q + d);
  }

  /** Two fills in turn, with the P&L both realized. */
  function SettleTwice(q: real, a: real, d1: real, d2: real, p: real): Change
    requires d1 != 0.0 && d2 != 0.0
  {
    var c1 := Settle(q, a, d1, p);
    var c2 := Settle(c1.quantity, c1.avg, d2, p);
    c2.(realized := c1.realized + c2.realized)
  }

  lemma BuysWithinShort(q: real, a: real, d1: real, d2: real, p: real)
    requires d1 > 0.0 && d2 > 0.0 && d1 + d2 <= -q
    ensures SettleTwice(q, a, d1, d2, p) == Settle(q, a, d1 + d2, p)
  {
    Distribute(a - p, d1, d2);
  }

  lemma BuysAcrossZero(q: real, a: real, d1: real, d2: real, p: real)
    requires d1 > 0.0 && d2 > 0.0 && d1 < -q < d1 + d2
    ensures SettleTwice(q, a, d1, d2, p) == Settle(q, a, d1 + d2, p)
  {
    Distribute(p - a, -d1, q + d1);
    assert (p - a) * -d1 == (a - p) * d1;
  }

  lemma OpeningAverage(a: real, delta: real, p: real)
    requires delta != 0.0
    ensures Settle(0.0, a, delta, p) == Change(delta, p, 0.0)
  {
    QuotientTimes(p, delta);
  }

  lemma ExtendingAtTheAverage(q: real, delta: real, p: real)
    requires q > 0.0 && delta > 0.0
    ensures Settle(q, p, delta, p) == Change(q + delta, p, 0.0)
  {
    ExtendAtSamePrice(q, delta, p);
  }

  lemma BuysFromZeroOrFlipped(q: real, a: real, d1: real, d2: real, p: real)
    requires d1 > 0.0 && d2 > 0.0 && q < 0.0 && -q <= d1
    ensures SettleTwice(q, a, d1, d2, p) == Settle(q, a, d1 + d2, p)
  {
    var c1 := Settle(q, a, d1, p);
    if d1 == -q {
      Negations(p - a, d1);
      assert c1 == Change(0.0, 0.0, (p - a) * q);
      OpeningAverage(0.0, d2, p);
    } else {
      assert c1 == Change(q + d1, p, (p - a) * q);
      ExtendingAtTheAverage(q + d1, d2, p);
    }
  }

  lemma SettleBuysInTwo(q: real, a: real, d1: real, d2: real, p: real)
    requires d1 > 0.0 && d2 > 0.0
    ensures SettleTwice(q, a, d1, d2, p) == Settle(q, a, d1 + d2, p)
  {
    if q >= 0.0 {
      ExtendLongInTwo(q, a, d1, d2, p);
    } else if d1 + d2 <= -q {
      BuysWithinShort(q, a, d1, d2, p);
    } else if d1 < -q {
      BuysAcrossZero(q, a, d1, d2, p);
    } else {
      BuysFromZeroOrFlipped(q, a, d1, d2, p);
    }
  }

  lemma MirrorExtension(q: real, a: real, delta: real, p: real)
    requires q + delta != 0.0
    ensures (a * -q + p * -delta) / (-q + -delta) == (a * q + p * delta) / (q + delta)
  {
    var x, y := a * q + p * delta, q + delta;
    assert a * -q + p * -delta == -x;
    assert -q + -delta == -y;
    NegatedQuotient(x, y);
  }

  /** Mirroring the position mirrors the settlement. */
  lemma SettleMirror(q: real, a: real, delta: real, p: real)
    requires delta != 0.0
    ensures Settle(-q, a, -delta, p) ==
            var c := Settle(q, a, delta, p); Change(-c.quantity, c.avg, -c.realized)
  {
    if q + delta != 0.0 {
      MirrorExtension(q, a, delta, p);
    }
    assert (a - p) * -delta == -((a - p) * delta);
    assert (p - a) * -q == -((p - a) * q);
  }

  lemma SettleInTwo(q: real, a: real, d1: real, d2: real, p: real)
    requires (d1 > 0.0 && d2 > 0.0) || (d1 < 0.0 && d2 < 0.0)
    ensures SettleTwice(q, a, d1, d2, p) == Settle(q, a, d1 + d2, p)
  {
    if d1 > 0.0 {
      SettleBuysInTwo(q, a, d1, d2, p);
    } else {
      hide Settle;
      SettleBuysInTwo(-q, a, -d1, -d2, p);
      SettleMirror(q, a, d1, p);
      var c1 := Settle(q, a, d1, p);
      SettleMirror(c1.quantity, c1.avg, d2, p);
      SettleMirror(q, a, d1 + d2, p);
      assert -d1 + -d2 == -(d1 + d2);
    }
  }

  lemma FeesAdd(p: real, n1: real, n2: real, feeBps: real)
    ensures Fee(p, n1 + n2, feeBps) == Fee(p, n1, feeBps) + Fee(p, n2, feeBps)
  {
    assert p * (n1 + n2) * feeBps == p * n1 * feeBps + p * n2 * feeBps;
  }

  lemma NotionalsAdd(d1: real, d2: real, p: real)
    ensures Notional(d1 + d2, p) == Notional(d1, p) + Notional(d2, p)
  {
  }

  /** Filling an order in pieces, one after another on one side at one price, leaves the
      quantity, average, realized P&L, fees and cash of one fill of the whole, wherever the
      pieces land on or cross zero. */
  lemma {:induction false} SplittingAnOrder(b: Book, deltas: seq<real>, price: real, feeBps: real)
    requires deltas != [] && OneSided(deltas)
    ensures Total(deltas) != 0.0
    ensures FillBookAll(b, deltas, price, feeBps) == FillBook(b, Total(deltas), price, feeBps)
  {
    hide Settle, Fee, Notional;
    TotalHasTheSide(deltas);
    if |deltas| > 1 {
      var init := Init(deltas);
      SplittingAnOrder(b, init, price, feeBps);
      TotalHasTheSide(init);
      assert init[0] == deltas[0];
      SettleInTwo(b.quantity, b.avg, Total(init), Last(deltas), price);
      FeesAdd(price, Abs(Total(init)), Abs(Last(deltas)), feeBps);
      NotionalsAdd(Total(init), Last(deltas), price);
    } else {
      assert Init(deltas) == [];
      assert Total(deltas) == deltas[0];
    }
  }

  // ---------- replaying a log of fills ----------

  datatype Fill = Fill(delta: real, price: real)

  /** The log of one key: no empty fills. */
  predicate Executed(log: seq<Fill>) {
    forall i :: 0 <= i < |log| ==> log[i].delta != 0.0
  }

  /** The position, and the P&L realized so far, that a log of fills leads to from flat. */
  function Replay(log: seq<Fill>): Change
    requires Executed(log)
  {
    if log == [] then Change(0.0, 0.0, 0.0)
    else
      var before := Replay(Init(log));
      var c := Settle(before.quantity, before.avg, Last(log).delta, Last(log).price);
      c.(realized := before.realized + c.realized)
  }

  /** The prices at which the current position was entered, after one more fill: opening
      or flipping starts the list afresh, extending adds to it, reducing keeps it and
      closing empties it. */
  function NextEntries(q: real, entries: seq<real>, f: Fill): seq<real> {
    if q + f.delta == 0.0 then []
    else if q == 0.0 || (q < 0.0 < q + f.delta) || (q + f.delta < 0.0 < q) then [f.price]
    else if (q > 0.0) == (f.delta > 0.0) then entries + [f.price]
    else entries
  }

  function EntryPrices(log: seq<Fill>): seq<real>
    requires Executed(log)
  {
    if log == [] then []
    else NextEntries(Replay(Init(log)).quantity, EntryPrices(Init(log)), Last(log))
  }

  lemma ExtensionBetween(q: real, a: real, delta: real, p: real, lo: real, hi: real)
    requires (q > 0.0 && delta > 0.0) || (q < 0.0 && delta < 0.0)
    requires lo <= a <= hi && lo <= p <= hi
    ensures lo <= Settle(q, a, delta, p).avg <= hi
  {
    if q > 0.0 {
      WeightedMeanBetween(a, q, p, delta, lo, hi);
    } else {
      WeightedMeanBetween(a, -q, p, -delta, lo, hi);
      MirrorExtension(q, a, delta, p);
    }
  }

  /** The average is 0 exactly when the position is flat, and otherwise lies between the
      least and the greatest price at which it was entered. */
  predicate AverageFits(c: Change, entries: seq<real>) {
    && (c.avg == 0.0 <==> c.quantity == 0.0)
    && (entries == [] <==> c.quantity == 0.0)
    && (c.quantity != 0.0 ==> 0.0 < Least(entries) <= c.avg <= Greatest(entries))
  }

  lemma FillKeepsAverageFitting(c: Change, entries: seq<real>, f: Fill)
    requires AverageFits(c, entries) && f.delta != 0.0 && f.price > 0.0
    ensures AverageFits(Settle(c.quantity, c.avg, f.delta, f.price), NextEntries(c.quantity, entries, f))
  {
    var grown := entries + [f.price];
    if c.quantity == 0.0 {
      OpeningAverage(c.avg, f.delta, f.price);
    } else if (c.quantity > 0.0) == (f.delta > 0.0) {
      GrownBounds(entries, f.price);
      ExtensionBetween(c.quantity, c.avg, f.delta, f.price, Least(grown), Greatest(grown));
    }
  }

  /** Over every log of fills at positive prices, however it extends, reduces, flips or
      closes, the average fits the entry prices, and those are prices of fills in the log. */
  lemma {:induction false} AverageBetweenEntries(log: seq<Fill>)
    requires Executed(log)
    requires forall i :: 0 <= i < |log| ==> log[i].price > 0.0
    ensures AverageFits(Replay(log), EntryPrices(log))
    ensures forall e :: e in EntryPrices(log) ==> exists i :: 0 <= i < |log| && log[i].price == e
  {
    if log != [] {
      hide Settle;
      var init, f := Init(log), Last(log);
      AverageBetweenEntries(init);
      FillKeepsAverageFitting(Replay(init), EntryPrices(init), f);
      forall e | e in EntryPrices(log)
        ensures exists i :: 0 <= i < |log| && log[i].price == e
      {
        if e in EntryPrices(init) {
          var i :| 0 <= i < |init| && init[i].price == e;
          assert log[i].price == e;
        } else {
          assert log[|log| - 1].price == e;
        }
      }
    }
  }

  // ---------- lot drift ----------

  /** ratio is at most slack away from a whole number. */
  ghost predicate WithinOfInteger(ratio: real, slack: real) {
    exists k: int :: NearBy(ratio, k, slack)
  }

  predicate NearBy(ratio: real, k: int, slack: real) {
    Abs(ratio - k as real) <= slack
  }

  /** Each lot-checked order adds less than one tolerance of drift. */
  lemma DriftStep(q: real, delta: real, lot: real, slack: real)
    requires lot > 0.0
    requires WithinOfInteger(q / lot, slack) && IsMultiple(Abs(delta), lot)
    ensures WithinOfInteger((q + delta) / lot, slack + TOLERANCE)
  {
    var m :| NearBy(q / lot, m, slack);
    var k :| Near(Abs(delta) / lot, k);
    var signed := if delta >= 0.0 then k else -k;
    if delta < 0.0 {
      QuotientOfNegation(delta, lot);
    }
    QuotientsAdd(q, delta, lot);
    DriftAdds(q / lot, delta / lot, (q + delta) / lot, m, signed, slack);
  }

  lemma DriftAdds(x: real, y: real, z: real, m: int, k: int, slack: real)
    requires z == x + y && NearBy(x, m, slack) && Near(y, k)
    ensures NearBy(z, m + k, slack + TOLERANCE)
  {
  }

}
