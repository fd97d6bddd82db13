/** Win rate over a list of live trades: an average-cost book per symbol, where each close
    that finds an open lot wins or loses against the average. */
module WinRate {
  import opened Common
  import opened RealArithmetic

  datatype Signal = BUY | SELL | CLOSE | OtherSignal

  datatype Row = Row(signal: Signal, symbol: string, lotSize: real, fillPrice: real, filled: bool)

  /** The open lots of one symbol; no lots is no entry in the book. */
  datatype Holding = Holding(lots: real, avgPrice: real)

  const FLAT := Holding(0.0, 0.0)

  predicate Priced(t: Row) {
    t.fillPrice > 0.0 && t.filled
  }

  function Lot(t: Row): real {
    if t.lotSize <= 0.0 then 1.0 else t.lotSize
  }

  predicate Closes(t: Row) {
    Priced(t) && (t.signal.SELL? || t.signal.CLOSE?)
  }

  predicate Wins(h: Holding, t: Row) {
    Closes(t) && h.lots > 0.0 && t.fillPrice > h.avgPrice
  }

  predicate Loses(h: Holding, t: Row) {
    Closes(t) && h.lots > 0.0 && t.fillPrice < h.avgPrice
  }

  /** The average after one more buy. */
  function MeanPrice(h: Holding, t: Row): real
    requires h.lots + Lot(t) > 0.0
  {
    (h.avgPrice * h.lots + t.fillPrice * Lot(t)) / (h.lots + Lot(t))
  }

  /** One row of a symbol's own list. */
  function Next(h: Holding, t: Row): Holding {
    if Priced(t) && t.signal.BUY? then
      if h.lots + Lot(t) > 0.0 then Holding(h.lots + Lot(t), MeanPrice(h, t)) else h.(lots := h.lots + Lot(t))
    else if Closes(t) && h.lots > Lot(t) then h.(lots := h.lots - Lot(t))
    else if Closes(t) then FLAT
    else h
  }

  function Own(trades: seq<Row>, symbol: string): seq<Row> {
    Filter(trades, (t: Row) => t.symbol == symbol)
  }

  /** What a symbol holds after its own rows, and how often it won and lost. */
  function Held(rows: seq<Row>): Holding {
    if rows == [] then FLAT else Next(Held(Init(rows)), Last(rows))
  }

  function OwnWins(rows: seq<Row>): nat {
    if rows == [] then 0
    else OwnWins(Init(rows)) + if Wins(Held(Init(rows)), Last(rows)) then 1 else 0
  }

  function OwnLosses(rows: seq<Row>): nat {
    if rows == [] then 0
    else OwnLosses(Init(rows)) + if Loses(Held(Init(rows)), Last(rows)) then 1 else 0
  }

  /** The decisive closes of an interleaved list, each judged against its own symbol. */
  function TotalWins(trades: seq<Row>): nat {
    if trades == [] then 0
    else
      TotalWins(Init(trades)) +
      if Wins(Held(Own(Init(trades), Last(trades).symbol)), Last(trades)) then 1 else 0
  }

  function TotalLosses(trades: seq<Row>): nat {
    if trades == [] then 0
    else
      TotalLosses(Init(trades)) +
      if Loses(Held(Own(Init(trades), Last(trades).symbol)), Last(trades)) then 1 else 0
  }

  lemma OwnGrows(trades: seq<Row>, t: Row, symbol: string)
    ensures Own(trades + [t], symbol) == Own(trades, symbol) + if t.symbol == symbol then [t] else []
  {
    FilterAppend(trades, t, (u: Row) => u.symbol == symbol);
  }

  lemma HeldGrows(rows: seq<Row>, t: Row)
    ensures Held(rows + [t]) == Next(Held(rows), t)
    ensures OwnWins(rows + [t]) == OwnWins(rows) + if Wins(Held(rows), t) then 1 else 0
    ensures OwnLosses(rows + [t]) == OwnLosses(rows) + if Loses(Held(rows), t) then 1 else 0
  {
    assert Init(rows + [t]) == rows;
  }

  // ---------- the loop ----------

  /** The book maps exactly the symbols that hold lots to their holdings. */
  ghost predicate BookOf(pos: map<string, Holding>, trades: seq<Row>) {
    forall symbol :: Held(Own(trades, symbol)) == if symbol in pos then pos[symbol] else FLAT
  }

  /** The BUY case of the loop. */
  method Buy(h: Holding, t: Row, lot: real) returns (p: Holding)
    requires Priced(t) && t.signal.BUY? && lot == Lot(t)
    ensures p == Next(h, t)
  {
    p := h;
    var totalCost := p.avgPrice * p.lots + t.fillPrice * lot;
    p := p.(lots := p.lots + lot);
    if p.lots > 0.0 {
      p := p.(avgPrice := totalCost / p.lots);
    }
  }

  method ComputeWinRate(trades: seq<Row>) returns (rate: Option<real>)
    ensures rate == None <==> TotalWins(trades) + TotalLosses(trades) == 0
    ensures rate.Some? ==>
              && 0.0 <= rate.value <= 1.0
              && rate.value * (TotalWins(trades) + TotalLosses(trades)) as real == TotalWins(trades) as real
  {
    hide Next, Wins, Loses, Own, Held, BookOf, TotalWins, TotalLosses;
    var pos: map<string, Holding> := map[];
    var wins, losses := 0, 0;
    EmptyBook();
    for n := 0 to |trades|
      invariant BookOf(pos, trades[..n])
      invariant forall symbol :: symbol in pos ==> pos[symbol].lots > 0.0
      invariant wins == TotalWins(trades[..n]) && losses == TotalLosses(trades[..n])
    {
      var t := trades[n];
      ghost var before, pos0, h := trades[..n], pos, if t.symbol in pos then pos[t.symbol] else FLAT;
      assert trades[..n + 1] == before + [t];
      BookAt(pos, before, t.symbol);
      RowCases(h, t);
      TotalsGrow(before, t);
      if Priced(t) {
        var lot := Lot(t);
        if t.signal == BUY {
          var p := if t.symbol in pos then pos[t.symbol] else FLAT;
          p := Buy(p, t, lot);
          pos := pos[t.symbol := p];
        } else if t.signal == SELL || t.signal == CLOSE {
          if t.symbol in pos && pos[t.symbol].lots > 0.0 {
            var p := pos[t.symbol];
            var closeLot := lot;
            if closeLot > p.lots {
              closeLot := p.lots;
            }
            if t.fillPrice > p.avgPrice {
              wins := wins + 1;
            } else if t.fillPrice < p.avgPrice {
              losses := losses + 1;
            }
            p := p.(lots := p.lots - closeLot);
            assert Next(h, t) == if p.lots <= 0.0 then FLAT else p;
            if p.lots <= 0.0 {
              pos := pos - {t.symbol};
            } else {
              pos := pos[t.symbol := p];
            }
          }
        }
      }
      BookGrows(pos0, pos, before, t);
    }
    assert trades[..|trades|] == trades;
    var total := wins + losses;
    if total == 0 {
      return None;
    }
    rate := Some(wins as real / total as real);
    ShareIsARate(wins, total);
  }

  lemma BookAt(pos: map<string, Holding>, trades: seq<Row>, symbol: string)
    requires BookOf(pos, trades)
    ensures Held(Own(trades, symbol)) == if symbol in pos then pos[symbol] else FLAT
  {
  }

  lemma TotalsGrow(trades: seq<Row>, t: Row)
    ensures var h := Held(Own(trades, t.symbol));
            && TotalWins(trades + [t]) == TotalWins(trades) + (if Wins(h, t) then 1 else 0)
            && TotalLosses(trades + [t]) == TotalLosses(trades) + (if Loses(h, t) then 1 else 0)
  {
    assert Init(trades + [t]) == trades;
  }

  lemma ShareIsARate(wins: nat, total: nat)
    requires wins <= total && total > 0
    ensures 0.0 <= wins as real / total as real <= 1.0
    ensures wins as real / total as real * total as real == wins as real
  {
    QuotientBetween(wins as real, total as real, 0.0, 1.0);
  }

  /** The branches of Next, Wins and Loses, spelled as the loop takes them. */
  lemma RowCases(h: Holding, t: Row)
    requires h == FLAT || h.lots > 0.0
    ensures !Priced(t) || t.signal == OtherSignal ==> Next(h, t) == h && !Wins(h, t) && !Loses(h, t)
    ensures Priced(t) && t.signal == BUY ==>
              && h.lots + Lot(t) > 0.0 && !Wins(h, t) && !Loses(h, t)
              && Next(h, t) == Holding(h.lots + Lot(t), MeanPrice(h, t))
    ensures Closes(t) && h == FLAT ==> Next(h, t) == h && !Wins(h, t) && !Loses(h, t)
    ensures Closes(t) && h.lots > 0.0 ==>
              && Next(h, t) == (if h.lots > Lot(t) then h.(lots := h.lots - Lot(t)) else FLAT)
              && (Wins(h, t) <==> t.fillPrice > h.avgPrice) && (Loses(h, t) <==> t.fillPrice < h.avgPrice)
  {
    hide MeanPrice;
  }

  lemma EmptyBook()
    ensures BookOf(map[], []) && TotalWins([]) == 0 && TotalLosses([]) == 0
  {
  }

  lemma BookGrows(pos: map<string, Holding>, pos': map<string, Holding>, trades: seq<Row>, t: Row)
    requires BookOf(pos, trades)
    requires forall symbol :: symbol != t.symbol ==>
               (symbol in pos' <==> symbol in pos) && (symbol in pos ==> pos'[symbol] == pos[symbol])
    requires (if t.symbol in pos' then pos'[t.symbol] else FLAT) == Next(Held(Own(trades, t.symbol)), t)
    ensures BookOf(pos', trades + [t])
  {
    hide Next;
    forall symbol
      ensures Held(Own(trades + [t], symbol)) == if symbol in pos' then pos'[symbol] else FLAT
    {
      OwnGrows(trades, t, symbol);
      HeldGrows(Own(trades, symbol), t);
      assert Own(trades, symbol) + [] == Own(trades, symbol);
    }
  }

  // ---------- decomposition by symbol ----------

  function SumWins(trades: seq<Row>, symbols: seq<string>): nat {
    if symbols == [] then 0 else SumWins(trades, Init(symbols)) + OwnWins(Own(trades, Last(symbols)))
  }

  function SumLosses(trades: seq<Row>, symbols: seq<string>): nat {
    if symbols == [] then 0 else SumLosses(trades, Init(symbols)) + OwnLosses(Own(trades, Last(symbols)))
  }

  lemma {:induction false} SumsGrow(trades: seq<Row>, t: Row, symbols: seq<string>)
    requires Distinct(symbols)
    ensures var h := Held(Own(trades, t.symbol));
            && SumWins(trades + [t], symbols) ==
               SumWins(trades, symbols) + (if t.symbol in symbols && Wins(h, t) then 1 else 0)
            && SumLosses(trades + [t], symbols) ==
               SumLosses(trades, symbols) + (if t.symbol in symbols && Loses(h, t) then 1 else 0)
  {
    if symbols != [] {
      var symbol := Last(symbols);
      hide Wins, Loses, Held, Own;
      SumsGrow(trades, t, Init(symbols));
      OwnGrows(trades, t, symbol);
      HeldGrows(Own(trades, symbol), t);
      assert Own(trades, symbol) + [] == Own(trades, symbol);
      assert symbols == Init(symbols) + [symbol];
      assert symbol !in Init(symbols);
    }
  }

  /** On any interleaved list the wins and losses are the sums of the wins and losses of
      the per-symbol lists, for any list of distinct symbols that covers the trades. */
  lemma {:induction false} WinRateDecomposesBySymbol(trades: seq<Row>, symbols: seq<string>)
    requires Distinct(symbols)
    requires forall i :: 0 <= i < |trades| ==> trades[i].symbol in symbols
    ensures TotalWins(trades) == SumWins(trades, symbols)
    ensures TotalLosses(trades) == SumLosses(trades, symbols)
  {
    hide TotalWins, TotalLosses, SumWins, SumLosses, Held, Own, Wins, Loses, BookOf;
    if trades == [] {
      NoRowsNoWins(symbols);
      EmptyBook();
    } else {
      var init, t := Init(trades), Last(trades);
      assert forall i :: 0 <= i < |init| ==> init[i] == trades[i];
      WinRateDecomposesBySymbol(init, symbols);
      SumsGrow(init, t, symbols);
      TotalsGrow(init, t);
      assert init + [t] == trades && t.symbol in symbols;
    }
  }

  lemma {:induction false} NoRowsNoWins(symbols: seq<string>)
    ensures SumWins([], symbols) == 0 && SumLosses([], symbols) == 0
  {
    if symbols != [] {
      NoRowsNoWins(Init(symbols));
    }
  }

  /** What one more row does, in its own columns. A row counts only if it is filled at a positive
      price; a missing or negative lot is one. A buy adds its lot to what its symbol holds, and
      its price to the cost; a sale or close takes its lot away at the same average, or all
      there is. It wins above that average and loses below it, if its symbol holds anything. No
      other symbol is touched. */
  lemma RowEffect(trades: seq<Row>, t: Row, symbol: string)
    ensures var counts, lot := t.filled && t.fillPrice > 0.0, if t.lotSize > 0.0 then t.lotSize else 1.0;
            var h, h' := Held(Own(trades, symbol)), Held(Own(trades + [t], symbol));
            var own := Held(Own(trades, t.symbol));
            var closes := counts && (t.signal == SELL || t.signal == CLOSE) && own.lots > 0.0;
            && (if t.symbol == symbol && counts && t.signal == BUY then
                  h'.lots == h.lots + lot && h'.avgPrice * h'.lots == h.avgPrice * h.lots + t.fillPrice * lot
                else if t.symbol == symbol && closes then
                  h' == if lot < h.lots then Holding(h.lots - lot, h.avgPrice) else Holding(0.0, 0.0)
                else h' == h)
            && TotalWins(trades + [t]) == TotalWins(trades) + (if closes && t.fillPrice > own.avgPrice then 1 else 0)
            && TotalLosses(trades + [t]) == TotalLosses(trades) + (if closes && t.fillPrice < own.avgPrice then 1 else 0)
  {
    hide Own, Held, TotalWins, TotalLosses, Next, Wins, Loses, MeanPrice, HoldingFits;
    HeldGrowsOwn(trades, t, symbol);
    TotalsGrow(trades, t);
    HoldsOrFlat(Own(trades, t.symbol));
    RowCases(Held(Own(trades, t.symbol)), t);
    if Priced(t) && t.signal == BUY {
      MeanKeepsCost(Held(Own(trades, t.symbol)), t);
    }
  }

  lemma HoldsOrFlat(rows: seq<Row>)
    ensures Held(rows) == FLAT || Held(rows).lots > 0.0
  {
    StoredAverageWithinBuyPrices(rows);
  }

  lemma MeanKeepsCost(h: Holding, t: Row)
    requires h.lots + Lot(t) > 0.0
    ensures MeanPrice(h, t) * (h.lots + Lot(t)) == h.avgPrice * h.lots + t.fillPrice * Lot(t)
  {
  }

  lemma RowIgnored(h: Holding, t: Row)
    requires !Priced(t)
    ensures Next(h, t) == h && !Wins(h, t) && !Loses(h, t)
  {
  }

  lemma HeldGrowsOwn(trades: seq<Row>, t: Row, symbol: string)
    ensures Held(Own(trades + [t], symbol)) ==
            if t.symbol == symbol then Next(Held(Own(trades, symbol)), t) else Held(Own(trades, symbol))
  {
    hide Own, Held, Next;
    OwnGrows(trades, t, symbol);
    HeldGrows(Own(trades, symbol), t);
    assert Own(trades, symbol) + [] == Own(trades, symbol);
  }

  /** Rows that are not filled, or have no fill price, change nothing wherever they stand:
      wins, losses and every holding are those of the priced rows alone. */
  lemma {:induction false} UnpricedRowsAreIgnored(trades: seq<Row>)
    ensures TotalWins(trades) == TotalWins(Filter(trades, Priced))
    ensures TotalLosses(trades) == TotalLosses(Filter(trades, Priced))
    ensures forall symbol :: Held(Own(trades, symbol)) == Held(Own(Filter(trades, Priced), symbol))
  {
    if trades != [] {
      hide Next, Own, Held, TotalWins, TotalLosses, Wins, Loses, Priced;
      var init, t := Init(trades), Last(trades);
      var kept := Filter(init, Priced);
      UnpricedRowsAreIgnored(init);
      assert trades == init + [t];
      TotalsGrow(init, t);
      if Priced(t) {
        TotalsGrow(kept, t);
      } else {
        RowIgnored(Held(Own(init, t.symbol)), t);
        assert Filter(trades, Priced) == kept;
      }
      forall symbol ensures Held(Own(trades, symbol)) == Held(Own(Filter(trades, Priced), symbol)) {
        HeldGrowsOwn(init, t, symbol);
        HeldGrowsOwn(kept, t, symbol);
      }
    }
  }

  lemma OwnOfOwn(trades: seq<Row>, symbol: string)
    ensures Own(Own(trades, symbol), symbol) == Own(trades, symbol)
    decreases |trades|
  {
    if trades != [] {
      var own := Own(Init(trades), symbol);
      OwnOfOwn(Init(trades), symbol);
      OwnGrows(own, Last(trades), symbol);
      assert own + [] == own;
    }
  }

  /** A symbol's own wins and losses are what the loop counts on its rows alone. */
  lemma {:induction false} OwnCountsAreTheLoops(trades: seq<Row>, symbol: string)
    ensures TotalWins(Own(trades, symbol)) == OwnWins(Own(trades, symbol))
    ensures TotalLosses(Own(trades, symbol)) == OwnLosses(Own(trades, symbol))
  {
    if trades != [] {
      hide Own, Held, TotalWins, TotalLosses, OwnWins, OwnLosses, Wins, Loses;
      var init, t := Init(trades), Last(trades);
      var own := Own(init, symbol);
      OwnCountsAreTheLoops(init, symbol);
      assert trades == init + [t];
      OwnGrows(init, t, symbol);
      if t.symbol == symbol {
        OwnOfOwn(init, symbol);
        TotalsGrow(own, t);
        HeldGrows(own, t);
      } else {
        assert own + [] == own;
      }
    } else {
      assert Own(trades, symbol) == [];
    }
  }

  // ---------- what a symbol holds ----------

  /** The prices of the buys since the symbol was last out of the book. */
  function EntryPrices(rows: seq<Row>): seq<real> {
    if rows == [] then []
    else if Held(rows).lots <= 0.0 then []
    else if Priced(Last(rows)) && Last(rows).signal.BUY? then EntryPrices(Init(rows)) + [Last(rows).fillPrice]
    else EntryPrices(Init(rows))
  }

  predicate HoldingFits(h: Holding, prices: seq<real>) {
    && (h == FLAT || h.lots > 0.0)
    && (h.lots == 0.0 <==> prices == [])
    && (h.lots > 0.0 ==> 0.0 < Least(prices) <= h.avgPrice <= Greatest(prices))
  }

  lemma BuyAverage(h: Holding, t: Row, lo: real, hi: real)
    requires h.lots > 0.0 && Priced(t) && t.signal.BUY?
    requires lo <= h.avgPrice <= hi && lo <= t.fillPrice <= hi
    ensures Next(h, t).lots > 0.0 && lo <= Next(h, t).avgPrice <= hi
  {
    WeightedMeanBetween(h.avgPrice, h.lots, t.fillPrice, Lot(t), lo, hi);
  }

  lemma BuyKeepsFit(h: Holding, prices: seq<real>, t: Row)
    requires HoldingFits(h, prices) && Priced(t) && t.signal.BUY?
    ensures HoldingFits(Next(h, t), prices + [t.fillPrice])
  {
    hide Least, Greatest, Next;
    var grown := prices + [t.fillPrice];
    RowCases(h, t);
    if h == FLAT {
      QuotientTimes(t.fillPrice, Lot(t));
      assert prices == [] && grown == [t.fillPrice];
      assert Next(h, t) == Holding(Lot(t), t.fillPrice);
      assert Least(grown) in grown && Greatest(grown) in grown;
    } else {
      GrownBounds(prices, t.fillPrice);
      BuyAverage(h, t, Least(grown), Greatest(grown));
    }
  }

  /** Stored lots are always positive, and a stored average lies between the least and the
      greatest price at which the symbol was bought since it last left the book. */
  lemma {:induction false} StoredAverageWithinBuyPrices(rows: seq<Row>)
    ensures HoldingFits(Held(rows), EntryPrices(rows))
    ensures forall e :: e in EntryPrices(rows) ==>
              exists i :: 0 <= i < |rows| && rows[i].signal.BUY? && Priced(rows[i]) && rows[i].fillPrice == e
  {
    if rows != [] {
      var init, t := Init(rows), Last(rows);
      StoredAverageWithinBuyPrices(init);
      if Priced(t) && t.signal.BUY? {
        BuyKeepsFit(Held(init), EntryPrices(init), t);
      }
      forall e | e in EntryPrices(rows)
        ensures exists i :: 0 <= i < |rows| && rows[i].signal.BUY? && Priced(rows[i]) && rows[i].fillPrice == e
      {
        if e in EntryPrices(init) {
          var i :| 0 <= i < |init| && init[i].signal.BUY? && Priced(init[i]) && init[i].fillPrice == e;
          assert rows[i] == init[i];
        } else {
          assert rows[|rows| - 1].fillPrice == e;
        }
      }
    }
  }
}
