/** The mark-to-market sweep: read the open rows of every account, ask the provider for each
    distinct symbol once in batches of at most 50, then write the marks row by row. */
module MarkSweep {
  import opened Common
  import opened PaperText
  import opened PaperEngine
  import opened PaperLedger
  import opened LedgerInvariant
  import opened LedgerLaws

  datatype Symbol = Symbol(exchange: string, symbol: string)

  datatype Quote = Quote(symbol: Symbol, ltp: real)

  const MAX_SYMBOLS_PER_BATCH := 50

  function SymbolKey(exchange: string, symbol: string): string {
    Normalize(exchange) + "|" + Normalize(symbol)
  }

  function KeyOf(s: Symbol): string {
    SymbolKey(s.exchange, s.symbol)
  }

  function PositionKey(p: Position): string {
    SymbolKey(p.exchange, p.symbol)
  }

  function SymbolOf(p: Position): Symbol {
    Symbol(Normalize(p.exchange), Normalize(p.symbol))
  }

  lemma SymbolKeepsKey(p: Position)
    ensures KeyOf(SymbolOf(p)) == PositionKey(p)
  {
    hide Normalize;
    NormalizeTwice(p.exchange);
    NormalizeTwice(p.symbol);
  }

  // ---------- when two symbols share a key ----------

  predicate Canonical(s: Symbol) {
    s.exchange == Normalize(s.exchange) && s.symbol == Normalize(s.symbol)
  }

  /** b's symbol starts with the part of a's exchange that follows a bar. */
  ghost predicate ShiftedBar(a: Symbol, b: Symbol) {
    exists mid: string :: a.exchange == b.exchange + "|" + mid && b.symbol == mid + "|" + a.symbol
  }

  lemma ShiftedBarFound(a: Symbol, b: Symbol)
    requires a.exchange + "|" + a.symbol == b.exchange + "|" + b.symbol
    requires |a.exchange| > |b.exchange|
    ensures ShiftedBar(a, b) && '|' in a.exchange
  {
    var whole, m, n := a.exchange + "|" + a.symbol, |b.exchange|, |a.exchange|;
    var mid := a.exchange[m + 1..];
    assert whole[m] == '|' && whole[..m] == b.exchange && whole[m + 1..] == b.symbol;
    assert a.exchange == whole[..n] && a.symbol == whole[n + 1..] && whole[n] == '|';
    assert a.exchange[m] == '|';
    assert a.exchange == b.exchange + "|" + mid;
    assert b.symbol == mid + "|" + a.symbol;
  }

  /** Two normalised symbols share a key exactly when they are equal or one moves a bar from
      its exchange into the other's symbol; so keys tell apart symbols whose exchanges hold
      no bar. */
  lemma KeysCollideIff(a: Symbol, b: Symbol)
    requires Canonical(a) && Canonical(b)
    ensures KeyOf(a) == KeyOf(b) <==> a == b || ShiftedBar(a, b) || ShiftedBar(b, a)
    ensures KeyOf(a) == KeyOf(b) && '|' !in a.exchange && '|' !in b.exchange ==> a == b
  {
    hide Normalize;
    if KeyOf(a) == KeyOf(b) {
      if |a.exchange| > |b.exchange| {
        ShiftedBarFound(a, b);
      } else if |b.exchange| > |a.exchange| {
        ShiftedBarFound(b, a);
      } else {
        assert KeyOf(a)[..|a.exchange|] == a.exchange && KeyOf(b)[..|a.exchange|] == b.exchange;
        assert KeyOf(a)[|a.exchange| + 1..] == a.symbol && KeyOf(b)[|a.exchange| + 1..] == b.symbol;
      }
    }
    if ShiftedBar(a, b) {
      ShiftedBarCollides(a, b);
    }
    if ShiftedBar(b, a) {
      ShiftedBarCollides(b, a);
    }
  }

  lemma ShiftedBarCollides(a: Symbol, b: Symbol)
    requires ShiftedBar(a, b)
    ensures a.exchange + "|" + a.symbol == b.exchange + "|" + b.symbol
  {
    var mid :| a.exchange == b.exchange + "|" + mid && b.symbol == mid + "|" + a.symbol;
    assert b.exchange + "|" + mid + "|" + a.symbol == b.exchange + "|" + (mid + "|" + a.symbol);
  }

  // ---------- the symbols to ask for ----------

  function Concat<T>(xss: seq<seq<T>>): seq<T> {
    if xss == [] then [] else Concat(Init(xss)) + Last(xss)
  }

  lemma ConcatAppend<T>(xss: seq<seq<T>>, xs: seq<T>)
    ensures Concat(xss + [xs]) == Concat(xss) + xs
  {
    assert Init(xss + [xs]) == xss;
  }

  lemma {:induction false} InConcat<T>(xss: seq<seq<T>>, n: nat, x: T)
    requires n < |xss| && x in xss[n]
    ensures x in Concat(xss)
  {
    if n < |xss| - 1 {
      InConcat(Init(xss), n, x);
    }
  }

  /** One symbol per key; when rows share a key, the last one read names the symbol. */
  function UniqueSymbols(open: seq<Position>): map<string, Symbol> {
    if open == [] then map[]
    else UniqueSymbols(Init(open))[PositionKey(Last(open)) := SymbolOf(Last(open))]
  }

  lemma UniqueSymbolsAppend(open: seq<Position>, p: Position)
    ensures UniqueSymbols(open + [p]) == UniqueSymbols(open)[PositionKey(p) := SymbolOf(p)]
  {
    assert Init(open + [p]) == open;
  }

  lemma {:induction false} UniqueSymbolsCover(open: seq<Position>)
    ensures forall i :: 0 <= i < |open| ==> PositionKey(open[i]) in UniqueSymbols(open)
    ensures forall k :: k in UniqueSymbols(open) ==>
              && KeyOf(UniqueSymbols(open)[k]) == k
              && exists i :: 0 <= i < |open| && PositionKey(open[i]) == k && SymbolOf(open[i]) == UniqueSymbols(open)[k]
  {
    hide SymbolOf, PositionKey, KeyOf;
    if open != [] {
      UniqueSymbolsCover(Init(open));
      SymbolKeepsKey(Last(open));
      var unique := UniqueSymbols(open);
      forall k | k in unique
        ensures exists i :: 0 <= i < |open| && PositionKey(open[i]) == k && SymbolOf(open[i]) == unique[k]
      {
        if k == PositionKey(Last(open)) {
          assert open[|open| - 1] == Last(open);
        } else {
          var i :| 0 <= i < |Init(open)| && PositionKey(Init(open)[i]) == k && SymbolOf(Init(open)[i]) == unique[k];
          assert open[i] == Init(open)[i];
        }
      }
    }
  }

  /** When rows share a key, the last one read names the symbol that is asked for. */
  lemma {:induction false} LastRowNames(open: seq<Position>, i: nat)
    requires i < |open| && forall j :: i < j < |open| ==> PositionKey(open[j]) != PositionKey(open[i])
    ensures PositionKey(open[i]) in UniqueSymbols(open)
    ensures UniqueSymbols(open)[PositionKey(open[i])] == Symbol(Normalize(open[i].exchange), Normalize(open[i].symbol))
  {
    hide PositionKey;
    if i < |open| - 1 {
      LastRowNames(Init(open), i);
    }
  }

  predicate DistinctKeys(symbols: seq<Symbol>) {
    forall i, j :: 0 <= i < j < |symbols| ==> KeyOf(symbols[i]) != KeyOf(symbols[j])
  }

  /** The symbols of the map, in whatever order it yields them. */
  method ListSymbols(unique: map<string, Symbol>) returns (symbols: seq<Symbol>)
    requires forall k :: k in unique ==> KeyOf(unique[k]) == k
    ensures |symbols| == |unique|
    ensures forall k :: k in unique ==> unique[k] in symbols
    ensures forall i :: 0 <= i < |symbols| ==> KeyOf(symbols[i]) in unique && unique[KeyOf(symbols[i])] == symbols[i]
    ensures DistinctKeys(symbols)
  {
    hide KeyOf;
    symbols := [];
    var left := unique.Keys;
    while left != {}
      invariant left <= unique.Keys && |symbols| + |left| == |unique.Keys|
      invariant forall k :: k in unique && k !in left ==> unique[k] in symbols
      invariant forall i :: 0 <= i < |symbols| ==>
                  KeyOf(symbols[i]) in unique && KeyOf(symbols[i]) !in left && unique[KeyOf(symbols[i])] == symbols[i]
      invariant DistinctKeys(symbols)
      decreases left
    {
      var k :| k in left;
      symbols := symbols + [unique[k]];
      left := left - {k};
    }
  }

  // ---------- asking for quotes ----------

  /** The provider: what it replies to its n-th batch. An error is a reply with the quotes
      that still came, usually none. */
  type Provider = (nat, seq<Symbol>) -> seq<Quote>

  function Replies(ask: Provider, requests: seq<seq<Symbol>>): seq<Quote> {
    if requests == [] then [] else Replies(ask, Init(requests)) + ask(|requests| - 1, Last(requests))
  }

  function QuotesByKey(quotes: seq<Quote>): map<string, real> {
    if quotes == [] then map[]
    else QuotesByKey(Init(quotes))[KeyOf(Last(quotes).symbol) := Last(quotes).ltp]
  }

  lemma QuotesByKeyAppend(quotes: seq<Quote>, q: Quote)
    ensures QuotesByKey(quotes + [q]) == QuotesByKey(quotes)[KeyOf(q.symbol) := q.ltp]
  {
    assert Init(quotes + [q]) == quotes;
  }

  lemma RepliesAppend(ask: Provider, requests: seq<seq<Symbol>>, batch: seq<Symbol>)
    ensures Replies(ask, requests + [batch]) == Replies(ask, requests) + ask(|requests|, batch)
  {
    assert Init(requests + [batch]) == requests;
  }

  /** The inner loop: a later quote for the same key replaces an earlier one. */
  method StoreQuotes(quotes: seq<Quote>, quoteByKey: map<string, real>, ghost before: seq<Quote>)
    returns (quoteByKey': map<string, real>)
    requires quoteByKey == QuotesByKey(before)
    ensures quoteByKey' == QuotesByKey(before + quotes)
  {
    hide KeyOf;
    quoteByKey' := quoteByKey;
    assert before + quotes[..0] == before;
    for m := 0 to |quotes|
      invariant quoteByKey' == QuotesByKey(before + quotes[..m])
    {
      var q := quotes[m];
      QuotesByKeyAppend(before + quotes[..m], q);
      assert before + quotes[..m + 1] == before + quotes[..m] + [q];
      quoteByKey' := quoteByKey'[KeyOf(q.symbol) := q.ltp];
    }
    assert quotes[..|quotes|] == quotes;
  }

  lemma NothingAsked(ask: Provider)
    ensures Concat<Symbol>([]) == [] && QuotesByKey(Replies(ask, [])) == map[]
  {
  }

  /** Every batch but the last is full, and the last is not empty and not over the limit. */
  predicate Packed(requests: seq<seq<Symbol>>) {
    forall n :: 0 <= n < |requests| ==>
      1 <= |requests[n]| <= MAX_SYMBOLS_PER_BATCH && (n < |requests| - 1 ==> |requests[n]| == MAX_SYMBOLS_PER_BATCH)
  }

  /** The batches partition the symbols in order, in as few requests as the limit allows. */
  method FetchQuotes(ask: Provider, symbols: seq<Symbol>)
    returns (quoteByKey: map<string, real>, requests: seq<seq<Symbol>>)
    ensures Concat(requests) == symbols && Packed(requests)
    ensures |requests| == (|symbols| + 49) / 50
    ensures quoteByKey == QuotesByKey(Replies(ask, requests))
  {
    hide KeyOf, Concat, Replies, QuotesByKey;
    quoteByKey, requests := map[], [];
    NothingAsked(ask);
    var i := 0;
    while i < |symbols|
      invariant Concat(requests) == symbols[..if i < |symbols| then i else |symbols|]
      invariant Packed(requests) && i == |requests| * MAX_SYMBOLS_PER_BATCH
      invariant i < |symbols| + MAX_SYMBOLS_PER_BATCH
      invariant forall n :: 0 <= n < |requests| && i <= |symbols| ==> |requests[n]| == MAX_SYMBOLS_PER_BATCH
      invariant quoteByKey == QuotesByKey(Replies(ask, requests))
    {
      var end := i + MAX_SYMBOLS_PER_BATCH;
      if end > |symbols| {
        end := |symbols|;
      }
      var batch := symbols[i..end];
      var quotes := ask(|requests|, batch);
      quoteByKey := StoreQuotes(quotes, quoteByKey, Replies(ask, requests));
      RepliesAppend(ask, requests, batch);
      ConcatAppend(requests, batch);
      assert symbols[..i] + batch == symbols[..end];
      requests := requests + [batch];
      i := i + MAX_SYMBOLS_PER_BATCH;
    }
    assert symbols[..|symbols|] == symbols;
  }

  /** The provider quotes only symbols it was asked for, each at the price it would give to a
      query for that symbol alone. */
  ghost predicate Consistent(ask: Provider, direct: Symbol -> Option<real>) {
    forall n, batch, i :: 0 <= i < |ask(n, batch)| ==>
      ask(n, batch)[i].symbol in batch && direct(ask(n, batch)[i].symbol) == Some(ask(n, batch)[i].ltp)
  }

  /** The n-th batch came back whole. */
  ghost predicate Answered(ask: Provider, direct: Symbol -> Option<real>, n: nat, batch: seq<Symbol>) {
    forall s :: s in batch && direct(s).Some? ==>
      exists i :: 0 <= i < |ask(n, batch)| && ask(n, batch)[i].symbol == s
  }

  lemma {:induction false} QuotesByKeyHolds(quotes: seq<Quote>)
    ensures forall i :: 0 <= i < |quotes| ==> KeyOf(quotes[i].symbol) in QuotesByKey(quotes)
    ensures forall k :: k in QuotesByKey(quotes) ==>
              exists i :: 0 <= i < |quotes| && KeyOf(quotes[i].symbol) == k && quotes[i].ltp == QuotesByKey(quotes)[k]
  {
    hide KeyOf;
    if quotes != [] {
      QuotesByKeyHolds(Init(quotes));
      forall k | k in QuotesByKey(quotes)
        ensures exists i :: 0 <= i < |quotes| && KeyOf(quotes[i].symbol) == k && quotes[i].ltp == QuotesByKey(quotes)[k]
      {
        if k == KeyOf(Last(quotes).symbol) {
          assert quotes[|quotes| - 1] == Last(quotes);
        } else {
          var i :| 0 <= i < |Init(quotes)| && KeyOf(Init(quotes)[i].symbol) == k
                   && Init(quotes)[i].ltp == QuotesByKey(quotes)[k];
          assert quotes[i] == Init(quotes)[i];
        }
      }
    }
  }

  /** When quotes share a key, the last one received counts. */
  lemma {:induction false} LastQuoteCounts(quotes: seq<Quote>, i: nat)
    requires i < |quotes| && forall j :: i < j < |quotes| ==> KeyOf(quotes[j].symbol) != KeyOf(quotes[i].symbol)
    ensures KeyOf(quotes[i].symbol) in QuotesByKey(quotes)
    ensures QuotesByKey(quotes)[KeyOf(quotes[i].symbol)] == quotes[i].ltp
  {
    hide KeyOf;
    if i < |quotes| - 1 {
      LastQuoteCounts(Init(quotes), i);
    }
  }

  /** Every reply came to some batch that held its symbol. */
  lemma {:induction false} RepliesAreDirect(ask: Provider, direct: Symbol -> Option<real>, requests: seq<seq<Symbol>>)
    requires Consistent(ask, direct)
    ensures forall i :: 0 <= i < |Replies(ask, requests)| ==>
              var q := Replies(ask, requests)[i];
              q.symbol in Concat(requests) && direct(q.symbol) == Some(q.ltp)
  {
    if requests != [] {
      RepliesAreDirect(ask, direct, Init(requests));
    }
  }

  lemma {:induction false} ReplyReceived(ask: Provider, requests: seq<seq<Symbol>>, n: nat, i: nat)
    requires n < |requests| && i < |ask(n, requests[n])|
    ensures ask(n, requests[n])[i] in Replies(ask, requests)
  {
    if n < |requests| - 1 {
      ReplyReceived(ask, Init(requests), n, i);
    } else {
      assert Last(requests) == requests[n];
    }
  }

  /** A symbol of the n-th batch is looked up with its own direct price, and is missing only
      if that batch failed to report it or there is no price. */
  lemma QuoteIsDirect(ask: Provider, direct: Symbol -> Option<real>, requests: seq<seq<Symbol>>, n: nat, s: Symbol)
    requires Consistent(ask, direct) && DistinctKeys(Concat(requests))
    requires n < |requests| && s in requests[n]
    ensures var quoteByKey := QuotesByKey(Replies(ask, requests));
            && (KeyOf(s) in quoteByKey ==> direct(s) == Some(quoteByKey[KeyOf(s)]))
            && (Answered(ask, direct, n, requests[n]) && direct(s).Some? ==> KeyOf(s) in quoteByKey)
  {
    hide KeyOf, Consistent, QuotesByKey, Replies, Concat;
    var replies := Replies(ask, requests);
    QuotesByKeyHolds(replies);
    RepliesAreDirect(ask, direct, requests);
    InConcat(requests, n, s);
    if Answered(ask, direct, n, requests[n]) && direct(s).Some? {
      var i :| 0 <= i < |ask(n, requests[n])| && ask(n, requests[n])[i].symbol == s;
      ReplyReceived(ask, requests, n, i);
    }
  }

  // ---------- writing the marks ----------

  /** What to mark a row with: None leaves it alone. */
  type Pricing = Position -> Option<real>

  function ByKey(quoteByKey: map<string, real>): Pricing {
    (p: Position) => if PositionKey(p) in quoteByKey then Some(quoteByKey[PositionKey(p)]) else None
  }

  /** The writes for the rows that were read, one after another; a failed write is skipped. */
  function Marked(s: Ledger, open: seq<Position>, price: Pricing, writeFails: set<nat>): Ledger {
    if open == [] then s
    else
      var before := Marked(s, Init(open), price, writeFails);
      var p := Last(open);
      if price(p).Some? && p.id !in writeFails then AfterMark(before, p, price(p).value) else before
  }

  /** applyMarks: every write, then one equity snapshot. */
  method ApplyMarks(account: PaperStore, open: seq<Position>, quoteByKey: map<string, real>, writeFails: set<nat>)
    modifies account
    ensures account.State() == Snapshotted(Marked(old(account.State()), open, ByKey(quoteByKey), writeFails))
  {
    hide PositionKey, ReportedEquity;
    ghost var s, price := account.State(), ByKey(quoteByKey);
    for n := 0 to |open|
      invariant account.State() == Marked(s, open[..n], price, writeFails)
    {
      var pos := open[n];
      assert Init(open[..n + 1]) == open[..n];
      if PositionKey(pos) in quoteByKey {
        var ltp := quoteByKey[PositionKey(pos)];
        pos := pos.(lastPrice := ltp, unrealizedPnL := UnrealizedPnL(pos.quantity, pos.avgEntryPrice, ltp));
        if pos.id !in writeFails {
          account.UpdatePaperPositionMark(pos);
        }
      }
    }
    assert open[..|open|] == open;
    account.RecordEquitySnapshot();
  }

  /** The simple form of a sweep: look each open row's price up and set its mark. */
  function Repriced(p: Position, price: Pricing, writeFails: set<nat>): Position {
    if IsOpen(p) && price(p).Some? && p.id !in writeFails then
      p.(lastPrice := price(p).value,
         unrealizedPnL := UnrealizedPnL(p.quantity, p.avgEntryPrice, price(p).value))
    else p
  }

  function RepriceAll(rows: seq<Position>, price: Pricing, writeFails: set<nat>): seq<Position> {
    Map(rows, (p: Position) => Repriced(p, price, writeFails))
  }

  lemma {:induction false} MarkedPointwise(s: Ledger, open: seq<Position>, price: Pricing, writeFails: set<nat>)
    requires UniqueRows(s.positions)
    requires forall j :: 0 <= j < |open| ==> open[j] in s.positions && IsOpen(open[j])
    ensures var rows := Marked(s, open, price, writeFails).positions;
            && |rows| == |s.positions|
            && (forall i :: 0 <= i < |rows| ==>
                  rows[i] == if s.positions[i] in open then Repriced(s.positions[i], price, writeFails) else s.positions[i])
    ensures Marked(s, open, price, writeFails) == s.(positions := Marked(s, open, price, writeFails).positions)
  {
    hide RowKey, UnrealizedPnL;
    if open != [] {
      MarkedPointwise(s, Init(open), price, writeFails);
      assert open == Init(open) + [Last(open)];
    }
  }

  /** With no event between its read and its writes, a sweep sets every open row to its
      looked-up price and leaves flat rows, cash and history alone. */
  lemma UndisturbedSweepReprices(s: Ledger, price: Pricing, writeFails: set<nat>)
    requires UniqueRows(s.positions)
    ensures Marked(s, Filter(s.positions, IsOpen), price, writeFails) ==
            s.(positions := RepriceAll(s.positions, price, writeFails))
  {
    hide RowKey, UnrealizedPnL;
    var open := Filter(s.positions, IsOpen);
    FilterMembers(s.positions, IsOpen);
    assert forall j :: 0 <= j < |open| ==> open[j] in open;
    MarkedPointwise(s, open, price, writeFails);
    assert Marked(s, open, price, writeFails).positions == RepriceAll(s.positions, price, writeFails);
  }

  /** The same writes as events of an account's run, where anything may come between them. */
  function Writes(open: seq<Position>, price: Pricing, writeFails: set<nat>): seq<Event> {
    if open == [] then []
    else
      var p := Last(open);
      Writes(Init(open), price, writeFails) +
      if price(p).Some? && p.id !in writeFails then [SweepWrite(|open| - 1, price(p).value)] else []
  }

  lemma {:induction false} WritesAreSteps(w: World, open: seq<Position>, price: Pricing, writeFails: set<nat>)
    requires open <= w.copies
    ensures Run(w, Writes(open, price, writeFails)) == w.(ledger := Marked(w.ledger, open, price, writeFails))
  {
    hide AfterMark, Run;
    if open == [] {
      RunNothing(w);
    } else {
      var before, p := Writes(Init(open), price, writeFails), Last(open);
      WritesAreSteps(w, Init(open), price, writeFails);
      if price(p).Some? && p.id !in writeFails {
        RunMore(w, before, SweepWrite(|open| - 1, price(p).value));
      } else {
        assert before + [] == before;
      }
    }
  }

  // ---------- the whole sweep ----------

  lemma {:induction false} MarkedCongruent(s: Ledger, open: seq<Position>, price: Pricing, price': Pricing, writeFails: set<nat>)
    requires forall j :: 0 <= j < |open| ==> price(open[j]) == price'(open[j])
    ensures Marked(s, open, price, writeFails) == Marked(s, open, price', writeFails)
  {
    hide AfterMark;
    if open != [] {
      MarkedCongruent(s, Init(open), price, price', writeFails);
    }
  }

  /** What a sweep reads of an account: its open rows, or nothing when the listing fails. */
  ghost function ReadRows(rows: seq<Position>, listed: bool): seq<Position> {
    if listed then Filter(rows, IsOpen) else []
  }

  /** The accounts after a sweep that read the given rows of each. */
  ghost function AfterSweep(s: Ledger, open: seq<Position>, price: Pricing, writeFails: set<nat>): Ledger {
    if open == [] then s else Snapshotted(Marked(s, open, price, writeFails))
  }

  /** One pass over the accounts. The rows read, the requests made and the quotes found are
      returned beside the changed accounts. */
  method Sweep(accounts: seq<PaperStore>, listed: seq<bool>, ask: Provider, writeFails: set<nat>)
    returns (open: seq<seq<Position>>, requests: seq<seq<Symbol>>, quoteByKey: map<string, real>)
    requires |listed| == |accounts|
    requires forall i, j :: 0 <= i < j < |accounts| ==> accounts[i] != accounts[j]
    modifies set i | 0 <= i < |accounts| :: accounts[i]
    ensures |open| == |accounts|
    ensures forall i :: 0 <= i < |accounts| ==> open[i] == ReadRows(old(accounts[i].positions), listed[i])
    ensures RequestsMatch(requests, Concat(open))
    ensures quoteByKey == QuotesByKey(Replies(ask, requests))
    ensures forall i :: 0 <= i < |accounts| ==>
              accounts[i].State() == AfterSweep(old(accounts[i].State()), open[i], ByKey(quoteByKey), writeFails)
    ensures forall i :: 0 <= i < |accounts| && (!listed[i] || Filter(old(accounts[i].positions), IsOpen) == []) ==>
              accounts[i].State() == old(accounts[i].State())
  {
    hide PositionKey, KeyOf, AfterSweep, ByKey, ReadRows, RequestsMatch, UniqueSymbols, Filter, Replies, QuotesByKey, Concat,
      PaperStore.State, Packed;
    var uniqueSymbols;
    open, uniqueSymbols := ReadAccounts(accounts, listed);
    UniqueSymbolsCover(Concat(open));
    var symbols := ListSymbols(uniqueSymbols);
    quoteByKey, requests := FetchQuotes(ask, symbols);
    AsksEachSymbolOnce(requests, Concat(open), symbols);
    for n := 0 to |accounts|
      invariant forall i :: 0 <= i < n ==>
                  accounts[i].State() == AfterSweep(old(accounts[i].State()), open[i], ByKey(quoteByKey), writeFails)
      invariant forall i :: n <= i < |accounts| ==> accounts[i].State() == old(accounts[i].State())
    {
      MarkAccount(accounts[n], open[n], quoteByKey, writeFails);
    }
    forall i | 0 <= i < |accounts| && (!listed[i] || Filter(old(accounts[i].positions), IsOpen) == [])
      ensures accounts[i].State() == old(accounts[i].State())
    {
      NothingReadNothingDone(
        old(accounts[i].State()), old(accounts[i].positions), listed[i], ByKey(quoteByKey), writeFails);
    }
  }

  method MarkAccount(account: PaperStore, open: seq<Position>, quoteByKey: map<string, real>, writeFails: set<nat>)
    modifies account
    ensures account.State() == AfterSweep(old(account.State()), open, ByKey(quoteByKey), writeFails)
  {
    if |open| > 0 {
      ApplyMarks(account, open, quoteByKey, writeFails);
    }
  }

  lemma NothingReadNothingDone(s: Ledger, rows: seq<Position>, listed: bool, price: Pricing, writeFails: set<nat>)
    requires !listed || Filter(rows, IsOpen) == []
    ensures AfterSweep(s, ReadRows(rows, listed), price, writeFails) == s
  {
  }

  lemma NothingRead()
    ensures UniqueSymbols(Concat([])) == map[]
  {
  }

  /** The reading loops: the open rows of each account that could be listed, and one symbol
      for each of their keys. */
  method ReadAccounts(accounts: seq<PaperStore>, listed: seq<bool>)
    returns (open: seq<seq<Position>>, uniqueSymbols: map<string, Symbol>)
    requires |listed| == |accounts|
    ensures |open| == |accounts|
    ensures forall i :: 0 <= i < |accounts| ==> open[i] == ReadRows(accounts[i].positions, listed[i])
    ensures uniqueSymbols == UniqueSymbols(Concat(open))
  {
    hide PositionKey, SymbolOf, KeyOf, Filter, UniqueSymbols, Concat;
    open, uniqueSymbols := [], map[];
    NothingRead();
    for n := 0 to |accounts|
      invariant |open| == n
      invariant forall i :: 0 <= i < n ==> open[i] == ReadRows(accounts[i].positions, listed[i])
      invariant uniqueSymbols == UniqueSymbols(Concat(open))
    {
      var rows: seq<Position> := [];
      assert Concat(open) + [] == Concat(open);
      if listed[n] {
        var positions := accounts[n].positions;
        rows, uniqueSymbols := CollectOpen(positions, uniqueSymbols, Concat(open));
      }
      ConcatAppend(open, rows);
      open := open + [rows];
    }
  }

  /** The inner loop: the open rows of one account, each entering its symbol in the map. */
  method CollectOpen(positions: seq<Position>, unique: map<string, Symbol>, ghost earlier: seq<Position>)
    returns (open: seq<Position>, unique': map<string, Symbol>)
    requires unique == UniqueSymbols(earlier)
    ensures open == Filter(positions, IsOpen)
    ensures unique' == UniqueSymbols(earlier + open)
  {
    hide PositionKey, SymbolOf;
    open, unique' := [], unique;
    assert earlier + [] == earlier;
    for n := 0 to |positions|
      invariant open == Filter(positions[..n], IsOpen)
      invariant unique' == UniqueSymbols(earlier + open)
    {
      var pos := positions[n];
      assert positions[..n + 1] == positions[..n] + [pos];
      FilterAppend(positions[..n], pos, IsOpen);
      if pos.quantity != 0.0 {
        UniqueSymbolsAppend(earlier + open, pos);
        assert earlier + (open + [pos]) == earlier + open + [pos];
        open := open + [pos];
        unique' := unique'[PositionKey(pos) := SymbolOf(pos)];
      }
    }
    assert positions[..|positions|] == positions;
  }

  /** Every key among the rows is asked for exactly once, nothing else is, and the batches are
      packed. */
  ghost predicate RequestsMatch(requests: seq<seq<Symbol>>, open: seq<Position>) {
    && Packed(requests) && DistinctKeys(Concat(requests))
    && (forall i :: 0 <= i < |open| ==> AskedFor(Concat(requests), UniqueSymbols(open), PositionKey(open[i])))
    && (forall j :: 0 <= j < |Concat(requests)| ==> NamedBy(open, KeyOf(Concat(requests)[j])))
  }

  predicate AskedFor(symbols: seq<Symbol>, unique: map<string, Symbol>, key: string) {
    key in unique && unique[key] in symbols
  }

  predicate NamedBy(open: seq<Position>, key: string) {
    exists i :: 0 <= i < |open| && PositionKey(open[i]) == key
  }

  lemma AsksEachSymbolOnce(requests: seq<seq<Symbol>>, open: seq<Position>, symbols: seq<Symbol>)
    requires Concat(requests) == symbols && DistinctKeys(symbols)
    requires Packed(requests)
    requires forall k :: k in UniqueSymbols(open) ==> UniqueSymbols(open)[k] in symbols
    requires forall j :: 0 <= j < |symbols| ==> KeyOf(symbols[j]) in UniqueSymbols(open)
    ensures RequestsMatch(requests, open)
  {
    hide PositionKey, KeyOf, SymbolOf, UniqueSymbols, Concat;
    UniqueSymbolsCover(open);
    forall i | 0 <= i < |open| ensures AskedFor(symbols, UniqueSymbols(open), PositionKey(open[i])) {
      assert PositionKey(open[i]) in UniqueSymbols(open);
    }
    forall j | 0 <= j < |symbols| ensures NamedBy(open, KeyOf(symbols[j])) {
      assert KeyOf(symbols[j]) in UniqueSymbols(open);
    }
    hide AskedFor, NamedBy;
  }

  // ---------- what a sweep amounts to ----------

  function Direct(direct: Symbol -> Option<real>): Pricing {
    (p: Position) => direct(SymbolOf(p))
  }

  lemma {:induction false} InSomeBatch<T>(xss: seq<seq<T>>, x: T) returns (n: nat)
    requires x in Concat(xss)
    ensures n < |xss| && x in xss[n]
  {
    if x in Last(xss) {
      n := |xss| - 1;
    } else {
      n := InSomeBatch(Init(xss), x);
    }
  }

  /** Each row is priced by the last row read that shares its key: the sweep finds exactly
      the direct price of that row's symbol, or nothing, and nothing only when the batch
      that held the symbol did not report it. */
  lemma EachRowIsPricedByItsKey(ask: Provider, direct: Symbol -> Option<real>, requests: seq<seq<Symbol>>,
                                open: seq<Position>, i: nat) returns (n: nat)
    requires Consistent(ask, direct) && RequestsMatch(requests, open) && i < |open|
    ensures PositionKey(open[i]) in UniqueSymbols(open)
    ensures var symbol := UniqueSymbols(open)[PositionKey(open[i])];
            var price := ByKey(QuotesByKey(Replies(ask, requests)))(open[i]);
            && n < |requests| && symbol in requests[n]
            && (price.Some? ==> price == direct(symbol))
            && (Answered(ask, direct, n, requests[n]) ==> price == direct(symbol))
  {
    hide PositionKey, KeyOf;
    UniqueSymbolsCover(open);
    var symbol := UniqueSymbols(open)[PositionKey(open[i])];
    n := InSomeBatch(requests, symbol);
    QuoteIsDirect(ask, direct, requests, n, symbol);
  }

  /** No two rows share a key while naming different symbols. */
  predicate KeysTellApart(open: seq<Position>) {
    forall i, j :: 0 <= i < |open| && 0 <= j < |open| && PositionKey(open[i]) == PositionKey(open[j]) ==>
      SymbolOf(open[i]) == SymbolOf(open[j])
  }

  /** Rows whose exchanges hold no bar are told apart by their keys. */
  lemma BarlessKeysTellApart(open: seq<Position>)
    requires forall i :: 0 <= i < |open| ==> '|' !in Normalize(open[i].exchange)
    ensures KeysTellApart(open)
  {
    hide PositionKey, KeyOf, Normalize;
    forall i, j | 0 <= i < |open| && 0 <= j < |open| && PositionKey(open[i]) == PositionKey(open[j])
      ensures SymbolOf(open[i]) == SymbolOf(open[j])
    {
      SymbolKeepsKey(open[i]);
      SymbolKeepsKey(open[j]);
      SymbolIsCanonical(open[i]);
      SymbolIsCanonical(open[j]);
      KeysCollideIff(SymbolOf(open[i]), SymbolOf(open[j]));
    }
  }

  lemma SymbolIsCanonical(p: Position)
    ensures Canonical(SymbolOf(p))
  {
    hide Normalize;
    NormalizeTwice(p.exchange);
    NormalizeTwice(p.symbol);
  }

  lemma OwnSymbol(open: seq<Position>, i: nat)
    requires KeysTellApart(open) && i < |open|
    ensures PositionKey(open[i]) in UniqueSymbols(open)
    ensures UniqueSymbols(open)[PositionKey(open[i])] == SymbolOf(open[i])
  {
    hide PositionKey, SymbolOf, KeyOf;
    UniqueSymbolsCover(open);
  }

  /** A failed batch leaves unmarked only rows whose symbol was in it; every row that is
      marked gets the price a query for its own symbol would give. */
  lemma FailedBatchLosesOnlyItsOwn(ask: Provider, direct: Symbol -> Option<real>, requests: seq<seq<Symbol>>,
                                   open: seq<Position>, i: nat)
    requires Consistent(ask, direct) && RequestsMatch(requests, open) && KeysTellApart(open) && i < |open|
    ensures var price := ByKey(QuotesByKey(Replies(ask, requests)))(open[i]);
            && (price.Some? ==> price == direct(SymbolOf(open[i])))
            && (price != direct(SymbolOf(open[i])) ==>
                  exists n :: 0 <= n < |requests| && SymbolOf(open[i]) in requests[n]
                              && !Answered(ask, direct, n, requests[n]))
  {
    hide PositionKey, SymbolOf, KeyOf, ByKey, Answered, Consistent, RequestsMatch;
    var n := EachRowIsPricedByItsKey(ask, direct, requests, open, i);
    OwnSymbol(open, i);
  }

  /** The deduplicated, batched sweep refines the simple one: when every batch is answered,
      each account ends as if each of its open rows had been priced by a query of its own. */
  lemma SweepRefinesDirectQueries(ask: Provider, direct: Symbol -> Option<real>, requests: seq<seq<Symbol>>,
                                  open: seq<seq<Position>>, i: nat, s: Ledger, writeFails: set<nat>)
    requires Consistent(ask, direct) && RequestsMatch(requests, Concat(open)) && KeysTellApart(Concat(open))
    requires forall n :: 0 <= n < |requests| ==> Answered(ask, direct, n, requests[n])
    requires i < |open| && open[i] == ReadRows(s.positions, true) && UniqueRows(s.positions)
    ensures AfterSweep(s, open[i], ByKey(QuotesByKey(Replies(ask, requests))), writeFails) ==
            if open[i] == [] then s
            else Snapshotted(s.(positions := RepriceAll(s.positions, Direct(direct), writeFails)))
  {
    hide PositionKey, SymbolOf, KeyOf, ByKey, Answered, Consistent, RequestsMatch, KeysTellApart, RowKey, ReportedEquity, AfterMark;
    var price := ByKey(QuotesByKey(Replies(ask, requests)));
    forall j | 0 <= j < |open[i]| ensures price(open[i][j]) == Direct(direct)(open[i][j]) {
      InConcat(open, i, open[i][j]);
      var c :| 0 <= c < |Concat(open)| && Concat(open)[c] == open[i][j];
      FailedBatchLosesOnlyItsOwn(ask, direct, requests, Concat(open), c);
    }
    MarkedCongruent(s, open[i], price, Direct(direct), writeFails);
    UndisturbedSweepReprices(s, Direct(direct), writeFails);
  }

  /** The gap that a sweep leaves in a row: none if it marks the row, and what was there if the
      row is flat, gets no quote or fails its write. */
  function LeftGap(price: Pricing, writeFails: set<nat>): Position -> real {
    (p: Position) => if IsOpen(p) && price(p).Some? && p.id !in writeFails then 0.0 else GapOf(p)
  }

  lemma {:induction false} RepricedSums(rows: seq<Position>, price: Pricing, writeFails: set<nat>)
    ensures Sum(RepriceAll(rows, price, writeFails), GapOf) == Sum(rows, LeftGap(price, writeFails))
    ensures Sum(RepriceAll(rows, price, writeFails), CostOf) == Sum(rows, CostOf)
  {
    if rows != [] {
      hide UnrealizedPnL;
      RepricedSums(Init(rows), price, writeFails);
      assert Init(RepriceAll(rows, price, writeFails)) == RepriceAll(Init(rows), price, writeFails);
      assert Last(RepriceAll(rows, price, writeFails)) == Repriced(Last(rows), price, writeFails);
    }
  }

  lemma {:induction false} NoneOpen(rows: seq<Position>, price: Pricing, writeFails: set<nat>)
    requires Filter(rows, IsOpen) == []
    ensures RepriceAll(rows, price, writeFails) == rows
  {
    FilterMembers(rows, IsOpen);
    assert forall i :: 0 <= i < |rows| ==> rows[i] in rows && !IsOpen(rows[i]);
  }

  /** After a sweep that nothing interrupts, on any account, the equity error is exactly what
      the rows it did not mark still carry, less the imbalance of cash and cost. So reported
      equity is then right if and only if those make up for each other; in particular when
      cash and cost balance and no such row was stale. */
  lemma UndisturbedSweepKeepsEquityIff(s: Ledger, price: Pricing, writeFails: set<nat>)
    requires UniqueRows(s.positions)
    ensures var s' := AfterSweep(s, ReadRows(s.positions, true), price, writeFails);
            && EquityError(s') == Sum(s.positions, LeftGap(price, writeFails)) - Imbalance(s)
            && (ReportedEquity(s') == s'.cashBalance + Sum(s'.positions, ValueOf) <==>
                Sum(s.positions, LeftGap(price, writeFails)) == Imbalance(s))
    ensures Balanced(s)
            && (forall i :: 0 <= i < |s.positions| ==> LeftGap(price, writeFails)(s.positions[i]) == 0.0) ==>
              var s' := AfterSweep(s, ReadRows(s.positions, true), price, writeFails);
              ReportedEquity(s') == s'.cashBalance + Sum(s'.positions, ValueOf)
  {
    var rows' := RepriceAll(s.positions, price, writeFails);
    SweepEndsRepriced(s, price, writeFails);
    RepricedSums(s.positions, price, writeFails);
    hide Sum, RepriceAll, LeftGap, GapOf, CostOf, ReportedEquity, UniqueRows, AfterSweep;
    ErrorIsGapsLessImbalance(AfterSweep(s, ReadRows(s.positions, true), price, writeFails));
    if forall i :: 0 <= i < |s.positions| ==> LeftGap(price, writeFails)(s.positions[i]) == 0.0 {
      ZeroSum(s.positions, LeftGap(price, writeFails));
    }
  }

  lemma SweepEndsRepriced(s: Ledger, price: Pricing, writeFails: set<nat>)
    requires UniqueRows(s.positions)
    ensures var s' := AfterSweep(s, ReadRows(s.positions, true), price, writeFails);
            s' == s.(positions := RepriceAll(s.positions, price, writeFails), snapshots := s'.snapshots)
  {
    hide RepriceAll, ReportedEquity, UniqueRows, Marked;
    if ReadRows(s.positions, true) == [] {
      NoneOpen(s.positions, price, writeFails);
    } else {
      UndisturbedSweepReprices(s, price, writeFails);
    }
  }
}
