/** One paper account in the store: its tables, the transactions that write them, and the
    runs those transactions make. A UUID is modelled by a counter that is never reused. */
module PaperLedger {
  import opened Common
  import opened PaperText
  import opened PaperEngine

  datatype Key = Key(exchange: string, symbol: string, product: string)

  datatype Ledger = Ledger(
    startingBalance: real, cashBalance: real,
    positions: seq<Position>, orders: seq<Order>, trades: seq<Trade>,
    snapshots: seq<real>, nextId: nat)

  // ---------- keys and lookups ----------

  /** The normalised key an order addresses. */
  function QueryKey(exchange: string, symbol: string, product: string): Key {
    Key(ToUpper(Normalize(exchange)), ToUpper(Normalize(symbol)), product)
  }

  function RequestKey(req: Request): Key {
    QueryKey(req.exchange, req.symbol, req.product)
  }

  function OrderKey(o: Order): Key {
    QueryKey(o.exchange, o.symbol, o.product)
  }

  /** The key a stored row is compared by in SQL. */
  function RowKey(p: Position): Key {
    Key(ToUpper(p.exchange), ToUpper(p.symbol), p.product)
  }

  function FindRow(rows: seq<Position>, k: Key): (r: Option<nat>)
    ensures r.Some? ==> r.value < |rows| && RowKey(rows[r.value]) == k
    ensures r == None ==> forall i :: 0 <= i < |rows| ==> RowKey(rows[i]) != k
  {
    if rows == [] then None
    else if RowKey(Last(rows)) == k then Some(|rows| - 1)
    else FindRow(Init(rows), k)
  }

  function Lookup(rows: seq<Position>, k: Key): Option<Position> {
    match FindRow(rows, k)
    case None => None
    case Some(i) => Some(rows[i])
  }

  // ---------- the transactions ----------

  function CostOf(p: Position): real { p.quantity * p.avgEntryPrice }

  function ValueOf(p: Position): real { p.quantity * p.lastPrice }

  function UnrealizedOf(p: Position): real { p.unrealizedPnL }

  function RealizedOf(t: Trade): real { t.realizedPnL }

  function FeesOf(t: Trade): real { t.fees }

  /** The equity the P&L summary reports: it never looks at cash. */
  function ReportedEquity(s: Ledger): real {
    var totalPnL := Sum(s.trades, RealizedOf) + Sum(s.positions, UnrealizedOf) - Sum(s.trades, FeesOf);
    s.startingBalance + totalPnL
  }

  function Snapshotted(s: Ledger): Ledger {
    s.(snapshots := s.snapshots + [ReportedEquity(s)])
  }

  function Opened(startingBalance: real): Ledger {
    Snapshotted(Ledger(startingBalance, startingBalance, [], [], [], [], 0))
  }

  /** UPDATE paper_positions SET quantity, avg_entry_price, last_price, unrealized_pnl WHERE id. */
  function WriteWhereId(rows: seq<Position>, id: nat, p: Position): (r: seq<Position>)
    ensures |r| == |rows|
    ensures forall i :: 0 <= i < |rows| ==>
              r[i] == if rows[i].id == id then
                        rows[i].(quantity := p.quantity, avgEntryPrice := p.avgEntryPrice,
                                 lastPrice := p.lastPrice, unrealizedPnL := p.unrealizedPnL)
                      else rows[i]
  {
    seq(|rows|, i requires 0 <= i < |rows| =>
      if rows[i].id == id then
        rows[i].(quantity := p.quantity, avgEntryPrice := p.avgEntryPrice,
                 lastPrice := p.lastPrice, unrealizedPnL := p.unrealizedPnL)
      else rows[i])
  }

  /** UPDATE paper_positions SET last_price, unrealized_pnl WHERE id. */
  function MarkWhereId(rows: seq<Position>, id: nat, lastPrice: real, unrealizedPnL: real): (r: seq<Position>)
    ensures |r| == |rows|
    ensures forall i :: 0 <= i < |rows| ==>
              r[i] == if rows[i].id == id then
                        rows[i].(lastPrice := lastPrice, unrealizedPnL := unrealizedPnL)
                      else rows[i]
  {
    seq(|rows|, i requires 0 <= i < |rows| =>
      if rows[i].id == id then rows[i].(lastPrice := lastPrice, unrealizedPnL := unrealizedPnL)
      else rows[i])
  }

  function Normalized(p: Position): Position {
    p.(exchange := Normalize(p.exchange), symbol := Normalize(p.symbol))
  }

  function Upsert(rows: seq<Position>, existing: Option<Position>, p: Position): seq<Position> {
    if existing.Some? then WriteWhereId(rows, existing.value.id, p) else rows + [p]
  }

  /** The column checks of paper_orders admit only the known sides and order types. */
  predicate Storable(req: Request) {
    !req.side.OtherSide? && !req.orderType.OtherType?
  }

  function OutcomeOf(s: Ledger, req: Request): Outcome {
    FillOutcome(s.nextId, s.cashBalance, Lookup(s.positions, RequestKey(req)), req)
  }

  /** The writes of the fill transaction: order, position, trade and cash. */
  function Committed(s: Ledger, existing: Option<Position>, out: Outcome): Ledger {
    s.(
      orders := s.orders + [out.order],
      positions := if out.position.Some? then Upsert(s.positions, existing, Normalized(out.position.value)) else s.positions,
      trades := if out.trade.Some? then s.trades + [out.trade.value] else s.trades,
      cashBalance := if out.newCashBalance.Some? then out.newCashBalance.value else s.cashBalance,
      nextId := s.nextId + 3)
  }

  /** ExecutePaperFill: the fill in one transaction, then a snapshot. An order the tables
      cannot hold fails its insert and rolls everything back. */
  function AfterFill(s: Ledger, req: Request): Ledger {
    if !Storable(req) then s
    else Snapshotted(Committed(s, Lookup(s.positions, RequestKey(req)), OutcomeOf(s, req)))
  }

  /** ResetPaperAccount: the history goes, and cash restarts at the (new) starting balance. */
  function AfterReset(s: Ledger, newBalance: Option<real>): Ledger {
    var balance := if newBalance.Some? then newBalance.value else s.startingBalance;
    s.(startingBalance := balance, cashBalance := balance,
       positions := [], orders := [], trades := [], snapshots := [])
  }

  /** The balances that an account edit writes back. */
  datatype Edit = Edit(startingBalance: real, cashBalance: real)

  /** What the edit handler makes of the account it read. A label or product edit carries both
      balances along; a balance edit is refused once cash has moved, and below zero. */
  function EditOf(s: Ledger, newBalance: Option<real>): Option<Edit> {
    match newBalance
    case None => Some(Edit(s.startingBalance, s.cashBalance))
    case Some(balance) =>
      if s.cashBalance != s.startingBalance || balance <= 0.0 then None else Some(Edit(balance, balance))
  }

  /** UpdatePaperAccount: both balances are overwritten with what was read earlier. */
  function EditWritten(s: Ledger, edit: Edit): Ledger {
    s.(startingBalance := edit.startingBalance, cashBalance := edit.cashBalance)
  }

  /** UpdatePaperPositionMark with the quantity and average of a row read earlier. */
  function AfterMark(s: Ledger, seen: Position, ltp: real): Ledger {
    s.(positions := MarkWhereId(s.positions, seen.id, ltp,
                                UnrealizedPnL(seen.quantity, seen.avgEntryPrice, ltp)))
  }

  // ---------- runs ----------

  predicate IsOpen(p: Position) { p.quantity != 0.0 }

  /** What can happen to an account. A sweep (or a price-update signal) first reads the open
      rows and later writes marks computed from those copies; an account edit first reads the
      balances and later writes them back. */
  datatype Event =
    | PlaceOrder(req: Request)
    | ResetTo(newBalance: Option<real>)
    | EditRead(newBalance: Option<real>)
    | EditWrite(edit: nat)
    | SweepRead
    | SweepWrite(copy: nat, ltp: real)
    | Snapshot

  /** The account together with every row copy that some sweep has read, and the balances that
      every edit under way is about to write. */
  datatype World = World(ledger: Ledger, copies: seq<Position>, edits: seq<Edit>)

  function Step(w: World, e: Event): World {
    var s := w.ledger;
    match e
    case PlaceOrder(req) => w.(ledger := AfterFill(s, req))
    case ResetTo(newBalance) => w.(ledger := AfterReset(s, newBalance))
    case EditRead(newBalance) =>
      var edit := EditOf(s, newBalance);
      if edit.Some? then w.(edits := w.edits + [edit.value]) else w
    case EditWrite(edit) => if edit < |w.edits| then w.(ledger := EditWritten(s, w.edits[edit])) else w
    case SweepRead => w.(copies := w.copies + Filter(s.positions, IsOpen))
    case SweepWrite(copy, ltp) =>
      if copy < |w.copies| then w.(ledger := AfterMark(s, w.copies[copy], ltp)) else w
    case Snapshot => w.(ledger := Snapshotted(s))
  }

  function Run(w: World, events: seq<Event>): World {
    if events == [] then w else Step(Run(w, Init(events)), Last(events))
  }

  function Start(startingBalance: real): World {
    World(Opened(startingBalance), [], [])
  }

  // ---------- the store itself ----------

  /** An order the tables cannot hold. */
  datatype StoreError = InsertOrderFailed

  class PaperStore {
    var startingBalance: real
    var cashBalance: real
    var positions: seq<Position>
    var orders: seq<Order>
    var trades: seq<Trade>
    var snapshots: seq<real>
    var nextId: nat

    ghost function State(): Ledger
      reads this
    {
      Ledger(startingBalance, cashBalance, positions, orders, trades, snapshots, nextId)
    }

    constructor (balance: real)
      ensures State() == Opened(balance)
    {
      startingBalance, cashBalance := balance, balance;
      positions, orders, trades, snapshots, nextId := [], [], [], [], 0;
      new;
      RecordEquitySnapshot();
    }

    method RecordEquitySnapshot()
      modifies this`snapshots
      ensures State() == Snapshotted(old(State()))
    {
      var realized := Sum(trades, RealizedOf);
      var unrealized := Sum(positions, UnrealizedOf);
      var fees := Sum(trades, FeesOf);
      snapshots := snapshots + [startingBalance + (realized + unrealized - fees)];
    }

    method ExecutePaperFill(req: Request) returns (result: Result<Outcome, StoreError>)
      modifies this
      ensures State() == AfterFill(old(State()), req)
      ensures result == if Storable(req) then Ok(OutcomeOf(old(State()), req)) else Err(InsertOrderFailed)
    {
      hide FillOutcome, Lookup, RequestKey, ReportedEquity, Committed;
      var existing := Lookup(positions, RequestKey(req));
      var outcome := ComputeFill(nextId, cashBalance, existing, req);
      if req.side.OtherSide? || req.orderType.OtherType? {
        return Err(InsertOrderFailed);
      }
      Commit(existing, outcome);
      RecordEquitySnapshot();
      return Ok(outcome);
    }

    method Commit(existing: Option<Position>, outcome: Outcome)
      modifies this
      ensures State() == Committed(old(State()), existing, outcome)
    {
      hide WriteWhereId, Normalized;
      orders := orders + [outcome.order];
      if outcome.position.Some? {
        var p := Normalized(outcome.position.value);
        if existing == None {
          positions := positions + [p];
        } else {
          positions := WriteWhereId(positions, existing.value.id, p);
        }
      }
      if outcome.trade.Some? {
        trades := trades + [outcome.trade.value];
      }
      if outcome.newCashBalance.Some? {
        cashBalance := outcome.newCashBalance.value;
      }
      nextId := nextId + 3;
    }

    method ResetPaperAccount(newBalance: Option<real>)
      modifies this
      ensures State() == AfterReset(old(State()), newBalance)
    {
      if newBalance.Some? {
        startingBalance := newBalance.value;
      }
      cashBalance := startingBalance;
      positions := [];
      orders := [];
      trades := [];
      snapshots := [];
    }

    /** The edit handler up to its write: what it will write back, or nothing if it refuses. */
    method PrepareEdit(newBalance: Option<real>) returns (edit: Option<Edit>)
      ensures edit == EditOf(State(), newBalance)
    {
      if newBalance == None {
        return Some(Edit(startingBalance, cashBalance));
      }
      if cashBalance != startingBalance {
        return None;
      }
      if newBalance.value <= 0.0 {
        return None;
      }
      return Some(Edit(newBalance.value, newBalance.value));
    }

    method UpdatePaperAccount(edit: Edit)
      modifies this`startingBalance, this`cashBalance
      ensures State() == EditWritten(old(State()), edit)
    {
      startingBalance, cashBalance := edit.startingBalance, edit.cashBalance;
    }

    method UpdatePaperPositionMark(pos: Position)
      modifies this`positions
      ensures State() == old(State()).(
                positions := MarkWhereId(old(positions), pos.id, pos.lastPrice, pos.unrealizedPnL))
    {
      positions := MarkWhereId(positions, pos.id, pos.lastPrice, pos.unrealizedPnL);
    }
  }
}
