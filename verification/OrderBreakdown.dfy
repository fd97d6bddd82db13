/** The order counts of an account's P&L summary, tallied from grouped rows that the
    database may return in any order. */
module OrderBreakdown {
  import opened Common
  import opened PaperEngine

  /** One row of SELECT status, side, COUNT(*) ... GROUP BY status, side. */
  datatype Group = Group(status: Status, side: Side, count: nat)

  predicate InGroup(o: Order, g: Group) {
    o.status == g.status && o.side == g.side
  }

  predicate Covered(o: Order, groups: seq<Group>) {
    exists i :: 0 <= i < |groups| && InGroup(o, groups[i])
  }

  function CountWhere(orders: seq<Order>, p: Order -> bool): nat {
    |Filter(orders, p)|
  }

  /** The rows of the GROUP BY, in whatever order the database returns them. */
  ghost predicate IsGrouping(groups: seq<Group>, orders: seq<Order>) {
    && (forall i, j :: 0 <= i < j < |groups| ==>
          groups[i].status != groups[j].status || groups[i].side != groups[j].side)
    && (forall i :: 0 <= i < |groups| ==>
          groups[i].count == CountWhere(orders, (o: Order) => InGroup(o, groups[i])))
    && (forall k :: 0 <= k < |orders| ==> Covered(orders[k], groups))
  }

  lemma {:induction false} CountsAdd(orders: seq<Order>, p: Order -> bool, q: Order -> bool, r: Order -> bool)
    requires forall o :: r(o) <==> p(o) || q(o)
    requires forall o :: !(p(o) && q(o))
    ensures CountWhere(orders, r) == CountWhere(orders, p) + CountWhere(orders, q)
  {
    if orders != [] {
      CountsAdd(Init(orders), p, q, r);
    }
  }

  lemma {:induction false} NoneCounted(orders: seq<Order>, p: Order -> bool)
    requires forall o :: !p(o)
    ensures CountWhere(orders, p) == 0
  {
    if orders != [] {
      NoneCounted(Init(orders), p);
    }
  }

  /** The orders of the first n groups that pass a test on status and side. */
  ghost function Tally(orders: seq<Order>, groups: seq<Group>, n: nat, passes: (Status, Side) -> bool): nat
    requires n <= |groups|
  {
    CountWhere(orders, (o: Order) => passes(o.status, o.side) && Covered(o, groups[..n]))
  }

  lemma TallyStep(orders: seq<Order>, groups: seq<Group>, n: nat, passes: (Status, Side) -> bool)
    requires IsGrouping(groups, orders) && n < |groups|
    ensures Tally(orders, groups, n + 1, passes) ==
            Tally(orders, groups, n, passes) + if passes(groups[n].status, groups[n].side) then groups[n].count else 0
  {
    var g := groups[n];
    var old' := (o: Order) => passes(o.status, o.side) && Covered(o, groups[..n]);
    var new' := (o: Order) => passes(o.status, o.side) && Covered(o, groups[..n + 1]);
    var here := (o: Order) => passes(o.status, o.side) && InGroup(o, g);
    forall o: Order
      ensures Covered(o, groups[..n + 1]) <==> Covered(o, groups[..n]) || InGroup(o, g)
      ensures !(Covered(o, groups[..n]) && InGroup(o, g))
    {
      assert groups[..n + 1] == groups[..n] + [g];
      if InGroup(o, g) {
        assert groups[..n + 1][n] == g;
      }
      if Covered(o, groups[..n]) {
        var i :| 0 <= i < n && InGroup(o, groups[..n][i]);
        assert groups[..n + 1][i] == groups[i];
      }
    }
    CountsAdd(orders, old', here, new');
    if passes(g.status, g.side) {
      FilterCongruent(orders, here, (o: Order) => InGroup(o, g));
    } else {
      NoneCounted(orders, here);
    }
  }

  lemma TallyNone(orders: seq<Order>, groups: seq<Group>, passes: (Status, Side) -> bool)
    ensures Tally(orders, groups, 0, passes) == 0
  {
    forall o: Order ensures !Covered(o, groups[..0]) {
    }
    NoneCounted(orders, (o: Order) => passes(o.status, o.side) && Covered(o, groups[..0]));
  }

  lemma TallyAll(orders: seq<Order>, groups: seq<Group>, passes: (Status, Side) -> bool)
    requires IsGrouping(groups, orders)
    ensures Tally(orders, groups, |groups|, passes) == CountWhere(orders, (o: Order) => passes(o.status, o.side))
  {
    assert groups[..|groups|] == groups;
    FilterCongruent(orders, (o: Order) => passes(o.status, o.side) && Covered(o, groups[..|groups|]), (o: Order) => passes(o.status, o.side));
  }

  function HasStatus(status: Status): (Status, Side) -> bool {
    (st: Status, side: Side) => st == status
  }

  function HasSide(side: Side): (Status, Side) -> bool {
    (status: Status, sd: Side) => sd == side
  }

  function CountStatus(orders: seq<Order>, status: Status): nat {
    CountWhere(orders, (o: Order) => o.status == status)
  }

  function CountSide(orders: seq<Order>, side: Side): nat {
    CountWhere(orders, (o: Order) => o.side == side)
  }

  lemma StatusTally(orders: seq<Order>, groups: seq<Group>, status: Status)
    requires IsGrouping(groups, orders)
    ensures Tally(orders, groups, |groups|, HasStatus(status)) == CountStatus(orders, status)
  {
    TallyAll(orders, groups, HasStatus(status));
    FilterCongruent(orders, (o: Order) => HasStatus(status)(o.status, o.side), (o: Order) => o.status == status);
  }

  lemma SideTally(orders: seq<Order>, groups: seq<Group>, side: Side)
    requires IsGrouping(groups, orders)
    ensures Tally(orders, groups, |groups|, HasSide(side)) == CountSide(orders, side)
  {
    TallyAll(orders, groups, HasSide(side));
    FilterCongruent(orders, (o: Order) => HasSide(side)(o.status, o.side), (o: Order) => o.side == side);
  }

  /** A status none of the first n groups has is not yet tallied. */
  lemma UnseenStatus(orders: seq<Order>, groups: seq<Group>, n: nat, status: Status)
    requires n <= |groups|
    requires forall i :: 0 <= i < n ==> groups[i].status != status
    ensures Tally(orders, groups, n, HasStatus(status)) == 0
  {
    forall o: Order ensures !(HasStatus(status)(o.status, o.side) && Covered(o, groups[..n])) {
      if Covered(o, groups[..n]) {
        var i :| 0 <= i < n && InGroup(o, groups[..n][i]);
        assert groups[..n][i] == groups[i];
      }
    }
    NoneCounted(orders, (o: Order) => HasStatus(status)(o.status, o.side) && Covered(o, groups[..n]));
  }

  predicate Terminal(status: Status) {
    status == FILLED || status == REJECTED || status == CANCELLED
  }

  function CountOpen(orders: seq<Order>): nat {
    CountWhere(orders, (o: Order) => !Terminal(o.status))
  }

  lemma {:induction false} StatusesPartition(orders: seq<Order>)
    ensures CountStatus(orders, FILLED) + CountStatus(orders, REJECTED) + CountStatus(orders, CANCELLED)
            + CountOpen(orders) == |orders|
  {
    if orders != [] {
      StatusesPartition(Init(orders));
    }
  }

  /** ByStatus holds every status that occurs, with its number of orders. */
  ghost predicate CountsByStatus(byStatus: map<Status, nat>, orders: seq<Order>) {
    && (forall status :: status in byStatus ==> byStatus[status] == CountStatus(orders, status))
    && (forall k :: 0 <= k < |orders| ==> orders[k].status in byStatus)
  }

  /** The second loop: open orders are those in no terminal state, whatever order the map
      yields its keys in. */
  method SumOpenOrders(byStatus: map<Status, nat>, ghost orders: seq<Order>) returns (open: nat)
    requires CountsByStatus(byStatus, orders)
    ensures open == CountOpen(orders)
  {
    open := 0;
    var left := byStatus.Keys;
    NoneCounted(orders, (o: Order) => !Terminal(o.status) && o.status in byStatus.Keys - left);
    while left != {}
      invariant left <= byStatus.Keys
      invariant open == CountWhere(orders, (o: Order) => !Terminal(o.status) && o.status in byStatus.Keys - left)
      decreases left
    {
      var status :| status in left;
      ghost var rest := left - {status};
      CountsAdd(orders,
        (o: Order) => !Terminal(o.status) && o.status in byStatus.Keys - left,
        (o: Order) => !Terminal(o.status) && o.status == status,
        (o: Order) => !Terminal(o.status) && o.status in byStatus.Keys - rest);
      if status != FILLED && status != REJECTED && status != CANCELLED {
        FilterCongruent(orders, (o: Order) => !Terminal(o.status) && o.status == status, (o: Order) => o.status == status);
        open := open + byStatus[status];
      } else {
        NoneCounted(orders, (o: Order) => !Terminal(o.status) && o.status == status);
      }
      left := left - {status};
    }
    FilterCongruent(orders, (o: Order) => !Terminal(o.status) && o.status in byStatus.Keys - left,
                    (o: Order) => !Terminal(o.status));
  }

  datatype Breakdown = Breakdown(
    byStatus: map<Status, nat>, filled: nat, rejected: nat, cancelled: nat, open: nat,
    buys: nat, sells: nat, closes: nat, fillRate: Option<real>)

  ghost predicate StatusesTallied(byStatus: map<Status, nat>, orders: seq<Order>, groups: seq<Group>, n: nat)
    requires n <= |groups|
  {
    && (forall status :: status in byStatus <==> exists i :: 0 <= i < n && groups[i].status == status)
    && (forall status :: status in byStatus ==> byStatus[status] == Tally(orders, groups, n, HasStatus(status)))
  }

  lemma StatusesTalliedStep(byStatus: map<Status, nat>, orders: seq<Order>, groups: seq<Group>, n: nat)
    requires IsGrouping(groups, orders) && n < |groups| && StatusesTallied(byStatus, orders, groups, n)
    ensures var g := groups[n];
            var before := if g.status in byStatus then byStatus[g.status] else 0;
            StatusesTallied(byStatus[g.status := before + g.count], orders, groups, n + 1)
  {
    var g := groups[n];
    var before := if g.status in byStatus then byStatus[g.status] else 0;
    var after := byStatus[g.status := before + g.count];
    hide Tally, IsGrouping;
    if g.status !in byStatus {
      UnseenStatus(orders, groups, n, g.status);
    }
    forall status | status in after
      ensures after[status] == Tally(orders, groups, n + 1, HasStatus(status))
    {
      TallyStep(orders, groups, n, HasStatus(status));
      assert HasStatus(status)(g.status, g.side) == (g.status == status);
    }
    forall status
      ensures status in after <==> exists i :: 0 <= i < n + 1 && groups[i].status == status
    {
      if status == g.status {
        assert groups[n].status == status;
      }
    }
  }

  lemma AllTallied(byStatus: map<Status, nat>, orders: seq<Order>, groups: seq<Group>)
    requires IsGrouping(groups, orders) && StatusesTallied(byStatus, orders, groups, |groups|)
    ensures CountsByStatus(byStatus, orders)
  {
    forall status | status in byStatus ensures byStatus[status] == CountStatus(orders, status) {
      StatusTally(orders, groups, status);
    }
    forall k | 0 <= k < |orders| ensures orders[k].status in byStatus {
      var i :| 0 <= i < |groups| && InGroup(orders[k], groups[i]);
      assert groups[i].status == orders[k].status;
    }
  }

  /** The tally over the grouped rows counts the orders themselves, and every order is
      filled, rejected, cancelled or open. */
  method TallyOrders(groups: seq<Group>, ghost orders: seq<Order>) returns (b: Breakdown)
    requires IsGrouping(groups, orders)
    ensures b.filled == CountStatus(orders, FILLED) && b.rejected == CountStatus(orders, REJECTED)
    ensures b.cancelled == CountStatus(orders, CANCELLED) && b.open == CountOpen(orders)
    ensures b.buys == CountSide(orders, Buy) && b.sells == CountSide(orders, Sell)
    ensures b.closes == CountSide(orders, Close)
    ensures CountsByStatus(b.byStatus, orders)
    ensures b.filled + b.rejected + b.cancelled + b.open == |orders|
    ensures b.fillRate == None <==> b.filled + b.rejected == 0
    ensures b.fillRate.Some? ==> b.fillRate.value * (b.filled + b.rejected) as real == b.filled as real
  {
    hide Tally, IsGrouping, CountStatus, CountSide, CountOpen, StatusesTallied, CountsByStatus, HasStatus, HasSide;
    var byStatus: map<Status, nat> := map[];
    var filled, rejected, cancelled := 0, 0, 0;
    var buys, sells, closes := 0, 0, 0;
    NothingTallied(orders, groups);
    for n := 0 to |groups|
      invariant filled == Tally(orders, groups, n, HasStatus(FILLED))
      invariant rejected == Tally(orders, groups, n, HasStatus(REJECTED))
      invariant cancelled == Tally(orders, groups, n, HasStatus(CANCELLED))
      invariant buys == Tally(orders, groups, n, HasSide(Buy))
      invariant sells == Tally(orders, groups, n, HasSide(Sell))
      invariant closes == Tally(orders, groups, n, HasSide(Close))
      invariant StatusesTallied(byStatus, orders, groups, n)
    {
      var g := groups[n];
      GroupTallied(orders, groups, n);
      StatusesTalliedStep(byStatus, orders, groups, n);
      byStatus := byStatus[g.status := (if g.status in byStatus then byStatus[g.status] else 0) + g.count];
      match g.status {
        case FILLED => filled := filled + g.count;
        case REJECTED => rejected := rejected + g.count;
        case CANCELLED => cancelled := cancelled + g.count;
        case _ =>
      }
      match g.side {
        case Buy => buys := buys + g.count;
        case Sell => sells := sells + g.count;
        case Close => closes := closes + g.count;
        case _ =>
      }
    }
    AllTallied(byStatus, orders, groups);
    EverythingTallied(orders, groups);
    StatusesPartition(orders);
    var open := SumOpenOrders(byStatus, orders);
    var fillRate := None;
    if filled + rejected > 0 {
      fillRate := Some(filled as real / (filled + rejected) as real);
    }
    b := Breakdown(byStatus, filled, rejected, cancelled, open, buys, sells, closes, fillRate);
  }

  lemma NothingTallied(orders: seq<Order>, groups: seq<Group>)
    ensures forall status :: Tally(orders, groups, 0, HasStatus(status)) == 0
    ensures forall side :: Tally(orders, groups, 0, HasSide(side)) == 0
    ensures StatusesTallied(map[], orders, groups, 0)
  {
    forall status ensures Tally(orders, groups, 0, HasStatus(status)) == 0 {
      TallyNone(orders, groups, HasStatus(status));
    }
    forall side ensures Tally(orders, groups, 0, HasSide(side)) == 0 {
      TallyNone(orders, groups, HasSide(side));
    }
  }

  lemma GroupTallied(orders: seq<Order>, groups: seq<Group>, n: nat)
    requires IsGrouping(groups, orders) && n < |groups|
    ensures forall status :: Tally(orders, groups, n + 1, HasStatus(status)) ==
              Tally(orders, groups, n, HasStatus(status)) + if groups[n].status == status then groups[n].count else 0
    ensures forall side :: Tally(orders, groups, n + 1, HasSide(side)) ==
              Tally(orders, groups, n, HasSide(side)) + if groups[n].side == side then groups[n].count else 0
  {
    forall status
      ensures Tally(orders, groups, n + 1, HasStatus(status)) ==
              Tally(orders, groups, n, HasStatus(status)) + if groups[n].status == status then groups[n].count else 0
    {
      TallyStep(orders, groups, n, HasStatus(status));
    }
    forall side
      ensures Tally(orders, groups, n + 1, HasSide(side)) ==
              Tally(orders, groups, n, HasSide(side)) + if groups[n].side == side then groups[n].count else 0
    {
      TallyStep(orders, groups, n, HasSide(side));
    }
  }

  lemma EverythingTallied(orders: seq<Order>, groups: seq<Group>)
    requires IsGrouping(groups, orders)
    ensures forall status :: Tally(orders, groups, |groups|, HasStatus(status)) == CountStatus(orders, status)
    ensures forall side :: Tally(orders, groups, |groups|, HasSide(side)) == CountSide(orders, side)
  {
    forall status ensures Tally(orders, groups, |groups|, HasStatus(status)) == CountStatus(orders, status) {
      StatusTally(orders, groups, status);
    }
    forall side ensures Tally(orders, groups, |groups|, HasSide(side)) == CountSide(orders, side) {
      SideTally(orders, groups, side);
    }
  }
}
