/** The Kite basket handoff: orders that a user confirms on the broker's site or that expire,
    and the trades linked to them. Expirers act on rows they read earlier, so every read and
    the write that follows it are separate steps that anything may come between. */
module PublisherHandoff {
  import opened Common

  datatype Status = Created | AwaitingConfirmation | UserReturned | UserCancelled | Expired

  datatype TradeStatus = PendingConfirmation | Submitted | Cancelled | Rejected

  datatype EventType =
    BasketCreated | UserReturnedFromKite | UserCancelledOnKite | UserMarkedSubmitted | HandoffExpired

  datatype Order = Order(id: nat, status: Status, tradeId: Option<nat>, expiresAt: int)

  datatype Logged = Logged(orderId: nat, eventType: EventType)

  datatype Tables = Tables(orders: map<nat, Order>, trades: map<nat, TradeStatus>, events: seq<Logged>)

  /** What a callback from the broker's site reports. */
  datatype Answer = Returned | Declined

  predicate IsTerminal(status: Status) {
    status.UserReturned? || status.UserCancelled? || status.Expired?
  }

  predicate IsPending(s: Tables, t: nat) {
    t in s.trades && s.trades[t].PendingConfirmation?
  }

  predicate HasStatus(s: Tables, id: nat, status: Status) {
    id in s.orders && s.orders[id].status == status
  }

  predicate IsFinal(s: Tables, id: nat) {
    id in s.orders && IsTerminal(s.orders[id].status)
  }

  predicate Overdue(o: Order, now: int) {
    !IsTerminal(o.status) && o.expiresAt <= now
  }

  // ---------- the statements ----------

  /** UPDATE trades SET status WHERE id AND status = 'pending_confirmation'. */
  function LeavePending(s: Tables, t: nat, status: TradeStatus): Tables {
    if IsPending(s, t) then s.(trades := s.trades[t := status]) else s
  }

  /** The expiry transaction, run on a row read earlier: the update is guarded by the present
      status, and the event and the trade follow only when it found the row. */
  function ExpireSeen(s: Tables, seen: Order): Tables {
    if IsTerminal(seen.status) || seen.id !in s.orders || IsFinal(s, seen.id) then s
    else
      var expired := s.(orders := s.orders[seen.id := s.orders[seen.id].(status := Expired)],
                        events := s.events + [Logged(seen.id, HandoffExpired)]);
      if seen.tradeId.Some? then LeavePending(expired, seen.tradeId.value, Rejected) else expired
  }

  /** The row is stored as the caller made it. */
  function Inserted(s: Tables, o: Order): Tables {
    if o.id in s.orders then s else s.(orders := s.orders[o.id := o])
  }

  /** What the executor inserts: created, and linked to a trade only later. */
  function NewHandoff(id: nat, expiresAt: int): Order {
    Order(id, Created, None, expiresAt)
  }

  function Linked(s: Tables, id: nat, t: nat): Tables {
    if id in s.orders then s.(orders := s.orders[id := s.orders[id].(tradeId := Some(t))]) else s
  }

  /** The callback update has no guard on the present status. */
  function CalledBack(s: Tables, id: nat, answer: Answer): Tables {
    if id in s.orders then
      s.(orders := s.orders[id := s.orders[id].(status := if answer.Returned? then UserReturned else UserCancelled)])
    else s
  }

  function Settled(s: Tables, t: nat, answer: Answer): Tables {
    LeavePending(s, t, if answer.Returned? then Submitted else Cancelled)
  }

  // ---------- runs ----------

  /** What a caller that has read a row is about to do. */
  datatype Call = Expiring(seen: Order) | Rejecting(tradeId: nat) | Done(expired: bool)

  /** The decision of ExpirePublisherOrderIfStale on the row it read. */
  function OnRead(seen: Order, now: int): Call {
    if IsTerminal(seen.status) then
      if seen.status.Expired? && seen.tradeId.Some? then Rejecting(seen.tradeId.value)
      else Done(seen.status.Expired?)
    else if seen.expiresAt > now then Done(false)
    else Expiring(seen)
  }

  function Carried(s: Tables, call: Call): Tables {
    match call
    case Expiring(seen) => ExpireSeen(s, seen)
    case Rejecting(t) => LeavePending(s, t, Rejected)
    case Done(_) => s
  }

  /** The answer the call gives its caller. */
  predicate Reports(call: Call) {
    call.Done? ==> call.expired
  }

  datatype Event =
    | NewOrder(id: nat, expiresAt: int)
    | NewTrade(t: nat)
    | Link(id: nat, t: nat)
    | Callback(id: nat, answer: Answer)
    | CallbackTrade(t: nat, answer: Answer)
    | Log(entry: Logged)
    | ReadForIfStale(id: nat, now: int)
    | ReadForSweep(id: nat, now: int)
    | Act(call: nat)

  datatype World = World(tables: Tables, calls: seq<Call>)

  function Step(w: World, e: Event): World {
    var s := w.tables;
    match e
    case NewOrder(id, expiresAt) => w.(tables := Inserted(s, NewHandoff(id, expiresAt)))
    case NewTrade(t) => if t in s.trades then w else w.(tables := s.(trades := s.trades[t := PendingConfirmation]))
    case Link(id, t) => w.(tables := Linked(s, id, t))
    case Callback(id, answer) => w.(tables := CalledBack(s, id, answer))
    case CallbackTrade(t, answer) => w.(tables := Settled(s, t, answer))
    case Log(entry) => if entry.eventType.HandoffExpired? then w else w.(tables := s.(events := s.events + [entry]))
    case ReadForIfStale(id, now) =>
      if id in s.orders then w.(calls := w.calls + [OnRead(s.orders[id], now)]) else w
    case ReadForSweep(id, now) =>
      if id in s.orders && Overdue(s.orders[id], now) then w.(calls := w.calls + [Expiring(s.orders[id])]) else w
    case Act(call) => if call < |w.calls| then w.(tables := Carried(s, w.calls[call])) else w
  }

  function Run(w: World, events: seq<Event>): World {
    if events == [] then w else Step(Run(w, Init(events)), Last(events))
  }

  const START := World(Tables(map[], map[], []), [])

  // ---------- safety over every run ----------

  function TimesExpired(events: seq<Logged>, id: nat): nat {
    if events == [] then 0
    else TimesExpired(Init(events), id) + if Last(events) == Logged(id, HandoffExpired) then 1 else 0
  }

  lemma TimesExpiredGrows(events: seq<Logged>, entry: Logged, id: nat)
    ensures TimesExpired(events + [entry], id) ==
            TimesExpired(events, id) + if entry == Logged(id, HandoffExpired) then 1 else 0
  {
    assert Init(events + [entry]) == events;
  }

  /** The log records the expiry of an order once if it is expired, never if it is open, and
      at most once if a callback replaced its status. */
  predicate LogFits(s: Tables, id: nat) {
    && TimesExpired(s.events, id) <= 1
    && (!IsFinal(s, id) ==> TimesExpired(s.events, id) == 0)
    && (HasStatus(s, id, Expired) ==> TimesExpired(s.events, id) == 1)
  }

  ghost predicate Inv(w: World) {
    && (forall id :: id in w.tables.orders ==> w.tables.orders[id].id == id)
    && (forall id :: LogFits(w.tables, id))
    && (forall c :: 0 <= c < |w.calls| && w.calls[c].Expiring? ==> !IsTerminal(w.calls[c].seen.status))
  }

  lemma ExpiryKeepsLog(s: Tables, seen: Order, id: nat)
    requires LogFits(s, id)
    ensures LogFits(ExpireSeen(s, seen), id)
  {
    TimesExpiredGrows(s.events, Logged(seen.id, HandoffExpired), id);
  }

  lemma StepKeepsLog(w: World, e: Event, id: nat)
    requires LogFits(w.tables, id)
    ensures LogFits(Step(w, e).tables, id)
  {
    match e
    case Log(entry) => TimesExpiredGrows(w.tables.events, entry, id);
    case Act(call) =>
      if call < |w.calls| && w.calls[call].Expiring? { ExpiryKeepsLog(w.tables, w.calls[call].seen, id); }
    case _ =>
  }

  lemma StepKeepsInv(w: World, e: Event)
    requires Inv(w)
    ensures Inv(Step(w, e))
  {
    forall id ensures LogFits(Step(w, e).tables, id) {
      StepKeepsLog(w, e, id);
    }
    hide LogFits;
  }

  lemma {:induction false} RunKeepsInv(w: World, events: seq<Event>)
    requires Inv(w)
    ensures Inv(Run(w, events))
  {
    if events != [] {
      hide Inv, Step;
      RunKeepsInv(w, Init(events));
      StepKeepsInv(Run(w, Init(events)), Last(events));
    }
  }

  /** However many expirers race on stale reads, with callbacks and late links between, an
      order gets at most one HANDOFF_EXPIRED event, and exactly one if it ends expired. */
  lemma OneExpiryEventPerOrder(events: seq<Event>, id: nat)
    ensures var s := Run(START, events).tables;
            && TimesExpired(s.events, id) <= 1
            && (HasStatus(s, id, Expired) ==> TimesExpired(s.events, id) == 1)
            && (TimesExpired(s.events, id) == 1 ==> IsFinal(s, id))
  {
    assert Inv(START);
    RunKeepsInv(START, events);
    assert LogFits(Run(START, events).tables, id);
  }

  /** An order that became terminal never becomes non-terminal. */
  lemma {:induction false} TerminalStaysTerminal(w: World, events: seq<Event>, id: nat)
    requires IsFinal(w.tables, id)
    ensures IsFinal(Run(w, events).tables, id)
  {
    if events != [] {
      TerminalStaysTerminal(w, Init(events), id);
    }
  }

  predicate LeftPending(s: Tables, t: nat) {
    t in s.trades && !s.trades[t].PendingConfirmation?
  }

  /** How often trade t goes from pending to not pending. */
  function Exits(w: World, events: seq<Event>, t: nat): nat {
    if events == [] then 0
    else
      var before := Run(w, Init(events));
      Exits(w, Init(events), t) +
      if IsPending(before.tables, t) && !IsPending(Step(before, Last(events)).tables, t) then 1 else 0
  }

  /** Under these steps a trade leaves pending_confirmation at most once and keeps the status
      it left for. */
  lemma {:induction false} PendingIsLeftOnce(w: World, events: seq<Event>, t: nat)
    ensures Exits(w, events, t) <= 1
    ensures Exits(w, events, t) == 1 ==> LeftPending(Run(w, events).tables, t)
    ensures LeftPending(w.tables, t) ==>
              LeftPending(Run(w, events).tables, t) && Run(w, events).tables.trades[t] == w.tables.trades[t]
    ensures IsPending(w.tables, t) ==>
              (Exits(w, events, t) == 0 <==> IsPending(Run(w, events).tables, t))
  {
    if events != [] {
      PendingIsLeftOnce(w, Init(events), t);
      TradeStep(Run(w, Init(events)), Last(events), t);
    }
  }

  lemma TradeStep(w: World, e: Event, t: nat)
    ensures LeftPending(w.tables, t) ==>
              t in Step(w, e).tables.trades && Step(w, e).tables.trades[t] == w.tables.trades[t]
    ensures t in w.tables.trades ==> t in Step(w, e).tables.trades
  {
  }

  /** A call that reads an expired order with a linked trade returns with that trade settled,
      whatever came between its read and its write and whatever comes later. */
  lemma ReadOfExpiredSettlesTheTrade(w: World, id: nat, now: int, between: seq<Event>, later: seq<Event>)
    requires HasStatus(w.tables, id, Expired) && w.tables.orders[id].tradeId.Some?
    ensures var call, t := |w.calls|, w.tables.orders[id].tradeId.value;
            var acted := Step(Run(Step(w, ReadForIfStale(id, now)), between), Act(call));
            && !IsPending(acted.tables, t)
            && (t in acted.tables.trades ==> !IsPending(Run(acted, later).tables, t))
  {
    hide Run, Carried;
    var call, t := |w.calls|, w.tables.orders[id].tradeId.value;
    var reading := Step(w, ReadForIfStale(id, now));
    assert reading.calls[call] == Rejecting(t);
    CallsStay(reading, between);
    var acted := Step(Run(reading, between), Act(call));
    RejectingSettles(Run(reading, between).tables, t);
    PendingIsLeftOnce(acted, later, t);
  }

  lemma RejectingSettles(s: Tables, t: nat)
    ensures !IsPending(Carried(s, Rejecting(t)), t)
  {
  }

  lemma {:induction false} CallsStay(w: World, events: seq<Event>)
    ensures w.calls <= Run(w, events).calls
  {
    if events != [] {
      CallsStay(w, Init(events));
      CallsStayStep(Run(w, Init(events)), Last(events));
    }
  }

  lemma CallsStayStep(w: World, e: Event)
    ensures w.calls <= Step(w, e).calls
  {
  }

  // ---------- what the answer means ----------

  predicate CalledBackIn(events: seq<Event>, id: nat) {
    exists i :: 0 <= i < |events| && events[i].Callback? && events[i].id == id
  }

  predicate SettledByCallback(s: Tables, id: nat) {
    HasStatus(s, id, UserReturned) || HasStatus(s, id, UserCancelled)
  }

  lemma SettledOnlyByCallback(w: World, e: Event, id: nat)
    requires Inv(w) && id in w.tables.orders
    ensures id in Step(w, e).tables.orders
    ensures SettledByCallback(Step(w, e).tables, id) <==>
            SettledByCallback(w.tables, id) || (e.Callback? && e.id == id)
  {
  }

  /** An order that no callback had settled is settled by one exactly if a callback on it is
      among the events. */
  lemma {:induction false} SettledIffCalledBack(w: World, events: seq<Event>, id: nat)
    requires Inv(w) && id in w.tables.orders && !SettledByCallback(w.tables, id)
    ensures id in Run(w, events).tables.orders
    ensures SettledByCallback(Run(w, events).tables, id) <==> CalledBackIn(events, id)
  {
    if events != [] {
      hide Inv, Step, SettledByCallback;
      var init, e := Init(events), Last(events);
      SettledIffCalledBack(w, init, id);
      RunKeepsInv(w, init);
      SettledOnlyByCallback(Run(w, init), e, id);
      assert events == init + [e];
      if CalledBackIn(init, id) {
        var i :| 0 <= i < |init| && init[i].Callback? && init[i].id == id;
        assert events[i] == init[i];
      }
      if e.Callback? && e.id == id {
        assert events[|init|] == e;
      }
    }
  }

  /** A call tells its caller that the order is expired exactly when it read it expired, or
      open and past its deadline. It always leaves the order terminal, and tells the truth
      exactly when no callback on the order came between its read and its write. */
  lemma ReportedExpiredIff(w: World, id: nat, now: int, between: seq<Event>)
    requires Inv(w) && id in w.tables.orders
    ensures var read := w.tables.orders[id];
            Reports(OnRead(read, now)) <==>
              || read.status == Expired
              || ((read.status == Created || read.status == AwaitingConfirmation) && read.expiresAt <= now)
    ensures Reports(OnRead(w.tables.orders[id], now)) ==>
              var after := Step(Run(Step(w, ReadForIfStale(id, now)), between), Act(|w.calls|));
              && IsFinal(after.tables, id)
              && (HasStatus(after.tables, id, Expired) <==> !CalledBackIn(between, id))
  {
    if Reports(OnRead(w.tables.orders[id], now)) {
      var reading := Step(w, ReadForIfStale(id, now));
      StepKeepsInv(w, ReadForIfStale(id, now));
      CallsStay(reading, between);
      SettledIffCalledBack(reading, between, id);
      if IsFinal(reading.tables, id) {
        TerminalStaysTerminal(reading, between, id);
      }
      hide Run, Inv, CalledBackIn;
    }
  }

  /** The answer really can be untrue: an overdue order is read, the user's return is
      recorded, and the call still reports it expired. */
  lemma AnswerCanBeUntrue()
    ensures var before := Run(START, [NewOrder(0, 0)]);
            var events := [NewOrder(0, 0), ReadForIfStale(0, 1), Callback(0, Returned), Act(0)];
            && Reports(OnRead(before.tables.orders[0], 1))
            && HasStatus(Run(START, events).tables, 0, UserReturned)
  {
    hide Run;
    FourSteps(NewOrder(0, 0), ReadForIfStale(0, 1), Callback(0, Returned), Act(0));
    RunMore(START, [], NewOrder(0, 0));
    assert [] + [NewOrder(0, 0)] == [NewOrder(0, 0)];
  }

  lemma RunMore(w: World, events: seq<Event>, e: Event)
    ensures Run(w, events + [e]) == Step(Run(w, events), e)
    ensures Run(w, []) == w
  {
    assert Init(events + [e]) == events;
  }

  lemma FourSteps(e0: Event, e1: Event, e2: Event, e3: Event)
    ensures Run(START, [e0, e1, e2, e3]) == Step(Step(Step(Step(START, e0), e1), e2), e3)
  {
    hide Step;
    RunMore(START, [], e0);
    RunMore(START, [e0], e1);
    RunMore(START, [e0, e1], e2);
    RunMore(START, [e0, e1, e2], e3);
    assert [] + [e0] == [e0] && [e0] + [e1] == [e0, e1];
    assert [e0, e1] + [e2] == [e0, e1, e2] && [e0, e1, e2] + [e3] == [e0, e1, e2, e3];
  }

  // ---------- what callbacks and links leave behind ----------

  /** What one event makes of a pending trade: the user's answer submits or cancels it, an
      expiry that holds it rejects it, anything else leaves it pending. */
  function Decides(w: World, e: Event, t: nat): Option<TradeStatus> {
    match e
    case CallbackTrade(u, answer) =>
      if u != t then None else if answer == Returned then Some(Submitted) else Some(Cancelled)
    case Act(call) => if call < |w.calls| && Holds(w, w.calls[call], t) then Some(Rejected) else None
    case _ => None
  }

  /** The event at this place met the trade pending and decided it so. */
  predicate DecidedAt(w: World, events: seq<Event>, t: nat, i: nat, status: TradeStatus) {
    && i < |events|
    && IsPending(Run(w, events[..i]).tables, t)
    && Decides(Run(w, events[..i]), events[i], t) == Some(status)
  }

  lemma PendingStep(w: World, e: Event, t: nat)
    requires Inv(w) && IsPending(w.tables, t)
    ensures t in Step(w, e).tables.trades
    ensures Step(w, e).tables.trades[t] ==
            if Decides(w, e, t).Some? then Decides(w, e, t).value else PendingConfirmation
  {
    hide LogFits;
  }

  lemma PrefixOfInit(events: seq<Event>, i: nat)
    requires i < |events|
    ensures events[..i] == Init(events)[..i]
    ensures i < |events| - 1 ==> Init(events)[i] == events[i]
    ensures events[..|events| - 1] == Init(events)
  {
  }

  /** Some event of the run met the trade pending and decided it so. */
  ghost predicate DecidedIn(w: World, events: seq<Event>, t: nat, status: TradeStatus) {
    exists i: nat :: DecidedAt(w, events, t, i, status)
  }

  lemma DecidedInGrows(w: World, events: seq<Event>, t: nat, status: TradeStatus)
    requires events != []
    ensures DecidedIn(w, events, t, status) <==>
            || DecidedIn(w, Init(events), t, status)
            || DecidedLast(Run(w, Init(events)), Last(events), t, status)
  {
    hide Run, Decides, IsPending;
    var front := Init(events);
    if i: nat :| DecidedAt(w, events, t, i, status) {
      PrefixOfInit(events, i);
      assert i < |front| ==> DecidedAt(w, front, t, i, status);
    }
    if i: nat :| DecidedAt(w, front, t, i, status) {
      PrefixOfInit(events, i);
      assert DecidedAt(w, events, t, i, status);
    }
    if DecidedLast(Run(w, front), Last(events), t, status) {
      PrefixOfInit(events, |front|);
      assert DecidedAt(w, events, t, |front|, status);
    }
  }

  /** Over every run, a pending trade ends submitted, cancelled or rejected exactly as the one
      event that met it pending and decided it: a return submits it, a cancellation cancels it,
      an expiry that holds it rejects it. Nothing afterwards changes that. */
  lemma {:induction false} TradeEndsAsDecided(w: World, events: seq<Event>, t: nat, status: TradeStatus)
    requires Inv(w) && IsPending(w.tables, t) && !status.PendingConfirmation?
    ensures var s := Run(w, events).tables;
            && t in s.trades
            && (s.trades[t] == status <==> DecidedIn(w, events, t, status))
  {
    if events != [] {
      hide Step, Inv, Run, Decides, DecidedIn;
      var front, e := Init(events), Last(events);
      RunGrows(w, events);
      RunKeepsInv(w, front);
      TradeEndsAsDecided(w, front, t, status);
      DecidedInGrows(w, events, t, status);
      if IsPending(Run(w, front).tables, t) {
        PendingStep(Run(w, front), e, t);
      } else {
        TradeStep(Run(w, front), e, t);
      }
      NeverDecidesPending(Run(w, front), e, t);
    }
  }

  predicate DecidedLast(w: World, e: Event, t: nat, status: TradeStatus) {
    IsPending(w.tables, t) && Decides(w, e, t) == Some(status)
  }

  lemma NeverDecidesPending(w: World, e: Event, t: nat)
    ensures Decides(w, e, t) != Some(PendingConfirmation)
  {
  }

  lemma RunGrows(w: World, events: seq<Event>)
    requires events != []
    ensures Run(w, events) == Step(Run(w, Init(events)), Last(events))
  {
  }

  function LastCallback(events: seq<Event>, id: nat): Option<Answer> {
    if events == [] then None
    else if Last(events).Callback? && Last(events).id == id then Some(Last(events).answer)
    else LastCallback(Init(events), id)
  }

  function LastLink(events: seq<Event>, id: nat): Option<nat> {
    if events == [] then None
    else if Last(events).Link? && Last(events).id == id then Some(Last(events).t)
    else LastLink(Init(events), id)
  }

  /** What a run leaves in an order's row: its deadline as it was, the trade that was linked
      last whatever the status was then, and the user's last answer as its status, even over
      an expiry. Without an answer it stays, or is expired. */
  lemma {:induction false} OrderEndsAsAnswered(w: World, events: seq<Event>, id: nat)
    requires Inv(w) && id in w.tables.orders
    ensures id in Run(w, events).tables.orders
    ensures var before, after := w.tables.orders[id], Run(w, events).tables.orders[id];
            && after.id == id && after.expiresAt == before.expiresAt
            && after.tradeId == (if LastLink(events, id).Some? then LastLink(events, id) else before.tradeId)
            && (LastCallback(events, id) == Some(Returned) ==> after.status == UserReturned)
            && (LastCallback(events, id) == Some(Declined) ==> after.status == UserCancelled)
            && (LastCallback(events, id) == None ==> after.status == before.status || after.status == Expired)
  {
    if events != [] {
      hide Inv, Step;
      OrderEndsAsAnswered(w, Init(events), id);
      RunKeepsInv(w, Init(events));
      OrderStep(Run(w, Init(events)), Last(events), id);
    }
  }

  lemma OrderStep(w: World, e: Event, id: nat)
    requires Inv(w) && id in w.tables.orders
    ensures id in Step(w, e).tables.orders
    ensures var before, after := w.tables.orders[id], Step(w, e).tables.orders[id];
            && after.id == id && after.expiresAt == before.expiresAt
            && after.tradeId == (if e.Link? && e.id == id then Some(e.t) else before.tradeId)
            && (if e.Callback? && e.id == id
                then after.status == if e.answer == Returned then UserReturned else UserCancelled
                else after.status == before.status || (after.status == Expired && !IsTerminal(before.status)))
  {
    hide LogFits;
  }

  // ---------- late links ----------

  /** A pending trade linked to an order that is already expired. */
  predicate Stranded(s: Tables, id: nat, t: nat) {
    HasStatus(s, id, Expired) && s.orders[id].tradeId == Some(t) && IsPending(s, t)
  }

  /** The background sweep alone: its reads and the writes that follow, and the writes of
      calls already under way. */
  predicate SweepOnly(e: Event) {
    e.ReadForSweep? || e.Act?
  }

  predicate IsOpenOrder(s: Tables, id: nat) {
    id in s.orders && !IsTerminal(s.orders[id].status)
  }

  /** Some open order names the trade, now or in a row that a call still holds, or a call is
      about to reject it. */
  ghost predicate WithinReach(w: World, t: nat) {
    || (exists id :: IsOpenOrder(w.tables, id) && w.tables.orders[id].tradeId == Some(t))
    || (exists c :: 0 <= c < |w.calls| && Holds(w, w.calls[c], t))
  }

  predicate Holds(w: World, call: Call, t: nat) {
    match call
    case Expiring(seen) => IsOpenOrder(w.tables, seen.id) && seen.tradeId == Some(t)
    case Rejecting(u) => u == t
    case Done(_) => false
  }

  /** The sweep looks only at open orders, so it never settles a trade out of its reach, such
      as one linked late to an order already expired. */
  lemma {:induction false} SweepNeverRescues(w: World, events: seq<Event>, t: nat)
    requires Inv(w) && IsPending(w.tables, t) && !WithinReach(w, t)
    requires forall i :: 0 <= i < |events| ==> SweepOnly(events[i])
    ensures IsPending(Run(w, events).tables, t) && !WithinReach(Run(w, events), t)
  {
    if events != [] {
      hide Step, WithinReach, IsPending, Inv;
      SweepNeverRescues(w, Init(events), t);
      RunKeepsInv(w, Init(events));
      OutOfReachStays(Run(w, Init(events)), Last(events), t);
    }
  }

  lemma OutOfReachStays(w: World, e: Event, t: nat)
    requires Inv(w) && IsPending(w.tables, t) && !WithinReach(w, t) && SweepOnly(e)
    ensures IsPending(Step(w, e).tables, t) && !WithinReach(Step(w, e), t)
  {
    hide LogFits;
    var w' := Step(w, e);
    assert forall id :: IsOpenOrder(w'.tables, id) ==>
             IsOpenOrder(w.tables, id) && w'.tables.orders[id] == w.tables.orders[id];
    forall c | 0 <= c < |w'.calls| ensures !Holds(w', w'.calls[c], t) {
      if c < |w.calls| {
        assert !Holds(w, w.calls[c], t);
      }
    }
  }

  /** The sweep, with the calls under way, can settle a pending trade if and only if the trade
      is within reach. */
  lemma SweepCanRescueIff(w: World, t: nat)
    requires Inv(w) && IsPending(w.tables, t)
    ensures WithinReach(w, t) <==>
            exists events :: SweepSettles(w, events, t)
  {
    if WithinReach(w, t) {
      var events := Rescue(w, t);
      assert SweepSettles(w, events, t);
    } else {
      forall events ensures !SweepSettles(w, events, t) {
        if forall i :: 0 <= i < |events| ==> SweepOnly(events[i]) {
          SweepNeverRescues(w, events, t);
        }
      }
    }
  }

  predicate SweepSettles(w: World, events: seq<Event>, t: nat) {
    (forall i :: 0 <= i < |events| ==> SweepOnly(events[i])) && !IsPending(Run(w, events).tables, t)
  }

  lemma Rescue(w: World, t: nat) returns (events: seq<Event>)
    requires Inv(w) && IsPending(w.tables, t) && WithinReach(w, t)
    ensures SweepSettles(w, events, t)
  {
    hide Run, Step, LogFits;
    if c :| 0 <= c < |w.calls| && Holds(w, w.calls[c], t) {
      RunMore(w, [], Act(c));
      assert [] + [Act(c)] == [Act(c)];
      HeldCallSettles(w, c, t);
      events := [Act(c)];
    } else {
      var id :| IsOpenOrder(w.tables, id) && w.tables.orders[id].tradeId == Some(t);
      var read, act := ReadForSweep(id, w.tables.orders[id].expiresAt), Act(|w.calls|);
      RunMore(w, [], read);
      RunMore(w, [read], act);
      assert [] + [read] == [read] && [read] + [act] == [read, act];
      ReadHoldsTheOrder(w, id, t);
      HeldCallSettles(Step(w, read), |w.calls|, t);
      events := [read, act];
    }
  }

  lemma HeldCallSettles(w: World, c: nat, t: nat)
    requires c < |w.calls| && Holds(w, w.calls[c], t)
    requires w.calls[c].Expiring? ==> !IsTerminal(w.calls[c].seen.status)
    ensures !IsPending(Step(w, Act(c)).tables, t)
  {
  }

  lemma ReadHoldsTheOrder(w: World, id: nat, t: nat)
    requires IsOpenOrder(w.tables, id) && w.tables.orders[id].tradeId == Some(t) && w.tables.orders[id].id == id
    ensures var w' := Step(w, ReadForSweep(id, w.tables.orders[id].expiresAt));
            && w'.calls == w.calls + [Expiring(w.tables.orders[id])]
            && Holds(w', w'.calls[|w.calls|], t)
  {
  }

  /** The sweep reads an overdue order, its trade is linked, and the expiry goes through on the
      row read without it: the trade is stranded, and no sweep will ever settle it. */
  lemma LateLinkStrands()
    ensures var w := Run(START, [NewOrder(0, 0), NewTrade(7), ReadForSweep(0, 1), Link(0, 7), Act(0)]);
            Stranded(w.tables, 0, 7) && !WithinReach(w, 7)
  {
    hide Run, WithinReach, Stranded;
    var four := [NewOrder(0, 0), NewTrade(7), ReadForSweep(0, 1), Link(0, 7)];
    FourSteps(NewOrder(0, 0), NewTrade(7), ReadForSweep(0, 1), Link(0, 7));
    RunMore(START, four, Act(0));
    assert four + [Act(0)] == [NewOrder(0, 0), NewTrade(7), ReadForSweep(0, 1), Link(0, 7), Act(0)];
    LinkedAfterTheRead();
    ExpiredWithoutTheTrade();
  }

  /** The order has been read without the trade that it now names. */
  const LINKED_LATE := World(
    Tables(map[0 := Order(0, Created, Some(7), 0)], map[7 := PendingConfirmation], []), [Expiring(NewHandoff(0, 0))])

  lemma LinkedAfterTheRead()
    ensures Step(Step(Step(Step(START, NewOrder(0, 0)), NewTrade(7)), ReadForSweep(0, 1)), Link(0, 7)) == LINKED_LATE
  {
  }

  lemma ExpiredWithoutTheTrade()
    ensures Stranded(Step(LINKED_LATE, Act(0)).tables, 0, 7) && !WithinReach(Step(LINKED_LATE, Act(0)), 7)
  {
  }

  /** One look at the order rescues it. */
  lemma NextLookRescues(w: World, id: nat, t: nat, now: int, between: seq<Event>)
    requires Stranded(w.tables, id, t)
    ensures !IsPending(Step(Run(Step(w, ReadForIfStale(id, now)), between), Act(|w.calls|)).tables, t)
  {
    hide Step, Run;
    ReadOfExpiredSettlesTheTrade(w, id, now, between, []);
  }

  // ---------- the background sweep, uninterrupted ----------

  predicate NamedByOne(orders: map<nat, Order>, ids: set<nat>, t: nat) {
    exists id :: id in ids && id in orders && orders[id].tradeId == Some(t)
  }

  /** s is s0 with exactly the given orders expired, their pending trades rejected, and one
      expiry event for each. */
  ghost predicate ExpiredExactly(s0: Tables, s: Tables, ids: set<nat>) {
    && s.orders.Keys == s0.orders.Keys && s.trades.Keys == s0.trades.Keys
    && (forall id :: id in s0.orders ==>
          s.orders[id] == if id in ids then s0.orders[id].(status := Expired) else s0.orders[id])
    && (forall t :: t in s0.trades ==>
          s.trades[t] == if IsPending(s0, t) && NamedByOne(s0.orders, ids, t) then Rejected else s0.trades[t])
    && (forall id :: TimesExpired(s.events, id) == TimesExpired(s0.events, id) + if id in ids then 1 else 0)
  }

  /** The row a sweep listed is still there and still open when its turn comes. */
  lemma OneMoreExpired(s0: Tables, s: Tables, ids: set<nat>, id: nat)
    requires ExpiredExactly(s0, s, ids)
    requires id in s0.orders && id !in ids && s0.orders[id].id == id && !IsTerminal(s0.orders[id].status)
    ensures ExpiredExactly(s0, ExpireSeen(s, s0.orders[id]), ids + {id})
    ensures ExpireSeen(s, s0.orders[id]) != s
  {
    var seen, s' := s0.orders[id], ExpireSeen(s, s0.orders[id]);
    ExpiryWrites(s, seen);
    OneMoreNamed(s0.orders, ids, id);
    forall o ensures TimesExpired(s'.events, o) == TimesExpired(s0.events, o) + if o in ids + {id} then 1 else 0 {
      TimesExpiredGrows(s.events, Logged(id, HandoffExpired), o);
    }
    hide TimesExpired, NamedByOne, ExpireSeen;
    forall t | t in s0.trades
      ensures s'.trades[t] == if IsPending(s0, t) && NamedByOne(s0.orders, ids + {id}, t) then Rejected else s0.trades[t]
    {
      assert s'.trades[t] == if IsPending(s, t) && seen.tradeId == Some(t) then Rejected else s.trades[t];
    }
  }

  /** What the expiry transaction writes when it finds the row open. */
  lemma ExpiryWrites(s: Tables, seen: Order)
    requires !IsTerminal(seen.status) && seen.id in s.orders && !IsFinal(s, seen.id)
    ensures var s' := ExpireSeen(s, seen);
            && s'.orders == s.orders[seen.id := s.orders[seen.id].(status := Expired)]
            && s'.events == s.events + [Logged(seen.id, HandoffExpired)]
            && s'.trades.Keys == s.trades.Keys
            && (forall t :: t in s.trades ==>
                  s'.trades[t] == if IsPending(s, t) && seen.tradeId == Some(t) then Rejected else s.trades[t])
  {
  }

  lemma OneMoreNamed(orders: map<nat, Order>, ids: set<nat>, id: nat)
    requires id in orders
    ensures forall t: nat ::
              NamedByOne(orders, ids + {id}, t) <==> NamedByOne(orders, ids, t) || orders[id].tradeId == Some(t)
  {
  }

  // ---------- the store ----------

  class PublisherStore {
    var orders: map<nat, Order>
    var trades: map<nat, TradeStatus>
    var events: seq<Logged>

    ghost function State(): Tables
      reads this
    {
      Tables(orders, trades, events)
    }

    constructor ()
      ensures State() == START.tables
    {
      orders, trades, events := map[], map[], [];
    }

    method InsertPublisherOrder(o: Order) returns (ok: bool)
      modifies this`orders
      ensures State() == Inserted(old(State()), o)
      ensures ok <==> o.id !in old(orders)
    {
      ok := o.id !in orders;
      if ok {
        orders := orders[o.id := o];
      }
    }

    method GetPublisherOrder(id: nat) returns (order: Option<Order>)
      ensures order == if id in orders then Some(orders[id]) else None
    {
      order := None;
      if id in orders {
        order := Some(orders[id]);
      }
    }

    method LinkPublisherOrderTrade(id: nat, t: nat)
      modifies this`orders
      ensures State() == Linked(old(State()), id, t)
    {
      if id in orders {
        orders := orders[id := orders[id].(tradeId := Some(t))];
      }
    }

    method UpdatePublisherOrderCallback(id: nat, answer: Answer)
      modifies this`orders
      ensures State() == CalledBack(old(State()), id, answer)
    {
      if id in orders {
        orders := orders[id := orders[id].(status := if answer.Returned? then UserReturned else UserCancelled)];
      }
    }

    method UpdatePublisherTradeStatus(t: nat, status: TradeStatus)
      modifies this`trades
      ensures State() == LeavePending(old(State()), t, status)
      ensures t in old(trades) ==>
                && t in trades
                && trades[t] == if old(trades[t]) == PendingConfirmation then status else old(trades[t])
    {
      if t in trades && trades[t] == PendingConfirmation {
        trades := trades[t := status];
      }
    }

    method RejectExpiredPublisherTradeIfPending(t: nat)
      modifies this`trades
      ensures State() == LeavePending(old(State()), t, Rejected)
    {
      if t in trades && trades[t] == PendingConfirmation {
        trades := trades[t := Rejected];
      }
    }

    /** expirePublisherOrder: the transaction, on a row the caller read. */
    method ExpirePublisherOrder(order: Order) returns (tradeId: Option<nat>)
      modifies this
      ensures State() == ExpireSeen(old(State()), order)
      ensures tradeId.Some? ==> tradeId == order.tradeId && HasStatus(State(), order.id, Expired)
      ensures tradeId == None <==> order.tradeId == None || State() == old(State())
    {
      if IsTerminal(order.status) {
        return None;
      }
      if order.id !in orders || IsTerminal(orders[order.id].status) {
        return None;
      }
      orders := orders[order.id := orders[order.id].(status := Expired)];
      events := events + [Logged(order.id, HandoffExpired)];
      if order.tradeId.Some? {
        RejectExpiredPublisherTradeIfPending(order.tradeId.value);
        return order.tradeId;
      }
      return None;
    }

    /** One look at one order. With nothing between the read and the write, the answer is true
        exactly when the order is expired afterwards, and then no trade stays pending on it. */
    method ExpirePublisherOrderIfStale(id: nat, now: int) returns (expired: bool)
      requires forall o :: o in orders ==> orders[o].id == o
      modifies this
      ensures id !in old(orders) ==> !expired && State() == old(State())
      ensures id in old(orders) ==>
                && State() == Carried(old(State()), OnRead(old(orders[id]), now))
                && (expired <==> Reports(OnRead(old(orders[id]), now)))
      ensures expired <==> HasStatus(State(), id, Expired)
      ensures expired && orders[id].tradeId.Some? ==> !IsPending(State(), orders[id].tradeId.value)
    {
      var order := GetPublisherOrder(id);
      if order == None {
        return false;
      }
      if IsTerminal(order.value.status) {
        if order.value.status == Expired && order.value.tradeId.Some? {
          RejectExpiredPublisherTradeIfPending(order.value.tradeId.value);
        }
        return order.value.status == Expired;
      }
      if order.value.expiresAt > now {
        return false;
      }
      var _ := ExpirePublisherOrder(order.value);
      return true;
    }

    /** The sweep: the overdue rows are listed, then expired one by one in whatever order the
        cursor yields them. */
    method ExpireStalePublisherOrders(now: int) returns (tradeIds: seq<nat>)
      requires forall o :: o in orders ==> orders[o].id == o
      modifies this
      ensures var stale := set id | id in old(orders) && Overdue(old(orders)[id], now);
              && ExpiredExactly(old(State()), State(), stale)
              && (forall t :: t in tradeIds <==> NamedByOne(old(orders), stale, t))
    {
      hide ExpireSeen, ExpiredExactly, NamedByOne;
      var rows := orders;
      var stale := set id | id in rows && Overdue(rows[id], now);
      var left := stale;
      tradeIds := [];
      ghost var s0 := State();
      NoneExpired(s0);
      assert stale - left == {};
      while left != {}
        invariant left <= stale
        invariant ExpiredExactly(s0, State(), stale - left)
        invariant forall t :: t in tradeIds <==> NamedByOne(rows, stale - left, t)
        decreases left
      {
        var id :| id in left;
        OneMoreExpired(s0, State(), stale - left, id);
        ghost var done := stale - left;
        var tradeId := ExpirePublisherOrder(rows[id]);
        if tradeId.Some? {
          tradeIds := tradeIds + [tradeId.value];
        }
        left := left - {id};
        assert stale - left == done + {id};
        OneMoreNamed(rows, done, id);
      }
      assert stale - left == stale;
    }
  }

  lemma NoneExpired(s0: Tables)
    ensures ExpiredExactly(s0, s0, {})
    ensures forall t :: !NamedByOne(s0.orders, {}, t)
  {
  }
}
