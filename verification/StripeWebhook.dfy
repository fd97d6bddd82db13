/** Stripe subscription events applied to user plans. Handling an event is a series of separate
    store writes followed by a record of the event id; nothing makes them one transaction. */
module StripeWebhook {
  import opened Common

  // ---------- users and their resources ----------

  datatype Source = FreeSource | StripeSource | AdminSource

  /** A webhook or a broker credential: personal when it belongs to no organization, brokered
      when it is bound to a broker credential. */
  datatype Resource = Resource(personal: bool, brokered: bool, paused: bool, autoPaused: bool)

  datatype User = User(
    id: string, plan: string, customerId: Option<string>, subscriptionId: Option<string>, source: Source,
    webhooks: seq<Resource>, credentials: seq<Resource>)

  datatype State = State(users: seq<User>, processed: set<string>)

  datatype Error = ParseFailed | UnknownPlan | InvalidPlan | UserNotFound | ConstraintViolated | StoreFailed

  datatype Outcome = Outcome(state: State, error: Option<Error>)

  datatype Config = Config(pricePaper: string, pricePro: string, priceProPlus: string)

  // ---------- events ----------

  /** Absent strings are empty. */
  datatype Body =
    | CheckoutCompleted(reference: string, metadataUser: string, metadataPlan: string, price: string,
                        customer: string, subscription: string)
    | SubscriptionUpdated(customer: string, grants: bool, metadataPlan: string, price: string, subscription: string)
    | SubscriptionDeleted(customer: string)
    | PaymentFailed
    | Malformed
    | OtherType

  datatype StripeEvent = StripeEvent(id: string, body: Body)

  predicate IsValidPlan(plan: string) {
    plan == "free" || plan == "paper" || plan == "pro" || plan == "pro_plus"
  }

  function PlanRank(plan: string): int {
    if plan == "paper" then 1 else if plan == "pro" then 2 else if plan == "pro_plus" then 3 else 0
  }

  function PlanFromPrice(cfg: Config, price: string): Option<string> {
    if price == "" then None
    else if price == cfg.pricePaper then Some("paper")
    else if price == cfg.pricePro then Some("pro")
    else if price == cfg.priceProPlus then Some("pro_plus")
    else None
  }

  function PlanOf(cfg: Config, metadataPlan: string, price: string): Option<string> {
    if metadataPlan != "" then Some(metadataPlan) else PlanFromPrice(cfg, price)
  }

  // ---------- lookups ----------

  function FindUser(users: seq<User>, id: string): (i: Option<nat>)
    ensures i.Some? ==> i.value < |users| && users[i.value].id == id
    ensures i == None ==> forall j :: 0 <= j < |users| ==> users[j].id != id
  {
    if users == [] then None
    else if Last(users).id == id then Some(|users| - 1)
    else FindUser(Init(users), id)
  }

  function FindCustomer(users: seq<User>, customer: string): (i: Option<nat>)
    ensures i.Some? ==> customer != "" && i.value < |users| && users[i.value].customerId == Some(customer)
    ensures i == None ==> customer == "" || forall j :: 0 <= j < |users| ==> users[j].customerId != Some(customer)
  {
    if customer == "" || users == [] then None
    else if Last(users).customerId == Some(customer) then Some(|users| - 1)
    else FindCustomer(Init(users), customer)
  }

  /** Primary key and unique customer column. */
  predicate Valid(users: seq<User>) {
    && (forall i, j :: 0 <= i < j < |users| ==> users[i].id != users[j].id)
    && (forall i, j :: 0 <= i < j < |users| ==> users[i].customerId == None || users[i].customerId != users[j].customerId)
  }

  predicate HeldByAnother(users: seq<User>, i: nat, customer: string) {
    exists j :: 0 <= j < |users| && j != i && users[j].customerId == Some(customer)
  }

  // ---------- store writes ----------

  datatype Write =
    | SetPlan(plan: string)
    | PauseWebhooks | PauseCredentials | ClearWebhooks | ClearCredentials
    | SetIds(customer: string, subscription: string)
    | ClearSubscription
    | SetSource(source: Source)

  function PausedWebhook(r: Resource): Resource {
    if r.personal && r.brokered then r.(paused := true, autoPaused := true) else r
  }

  function PausedCredential(r: Resource): Resource {
    if r.personal then r.(paused := true, autoPaused := true) else r
  }

  function Cleared(r: Resource): Resource {
    if r.personal then r.(autoPaused := false) else r
  }

  /** One UPDATE of the user's row or of the resources the user owns. */
  function Written(u: User, w: Write): User {
    match w
    case SetPlan(plan) => u.(plan := plan)
    case PauseWebhooks => u.(webhooks := Map(u.webhooks, PausedWebhook))
    case PauseCredentials => u.(credentials := Map(u.credentials, PausedCredential))
    case ClearWebhooks => u.(webhooks := Map(u.webhooks, Cleared))
    case ClearCredentials => u.(credentials := Map(u.credentials, Cleared))
    case SetIds(customer, subscription) =>
      u.(customerId := Some(customer), subscriptionId := if subscription == "" then None else Some(subscription))
    case ClearSubscription => u.(subscriptionId := None)
    case SetSource(source) => u.(source := source)
  }

  /** The writes in order, up to the first that fails: setting a customer id that another
      user holds breaks the unique column. */
  datatype Progress = Progress(users: seq<User>, ok: bool)

  function Perform(users: seq<User>, i: nat, writes: seq<Write>): (p: Progress)
    requires i < |users|
    ensures |p.users| == |users|
  {
    if writes == [] then Progress(users, true)
    else
      var before := Perform(users, i, Init(writes));
      var w := Last(writes);
      if !before.ok then before
      else if w.SetIds? && HeldByAnother(before.users, i, w.customer) then Progress(before.users, false)
      else Progress(before.users[i := Written(before.users[i], w)], true)
  }

  /** What Apply writes for a move between plans. */
  function PlanWrites(before: string, plan: string): seq<Write> {
    if PlanRank(plan) < PlanRank(before) then [SetPlan(plan), PauseWebhooks, PauseCredentials]
    else if PlanRank(plan) > PlanRank(before) then [SetPlan(plan), ClearWebhooks, ClearCredentials]
    else [SetPlan(plan)]
  }

  // ---------- handling one event ----------

  /** What the handlers decide from what they read, before their first write. */
  datatype Decision = Refuse(error: Error) | Ignore | Act(i: nat, plan: string, rest: seq<Write>)

  /** The writes that follow the plan change: ids and billing source, never resources. */
  predicate IsRest(rest: seq<Write>) {
    || (|rest| == 1 && (rest[0].SetIds? || rest[0].SetSource?))
    || (|rest| == 2 && (rest[0].SetIds? || rest[0].ClearSubscription?) && rest[1].SetSource?)
  }

  function Decide(cfg: Config, users: seq<User>, body: Body): (d: Decision)
    ensures d.Act? ==> d.i < |users| && IsValidPlan(d.plan) && IsRest(d.rest)
  {
    match body
    case CheckoutCompleted(reference, metadataUser, metadataPlan, price, customer, subscription) =>
      var userId := if reference != "" then reference else metadataUser;
      if userId == "" then Ignore
      else
        var plan := PlanOf(cfg, metadataPlan, price);
        if plan == None then Refuse(UnknownPlan)
        else if !IsValidPlan(plan.value) then Refuse(InvalidPlan)
        else if FindUser(users, userId) == None then Refuse(UserNotFound)
        else
          Act(FindUser(users, userId).value, plan.value,
              (if customer != "" then [SetIds(customer, subscription)] else []) + [SetSource(StripeSource)])
    case SubscriptionUpdated(customer, grants, metadataPlan, price, subscription) =>
      var i := FindCustomer(users, customer);
      if i == None || users[i.value].source != StripeSource || !grants then Ignore
      else
        var plan := PlanOf(cfg, metadataPlan, price);
        if plan == None then Refuse(UnknownPlan)
        else if !IsValidPlan(plan.value) then Refuse(InvalidPlan)
        else Act(i.value, plan.value, [SetIds(customer, subscription)])
    case SubscriptionDeleted(customer) =>
      var i := FindCustomer(users, customer);
      if i == None || users[i.value].source != StripeSource then Ignore
      else Act(i.value, "free", [ClearSubscription, SetSource(FreeSource)])
    case PaymentFailed => Ignore
    case Malformed => Refuse(ParseFailed)
    case OtherType => Ignore
  }

  function WritesOf(users: seq<User>, d: Decision): seq<Write>
    requires d.Act? && d.i < |users|
  {
    PlanWrites(users[d.i].plan, d.plan) + d.rest
  }

  function Recorded(s: State, id: string): State {
    s.(processed := s.processed + {id})
  }

  /** One delivery on which every store call succeeds that can. */
  function Handled(cfg: Config, s: State, e: StripeEvent): Outcome {
    if e.id in s.processed || e.body.OtherType? then Outcome(s, None)
    else
      match Decide(cfg, s.users, e.body)
      case Refuse(error) => Outcome(s, Some(error))
      case Ignore => Outcome(Recorded(s, e.id), None)
      case Act(i, plan, rest) =>
        var done := Perform(s.users, i, WritesOf(s.users, Act(i, plan, rest)));
        if done.ok then Outcome(Recorded(s.(users := done.users), e.id), None)
        else Outcome(s.(users := done.users), Some(ConstraintViolated))
  }

  // ---------- what a series of writes does ----------

  /** The writes on the row alone. */
  function WrittenAll(u: User, writes: seq<Write>): User {
    if writes == [] then u else Written(WrittenAll(u, Init(writes)), Last(writes))
  }

  predicate Clashes(users: seq<User>, i: nat, writes: seq<Write>) {
    exists k :: 0 <= k < |writes| && writes[k].SetIds? && HeldByAnother(users, i, writes[k].customer)
  }

  /** Writes that clash with nobody turn one row into its written form and leave the others. */
  lemma {:induction false} PerformWrites(users: seq<User>, i: nat, writes: seq<Write>)
    requires i < |users| && !Clashes(users, i, writes)
    ensures Perform(users, i, writes) == Progress(users[i := WrittenAll(users[i], writes)], true)
  {
    hide Written, HeldByAnother;
    if writes == [] {
      assert users[i := users[i]] == users;
    } else {
      forall k | 0 <= k < |Init(writes)| && Init(writes)[k].SetIds?
        ensures !HeldByAnother(users, i, Init(writes)[k].customer)
      {
        assert writes[k] == Init(writes)[k];
      }
      PerformWrites(users, i, Init(writes));
      var row, w := WrittenAll(users[i], Init(writes)), Last(writes);
      assert writes[|writes| - 1] == w;
      if w.SetIds? {
        OthersHold(users, i, row, w.customer);
      }
      assert users[i := row][i := Written(row, w)] == users[i := Written(row, w)];
    }
  }

  lemma OthersHold(users: seq<User>, i: nat, row: User, customer: string)
    requires i < |users|
    ensures HeldByAnother(users[i := row], i, customer) <==> HeldByAnother(users, i, customer)
  {
    if HeldByAnother(users, i, customer) {
      var j :| 0 <= j < |users| && j != i && users[j].customerId == Some(customer);
      assert users[i := row][j].customerId == Some(customer);
    }
  }

  lemma {:induction false} WrittenAllAppends(u: User, ws: seq<Write>, ws': seq<Write>)
    ensures WrittenAll(u, ws + ws') == WrittenAll(WrittenAll(u, ws), ws')
  {
    if ws' == [] {
      assert ws + ws' == ws;
    } else {
      assert Init(ws + ws') == ws + Init(ws');
      WrittenAllAppends(u, ws, Init(ws'));
    }
  }

  lemma OneWrite(u: User, w: Write)
    ensures WrittenAll(u, [w]) == Written(u, w)
  {
    assert Init([w]) == [];
  }

  lemma TwoWrites(u: User, w: Write, w': Write)
    ensures WrittenAll(u, [w, w']) == Written(Written(u, w), w')
  {
    assert Init([w, w']) == [w];
    OneWrite(u, w);
  }

  // ---------- the plan change and the rest ----------

  function WebhooksAfter(u: User, plan: string): seq<Resource> {
    if PlanRank(plan) < PlanRank(u.plan) then Map(u.webhooks, PausedWebhook)
    else if PlanRank(plan) > PlanRank(u.plan) then Map(u.webhooks, Cleared)
    else u.webhooks
  }

  function CredentialsAfter(u: User, plan: string): seq<Resource> {
    if PlanRank(plan) < PlanRank(u.plan) then Map(u.credentials, PausedCredential)
    else if PlanRank(plan) > PlanRank(u.plan) then Map(u.credentials, Cleared)
    else u.credentials
  }

  /** The user after the plan change alone. */
  function Moved(u: User, plan: string): User {
    u.(plan := plan, webhooks := WebhooksAfter(u, plan), credentials := CredentialsAfter(u, plan))
  }

  /** The user after the first k writes of the plan change. */
  function PartlyMoved(u: User, plan: string, k: nat): User {
    if k == 0 then u
    else
      u.(plan := plan,
         webhooks := if k >= 2 then WebhooksAfter(u, plan) else u.webhooks,
         credentials := if k >= 3 then CredentialsAfter(u, plan) else u.credentials)
  }

  lemma PlanWritesMove(u: User, plan: string, k: nat)
    requires k <= |PlanWrites(u.plan, plan)|
    ensures WrittenAll(u, PlanWrites(u.plan, plan)[..k]) == PartlyMoved(u, plan, k)
    ensures k == |PlanWrites(u.plan, plan)| ==> PartlyMoved(u, plan, k) == Moved(u, plan)
  {
    hide PlanRank;
    var ws := PlanWrites(u.plan, plan);
    if k == 1 {
      assert ws[..1] == [ws[0]];
      OneWrite(u, ws[0]);
    } else if k == 2 {
      assert ws[..2] == [ws[0], ws[1]];
      TwoWrites(u, ws[0], ws[1]);
    } else if k == 3 {
      assert ws[..3] == [ws[0], ws[1]] + [ws[2]];
      TwoWrites(u, ws[0], ws[1]);
      WrittenAllAppends(u, [ws[0], ws[1]], [ws[2]]);
      OneWrite(WrittenAll(u, [ws[0], ws[1]]), ws[2]);
    }
  }

  /** The rest leaves plan and resources alone, and may be run again from any point. */
  lemma RestSettles(u: User, rest: seq<Write>, j: nat)
    requires IsRest(rest) && j <= |rest|
    ensures var v := WrittenAll(u, rest);
            && v == u.(customerId := v.customerId, subscriptionId := v.subscriptionId, source := v.source)
            && WrittenAll(WrittenAll(u, rest[..j]), rest) == v
  {
    var v := WrittenAll(u, rest[..j]);
    RestOnce(u, rest);
    RestOnce(v, rest);
    if j == 1 {
      assert rest[..1] == [rest[0]];
      OneWrite(u, rest[0]);
    } else if j == |rest| {
      assert rest[..j] == rest;
    }
  }

  lemma RestIgnoresResources(u: User, rest: seq<Write>, plan: string, webhooks: seq<Resource>, credentials: seq<Resource>)
    requires IsRest(rest)
    ensures WrittenAll(u.(plan := plan, webhooks := webhooks, credentials := credentials), rest) ==
            WrittenAll(u, rest).(plan := plan, webhooks := webhooks, credentials := credentials)
  {
    RestOnce(u, rest);
    RestOnce(u.(plan := plan, webhooks := webhooks, credentials := credentials), rest);
  }

  lemma RestOnce(u: User, rest: seq<Write>)
    requires IsRest(rest)
    ensures |rest| == 1 ==> WrittenAll(u, rest) == Written(u, rest[0])
    ensures |rest| == 2 ==> WrittenAll(u, rest) == Written(Written(u, rest[0]), rest[1])
  {
    if |rest| == 1 {
      assert rest == [rest[0]];
      OneWrite(u, rest[0]);
    } else {
      assert rest == [rest[0], rest[1]];
      TwoWrites(u, rest[0], rest[1]);
    }
  }

  /** A complete handling moves the plan and then settles the rest. */
  lemma CompleteWrites(u: User, plan: string, rest: seq<Write>)
    ensures WrittenAll(u, PlanWrites(u.plan, plan) + rest) == WrittenAll(Moved(u, plan), rest)
  {
    var ws := PlanWrites(u.plan, plan);
    WrittenAllAppends(u, ws, rest);
    PlanWritesMove(u, plan, |ws|);
    assert ws[..|ws|] == ws;
  }

  // ---------- what a handling means ----------

  predicate Changes(cfg: Config, s: State, e: StripeEvent) {
    e.id !in s.processed && Decide(cfg, s.users, e.body).Act?
  }

  lemma ClashOfPlanWrites(users: seq<User>, i: nat, plan: string, rest: seq<Write>)
    requires i < |users| && !Clashes(users, i, rest)
    ensures !Clashes(users, i, PlanWrites(users[i].plan, plan) + rest)
  {
    hide HeldByAnother, PlanRank;
    var ws := PlanWrites(users[i].plan, plan);
    forall k | 0 <= k < |ws + rest| && (ws + rest)[k].SetIds?
      ensures !HeldByAnother(users, i, (ws + rest)[k].customer)
    {
      if k >= |ws| {
        assert rest[k - |ws|] == (ws + rest)[k];
      }
    }
  }

  /** A successful handling that changes anything rewrites one user, who moves to the decided
      plan; everyone else is untouched. */
  lemma HandlingMovesOneUser(cfg: Config, s: State, e: StripeEvent)
    requires Changes(cfg, s, e) && !Clashes(s.users, Decide(cfg, s.users, e.body).i, Decide(cfg, s.users, e.body).rest)
    ensures var d := Decide(cfg, s.users, e.body);
            Handled(cfg, s, e) ==
            Outcome(Recorded(s.(users := s.users[d.i := WrittenAll(Moved(s.users[d.i], d.plan), d.rest)]), e.id), None)
  {
    var d := Decide(cfg, s.users, e.body);
    assert !e.body.OtherType?;
    hide Decide, Clashes, PlanWrites, Moved, WrittenAll, IsRest;
    ClashOfPlanWrites(s.users, d.i, d.plan, d.rest);
    PerformWrites(s.users, d.i, WritesOf(s.users, d));
    CompleteWrites(s.users[d.i], d.plan, d.rest);
  }

  /** A clash stops the handling after the plan change: the event is not recorded, but the
      user has already moved. */
  lemma ClashStopsMidway(cfg: Config, s: State, e: StripeEvent)
    requires Changes(cfg, s, e) && Clashes(s.users, Decide(cfg, s.users, e.body).i, Decide(cfg, s.users, e.body).rest)
    ensures var d := Decide(cfg, s.users, e.body);
            Handled(cfg, s, e) ==
            Outcome(s.(users := s.users[d.i := Moved(s.users[d.i], d.plan)]), Some(ConstraintViolated))
  {
    var d := Decide(cfg, s.users, e.body);
    var ws := PlanWrites(s.users[d.i].plan, d.plan);
    hide Decide, PlanWrites, Moved, WrittenAll, HeldByAnother;
    assert d.rest[0].SetIds? && HeldByAnother(s.users, d.i, d.rest[0].customer);
    NoClashInPlanWrites(s.users, d.i, d.plan);
    PerformWrites(s.users, d.i, ws);
    PlanWritesMove(s.users[d.i], d.plan, |ws|);
    assert ws[..|ws|] == ws;
    OthersHold(s.users, d.i, Moved(s.users[d.i], d.plan), d.rest[0].customer);
    StoppedAtIds(s.users, d.i, ws, d.rest);
  }

  lemma NoClashInPlanWrites(users: seq<User>, i: nat, plan: string)
    requires i < |users|
    ensures !Clashes(users, i, PlanWrites(users[i].plan, plan))
  {
    hide PlanRank;
  }

  lemma StoppedAtIds(users: seq<User>, i: nat, ws: seq<Write>, rest: seq<Write>)
    requires i < |users| && IsRest(rest) && rest[0].SetIds?
    requires Perform(users, i, ws).ok && HeldByAnother(Perform(users, i, ws).users, i, rest[0].customer)
    ensures Perform(users, i, ws + rest) == Progress(Perform(users, i, ws).users, false)
  {
    hide HeldByAnother, Written;
    assert Init(ws + [rest[0]]) == ws;
    if |rest| == 1 {
      assert rest == [rest[0]];
    } else {
      assert Init(ws + rest) == ws + [rest[0]];
    }
  }

  /** With no other store fault, a handling that fails leaves everything as it was exactly when
      it did not stop at the unique customer column, or the user was already on that plan. */
  lemma FaultlessFailureChangesNothingIff(cfg: Config, s: State, e: StripeEvent)
    requires Handled(cfg, s, e).error.Some?
    ensures Handled(cfg, s, e).state.processed == s.processed
    ensures Handled(cfg, s, e).state == s <==>
            || Handled(cfg, s, e).error != Some(ConstraintViolated)
            || (var d := Decide(cfg, s.users, e.body); d.Act? && s.users[d.i].plan == d.plan)
  {
    if Changes(cfg, s, e) {
      var d := Decide(cfg, s.users, e.body);
      if Clashes(s.users, d.i, d.rest) {
        ClashStopsMidway(cfg, s, e);
        hide Handled, Decide, PlanRank;
        assert s.users[d.i := s.users[d.i]] == s.users;
        assert s.users[d.i := Moved(s.users[d.i], d.plan)][d.i].plan == d.plan;
      } else {
        HandlingMovesOneUser(cfg, s, e);
      }
    }
  }

  // ---------- redelivery ----------

  /** Deliveries one after another; a delivery that fails is simply delivered again later. */
  function Deliver(cfg: Config, s: State, events: seq<StripeEvent>): State {
    if events == [] then s else Handled(cfg, Deliver(cfg, s, Init(events)), Last(events)).state
  }

  predicate Succeeds(cfg: Config, s: State, e: StripeEvent) {
    Handled(cfg, s, e).error == None
  }

  /** The event was handled successfully somewhere in the stream. */
  predicate HandledIn(cfg: Config, s: State, events: seq<StripeEvent>, e: StripeEvent) {
    events != [] &&
    (HandledIn(cfg, s, Init(events), e) || (Last(events) == e && Succeeds(cfg, Deliver(cfg, s, Init(events)), e)))
  }

  /** The stream cut to each event's first successful handling. */
  function FirstHandlings(cfg: Config, s: State, events: seq<StripeEvent>): seq<StripeEvent> {
    if events == [] then []
    else
      var before, e := Init(events), Last(events);
      FirstHandlings(cfg, s, before) +
      if Succeeds(cfg, Deliver(cfg, s, before), e) && !HandledIn(cfg, s, before, e) then [e] else []
  }

  /** No delivery of the stream meets a customer id that another user holds. */
  predicate NoStoreFailure(cfg: Config, s: State, events: seq<StripeEvent>) {
    events != [] ==>
      && NoStoreFailure(cfg, s, Init(events))
      && Handled(cfg, Deliver(cfg, s, Init(events)), Last(events)).error != Some(ConstraintViolated)
  }

  lemma HandledStays(cfg: Config, s: State, e: StripeEvent)
    ensures s.processed <= Handled(cfg, s, e).state.processed
    ensures Succeeds(cfg, s, e) ==> e.body.OtherType? || e.id in Handled(cfg, s, e).state.processed
  {
    hide Decide, Perform, WritesOf;
  }

  lemma {:induction false} HandledIsRecorded(cfg: Config, s: State, events: seq<StripeEvent>, e: StripeEvent)
    requires HandledIn(cfg, s, events, e)
    ensures e.body.OtherType? || e.id in Deliver(cfg, s, events).processed
  {
    hide Handled;
    HandledStays(cfg, Deliver(cfg, s, Init(events)), Last(events));
    if HandledIn(cfg, s, Init(events), e) {
      HandledIsRecorded(cfg, s, Init(events), e);
    }
  }

  lemma RepeatIsSilent(cfg: Config, s: State, e: StripeEvent)
    requires e.body.OtherType? || e.id in s.processed
    ensures Handled(cfg, s, e) == Outcome(s, None)
  {
  }

  /** A stream with redeliveries leaves the same state as the stream cut to each event's first
      successful handling, when no store write fails. */
  lemma {:induction false} RedeliveriesAddNothing(cfg: Config, s: State, events: seq<StripeEvent>)
    requires NoStoreFailure(cfg, s, events)
    ensures Deliver(cfg, s, FirstHandlings(cfg, s, events)) == Deliver(cfg, s, events)
  {
    if events != [] {
      hide Handled, HandledIn;
      var before, e := Init(events), Last(events);
      var kept, reached := FirstHandlings(cfg, s, before), Deliver(cfg, s, before);
      RedeliveriesAddNothing(cfg, s, before);
      if !Succeeds(cfg, reached, e) {
        FaultlessFailureChangesNothingIff(cfg, reached, e);
        assert kept + [] == kept;
      } else if HandledIn(cfg, s, before, e) {
        HandledIsRecorded(cfg, s, before, e);
        RepeatIsSilent(cfg, reached, e);
        assert kept + [] == kept;
      } else {
        assert Init(kept + [e]) == kept;
      }
    }
  }

  // ---------- a lost record ----------

  predicate SameKeys(users: seq<User>, users': seq<User>) {
    |users| == |users'| && forall j :: 0 <= j < |users| ==> users[j].id == users'[j].id
  }

  lemma {:induction false} FindUserByIds(users: seq<User>, users': seq<User>, id: string)
    requires SameKeys(users, users')
    ensures FindUser(users, id) == FindUser(users', id)
  {
    if users != [] {
      FindUserByIds(Init(users), Init(users'), id);
    }
  }

  predicate SameCustomers(users: seq<User>, users': seq<User>) {
    |users| == |users'| && forall j :: 0 <= j < |users| ==> users[j].customerId == users'[j].customerId
  }

  lemma {:induction false} FindCustomerByIds(users: seq<User>, users': seq<User>, customer: string)
    requires SameCustomers(users, users')
    ensures FindCustomer(users, customer) == FindCustomer(users', customer)
  {
    if users != [] {
      FindCustomerByIds(Init(users), Init(users'), customer);
    }
  }

  /** How a handler sees a user it has already rewritten in part: the same decision, or, once
      a cancelled subscription's billing source is free, none. */
  lemma DecidesAgain(cfg: Config, users: seq<User>, body: Body, row: User)
    requires Decide(cfg, users, body).Act?
    requires var i := Decide(cfg, users, body).i;
             && row.id == users[i].id
             && (row.customerId == users[i].customerId || body.CheckoutCompleted?)
             && (row.source == users[i].source || body.CheckoutCompleted? || body.SubscriptionDeleted?)
    ensures var d := Decide(cfg, users, body);
            Decide(cfg, users[d.i := row], body) ==
            if body.SubscriptionDeleted? && row.source != StripeSource then Ignore else d
  {
    var users' := users[Decide(cfg, users, body).i := row];
    match body
    case CheckoutCompleted(reference, metadataUser, _, _, _, _) =>
      FindUserByIds(users, users', if reference != "" then reference else metadataUser);
    case SubscriptionUpdated(customer, _, _, _, _) => FindCustomerByIds(users, users', customer);
    case SubscriptionDeleted(customer) => FindCustomerByIds(users, users', customer);
  }

  lemma OthersClash(users: seq<User>, i: nat, row: User, ws: seq<Write>)
    requires i < |users|
    ensures Clashes(users[i := row], i, ws) <==> Clashes(users, i, ws)
  {
    hide HeldByAnother;
    forall k | 0 <= k < |ws| && ws[k].SetIds?
      ensures HeldByAnother(users[i := row], i, ws[k].customer) <==> HeldByAnother(users, i, ws[k].customer)
    {
      OthersHold(users, i, row, ws[k].customer);
    }
  }

  /** What the rest may change of a row, by kind of event. */
  lemma RestByBody(cfg: Config, users: seq<User>, body: Body, u: User, j: nat)
    requires Decide(cfg, users, body).Act? && j <= |Decide(cfg, users, body).rest|
    requires u.customerId == users[Decide(cfg, users, body).i].customerId
    requires u.source == users[Decide(cfg, users, body).i].source
    ensures var d := Decide(cfg, users, body);
            var v := WrittenAll(u, d.rest[..j]);
            && v.id == u.id && v.plan == u.plan
            && (body.CheckoutCompleted? || v.customerId == u.customerId)
            && (body.SubscriptionUpdated? ==> v.source == u.source)
            && (body.SubscriptionDeleted? ==> (v.source != StripeSource <==> j == |d.rest|))
  {
    var rest := Decide(cfg, users, body).rest;
    hide FindUser, FindCustomer;
    if j == 1 {
      assert rest[..1] == [rest[0]];
      OneWrite(u, rest[0]);
    } else if j == 2 {
      assert rest[..2] == [rest[0], rest[1]];
      TwoWrites(u, rest[0], rest[1]);
    }
  }

  /** The user a complete handling leaves behind. */
  function Finished(u: User, d: Decision): User
    requires d.Act?
  {
    WrittenAll(Moved(u, d.plan), d.rest)
  }

  /** The handling stopped after its first k writes: the process died, and the event is not
      recorded. */
  function Interrupted(cfg: Config, s: State, e: StripeEvent, k: nat): State
    requires Decide(cfg, s.users, e.body).Act? && k <= |WritesOf(s.users, Decide(cfg, s.users, e.body))|
  {
    var d := Decide(cfg, s.users, e.body);
    s.(users := s.users[d.i := WrittenAll(s.users[d.i], WritesOf(s.users, d)[..k])])
  }

  /** The row after k of the writes: partly through the plan change, or through it and partly
      through the rest. */
  lemma InterruptedRow(u: User, plan: string, rest: seq<Write>, k: nat)
    requires k <= |PlanWrites(u.plan, plan) + rest|
    ensures var n := |PlanWrites(u.plan, plan)|;
            WrittenAll(u, (PlanWrites(u.plan, plan) + rest)[..k]) ==
            if k <= n then PartlyMoved(u, plan, k) else WrittenAll(Moved(u, plan), rest[..k - n])
  {
    var ws := PlanWrites(u.plan, plan);
    if k <= |ws| {
      assert (ws + rest)[..k] == ws[..k];
      PlanWritesMove(u, plan, k);
    } else {
      assert (ws + rest)[..k] == ws + rest[..k - |ws|];
      WrittenAllAppends(u, ws, rest[..k - |ws|]);
      PlanWritesMove(u, plan, |ws|);
      assert ws[..|ws|] == ws;
    }
  }

  /** Redelivery after the plan field was written finds equal ranks, so it never runs the
      pauses or clears that the interruption skipped. */
  predicate SkippedNothing(u: User, plan: string, k: nat) {
    && (k == 1 ==> WebhooksAfter(u, plan) == u.webhooks)
    && (1 <= k <= 2 ==> CredentialsAfter(u, plan) == u.credentials)
  }

  /** The row that redelivery leaves, started from a row with the plan already set. */
  lemma FinishesFromPartlyMoved(u: User, plan: string, rest: seq<Write>, k: nat)
    requires IsRest(rest) && k <= |PlanWrites(u.plan, plan)|
    ensures WrittenAll(Moved(PartlyMoved(u, plan, k), plan), rest) == WrittenAll(Moved(u, plan), rest) <==>
            SkippedNothing(u, plan, k)
  {
    hide PlanRank, WrittenAll;
    if k > 0 {
      var v := PartlyMoved(u, plan, k);
      assert Moved(v, plan) == v;
      RestIgnoresResources(u, rest, plan, v.webhooks, v.credentials);
      RestIgnoresResources(u, rest, plan, WebhooksAfter(u, plan), CredentialsAfter(u, plan));
      assert v == u.(plan := plan, webhooks := v.webhooks, credentials := v.credentials);
    }
  }

  /** An interrupted handling followed by a redelivery ends like one uninterrupted handling if
      and only if the interruption fell outside the plan change, or nothing was left for the
      skipped pauses and clears to do. In particular a complete handling whose record was
      lost is repeated harmlessly. */
  lemma RedeliveryCompletesIff(cfg: Config, s: State, e: StripeEvent, k: nat)
    requires Changes(cfg, s, e) && Succeeds(cfg, s, e)
    requires k <= |WritesOf(s.users, Decide(cfg, s.users, e.body))|
    ensures var d := Decide(cfg, s.users, e.body);
            var again := Handled(cfg, Interrupted(cfg, s, e, k), e);
            && again.error == None
            && (again.state == Handled(cfg, s, e).state <==> SkippedNothing(s.users[d.i], d.plan, k))
  {
    var d := Decide(cfg, s.users, e.body);
    var u := s.users[d.i];
    hide Decide, Handled, WrittenAll, Moved, PartlyMoved, PlanRank, SkippedNothing;
    if Clashes(s.users, d.i, d.rest) {
      ClashStopsMidway(cfg, s, e);
    }
    HandlingMovesOneUser(cfg, s, e);
    InterruptedRow(u, d.plan, d.rest, k);
    var n := |PlanWrites(u.plan, d.plan)|;
    if k <= n {
      RedeliveredInPlanChange(cfg, s, e, k);
    } else {
      RedeliveredInRest(cfg, s, e, Moved(u, d.plan), k - n);
    }
  }

  lemma RedeliveredFrom(cfg: Config, s: State, e: StripeEvent, row: User)
    requires Changes(cfg, s, e) && !Clashes(s.users, Decide(cfg, s.users, e.body).i, Decide(cfg, s.users, e.body).rest)
    requires var d := Decide(cfg, s.users, e.body); Decide(cfg, s.users[d.i := row], e.body) == d
    ensures var d := Decide(cfg, s.users, e.body);
            Handled(cfg, s.(users := s.users[d.i := row]), e) ==
            Outcome(Recorded(s.(users := s.users[d.i := Finished(row, d)]), e.id), None)
  {
    var d := Decide(cfg, s.users, e.body);
    hide Decide, Clashes, Handled, IsRest;
    OthersClash(s.users, d.i, row, d.rest);
    HandlingMovesOneUser(cfg, s.(users := s.users[d.i := row]), e);
    assert s.users[d.i := row][d.i := Finished(row, d)] == s.users[d.i := Finished(row, d)];
  }

  lemma RedeliveredInPlanChange(cfg: Config, s: State, e: StripeEvent, k: nat)
    requires Changes(cfg, s, e) && !Clashes(s.users, Decide(cfg, s.users, e.body).i, Decide(cfg, s.users, e.body).rest)
    requires var d := Decide(cfg, s.users, e.body); k <= |PlanWrites(s.users[d.i].plan, d.plan)|
    ensures var d := Decide(cfg, s.users, e.body);
            var u := s.users[d.i];
            var again := Handled(cfg, s.(users := s.users[d.i := PartlyMoved(u, d.plan, k)]), e);
            && again.error == None
            && (again.state == Recorded(s.(users := s.users[d.i := Finished(u, d)]), e.id) <==>
                SkippedNothing(u, d.plan, k))
  {
    var d := Decide(cfg, s.users, e.body);
    var u, row := s.users[d.i], PartlyMoved(s.users[d.i], d.plan, k);
    assert u.source == StripeSource || !e.body.SubscriptionDeleted?;
    DecidesAgain(cfg, s.users, e.body, row);
    hide Decide, Clashes, Handled, PlanWrites, WebhooksAfter, CredentialsAfter, WrittenAll;
    RedeliveredFrom(cfg, s, e, row);
    FinishesFromPartlyMoved(u, d.plan, d.rest, k);
    assert s.users[d.i := Finished(row, d)][d.i] == Finished(row, d);
    assert s.users[d.i := Finished(u, d)][d.i] == Finished(u, d);
  }

  /** Redelivery from any point of the rest, whatever became of the resources before it. */
  lemma RedeliveredInRest(cfg: Config, s: State, e: StripeEvent, moved: User, j: nat)
    requires Changes(cfg, s, e) && !Clashes(s.users, Decide(cfg, s.users, e.body).i, Decide(cfg, s.users, e.body).rest)
    requires j <= |Decide(cfg, s.users, e.body).rest|
    requires var d := Decide(cfg, s.users, e.body);
             moved == s.users[d.i].(plan := d.plan, webhooks := moved.webhooks, credentials := moved.credentials)
    ensures var d := Decide(cfg, s.users, e.body);
            Handled(cfg, s.(users := s.users[d.i := WrittenAll(moved, d.rest[..j])]), e) ==
            Outcome(Recorded(s.(users := s.users[d.i := WrittenAll(moved, d.rest)]), e.id), None)
  {
    var d := Decide(cfg, s.users, e.body);
    var row := WrittenAll(moved, d.rest[..j]);
    RestByBody(cfg, s.users, e.body, moved, j);
    DecidesAgain(cfg, s.users, e.body, row);
    if e.body.SubscriptionDeleted? && j == |d.rest| {
      assert d.rest[..j] == d.rest;
    } else {
      assert Decide(cfg, s.users[d.i := row], e.body) == d;
      hide Decide, Clashes, Handled, WebhooksAfter, CredentialsAfter, WrittenAll;
      RedeliveredFrom(cfg, s, e, row);
      RestSettles(moved, d.rest, j);
      assert row.plan == d.plan;
      AlreadyMoved(row, d.plan);
    }
  }

  lemma AlreadyMoved(u: User, plan: string)
    requires u.plan == plan
    ensures Moved(u, plan) == u
  {
  }

  /** When only the record of a complete handling was lost, handling the event again at once
      changes nothing: the plan ranks are equal and every other write repeats its value. */
  lemma LostRecordIsHarmless(cfg: Config, s: State, e: StripeEvent)
    requires Succeeds(cfg, s, e) && e.id !in s.processed
    ensures var done := Handled(cfg, s, e).state;
            var lost := done.(processed := done.processed - {e.id});
            Handled(cfg, lost, e).error == None && Handled(cfg, lost, e).state.users == done.users
  {
    if Changes(cfg, s, e) {
      var d := Decide(cfg, s.users, e.body);
      var ws := WritesOf(s.users, d);
      if Clashes(s.users, d.i, d.rest) {
        ClashStopsMidway(cfg, s, e);
      }
      HandlingMovesOneUser(cfg, s, e);
      CompleteWrites(s.users[d.i], d.plan, d.rest);
      assert ws[..|ws|] == ws;
      hide Decide, Clashes, Handled, WebhooksAfter, CredentialsAfter, WrittenAll, Moved;
      RedeliveryCompletesIff(cfg, s, e, |ws|);
      assert Recorded(s, e.id).processed - {e.id} == s.processed;
    } else {
      assert s.processed + {e.id} - {e.id} == s.processed;
    }
  }

  function Subscriber(plan: string, subscription: Option<string>, source: Source, webhook: Resource): seq<User> {
    [User("u", plan, Some("c"), subscription, source, [webhook], [])]
  }

  const RUNNING := Resource(true, true, false, false)
  const PAUSED := Resource(true, true, true, true)

  /** The skipped pause is real: a subscription with a running webhook is deleted, the process
      dies after the plan update, and after redelivery the user is on the free plan with the
      webhook still running. */
  lemma PauseCanBeSkipped(cfg: Config)
    ensures var s := State(Subscriber("pro", Some("s"), StripeSource, RUNNING), {});
            var e := StripeEvent("e", SubscriptionDeleted("c"));
            && Decide(cfg, s.users, e.body).Act?
            && Handled(cfg, s, e) == Outcome(State(Subscriber("free", None, FreeSource, PAUSED), {"e"}), None)
            && Handled(cfg, Interrupted(cfg, s, e, 1), e) ==
               Outcome(State(Subscriber("free", None, FreeSource, RUNNING), {"e"}), None)
  {
    var s := State(Subscriber("pro", Some("s"), StripeSource, RUNNING), {});
    var e, u := StripeEvent("e", SubscriptionDeleted("c")), s.users[0];
    var d, row := Act(0, "free", [ClearSubscription, SetSource(FreeSource)]), u.(plan := "free");
    DeletionDecided(cfg);
    hide Decide, Handled, WrittenAll;
    HandlingMovesOneUser(cfg, s, e);
    InterruptedRow(u, "free", d.rest, 1);
    DecidesAgain(cfg, s.users, e.body, row);
    RedeliveredFrom(cfg, s, e, row);
    SubscriberMoves();
    AlreadyMoved(row, "free");
    RestOnce(Moved(u, "free"), d.rest);
    RestOnce(row, d.rest);
  }

  lemma DeletionDecided(cfg: Config)
    ensures Decide(cfg, Subscriber("pro", Some("s"), StripeSource, RUNNING), SubscriptionDeleted("c")) ==
            Act(0, "free", [ClearSubscription, SetSource(FreeSource)])
  {
  }

  lemma SubscriberMoves()
    ensures var u := Subscriber("pro", Some("s"), StripeSource, RUNNING)[0];
            Moved(u, "free") == u.(plan := "free", webhooks := [PAUSED], credentials := [])
  {
    assert Map([RUNNING], PausedWebhook) == [PAUSED];
    assert Map<Resource, Resource>([], PausedCredential) == [];
  }

  // ---------- store calls that fail ----------

  /** What goes wrong in one delivery. The pause and clear calls are best effort: their
      errors are discarded. Any other failing call ends the delivery; these are counted from
      the reads (0), over the plan update (1) and the writes that follow, to the record. */
  datatype Faults = Faults(webhooksCall: bool, credentialsCall: bool, stopAt: Option<nat>)

  const NO_FAULTS := Faults(false, false, None)

  function MovedWith(u: User, plan: string, f: Faults): User {
    u.(plan := plan,
       webhooks := if f.webhooksCall then u.webhooks else WebhooksAfter(u, plan),
       credentials := if f.credentialsCall then u.credentials else CredentialsAfter(u, plan))
  }

  /** Whether a call after the plan update, up to the record, fails. */
  predicate Stops(f: Faults, rest: seq<Write>) {
    f.stopAt.Some? && 2 <= f.stopAt.value <= |rest| + 2
  }

  function WritesBeforeStop(f: Faults, rest: seq<Write>): (n: nat)
    ensures n <= |rest|
  {
    if Stops(f, rest) then f.stopAt.value - 2 else |rest|
  }

  /** One delivery with its faults. */
  function HandledWith(cfg: Config, s: State, e: StripeEvent, f: Faults): Outcome {
    if f.stopAt == Some(0) then Outcome(s, Some(StoreFailed))
    else if e.id in s.processed || e.body.OtherType? then Outcome(s, None)
    else
      match Decide(cfg, s.users, e.body)
      case Refuse(error) => Outcome(s, Some(error))
      case Ignore => if f.stopAt == Some(1) then Outcome(s, Some(StoreFailed)) else Outcome(Recorded(s, e.id), None)
      case Act(i, plan, rest) =>
        if f.stopAt == Some(1) then Outcome(s, Some(StoreFailed))
        else
          var done := Perform(s.users[i := MovedWith(s.users[i], plan, f)], i, rest[..WritesBeforeStop(f, rest)]);
          var s' := s.(users := done.users);
          if !done.ok then Outcome(s', Some(ConstraintViolated))
          else if Stops(f, rest) then Outcome(s', Some(StoreFailed))
          else Outcome(Recorded(s', e.id), None)
  }

  /** The rest either runs to its end or stops at its first write, which sets the ids. */
  lemma PerformRest(users: seq<User>, i: nat, rest: seq<Write>)
    requires i < |users| && IsRest(rest)
    ensures Perform(users, i, rest) ==
            if Clashes(users, i, rest) then Progress(users, false)
            else Progress(users[i := WrittenAll(users[i], rest)], true)
  {
    hide HeldByAnother, Written;
    if Clashes(users, i, rest) {
      assert rest[0].SetIds? && HeldByAnother(users, i, rest[0].customer);
      assert [] + rest == rest;
      StoppedAtIds(users, i, [], rest);
    } else {
      PerformWrites(users, i, rest);
    }
  }

  /** A delivery without faults is the one that the redelivery theorems are about. */
  lemma WithoutFaults(cfg: Config, s: State, e: StripeEvent)
    ensures HandledWith(cfg, s, e, NO_FAULTS) == Handled(cfg, s, e)
  {
    if Changes(cfg, s, e) {
      var d := Decide(cfg, s.users, e.body);
      var moved := s.users[d.i := Moved(s.users[d.i], d.plan)];
      HandlingEnds(cfg, s, e);
      assert d.rest[..|d.rest|] == d.rest;
      OthersClash(s.users, d.i, Moved(s.users[d.i], d.plan), d.rest);
      hide Decide, Handled, WebhooksAfter, CredentialsAfter, WrittenAll, Clashes, Perform;
      PerformRest(moved, d.i, d.rest);
      assert moved[d.i := Finished(s.users[d.i], d)] == s.users[d.i := Finished(s.users[d.i], d)];
    }
  }

  /** Where a delivery that meets no held customer id ends. */
  lemma FaultyEnds(cfg: Config, s: State, e: StripeEvent, f: Faults)
    requires Changes(cfg, s, e) && !Clashes(s.users, Decide(cfg, s.users, e.body).i, Decide(cfg, s.users, e.body).rest)
    requires f.stopAt != Some(0) && f.stopAt != Some(1)
    ensures var d := Decide(cfg, s.users, e.body);
            var row := WrittenAll(MovedWith(s.users[d.i], d.plan, f), d.rest[..WritesBeforeStop(f, d.rest)]);
            var s' := s.(users := s.users[d.i := row]);
            HandledWith(cfg, s, e, f) ==
            if Stops(f, d.rest) then Outcome(s', Some(StoreFailed)) else Outcome(Recorded(s', e.id), None)
  {
    var d := Decide(cfg, s.users, e.body);
    assert !e.body.OtherType?;
    hide Decide, HeldByAnother, WrittenAll, MovedWith, IsRest, Written;
    var moved, ws := MovedWith(s.users[d.i], d.plan, f), d.rest[..WritesBeforeStop(f, d.rest)];
    OthersClash(s.users, d.i, moved, d.rest);
    assert forall k :: 0 <= k < |ws| ==> ws[k] == d.rest[k];
    PerformWrites(s.users[d.i := moved], d.i, ws);
    assert s.users[d.i := moved][d.i := WrittenAll(moved, ws)] == s.users[d.i := WrittenAll(moved, ws)];
  }

  /** The lost best-effort calls had nothing to do. */
  predicate LostNothing(u: User, plan: string, f: Faults) {
    && (f.webhooksCall ==> WebhooksAfter(u, plan) == u.webhooks)
    && (f.credentialsCall ==> CredentialsAfter(u, plan) == u.credentials)
  }

  lemma RestKeepsTheLoss(u: User, plan: string, rest: seq<Write>, f: Faults)
    requires IsRest(rest)
    ensures WrittenAll(MovedWith(u, plan, f), rest) == WrittenAll(Moved(u, plan), rest) <==> LostNothing(u, plan, f)
  {
    hide WrittenAll, WebhooksAfter, CredentialsAfter;
    var v, w := MovedWith(u, plan, f), Moved(u, plan);
    RestIgnoresResources(u, rest, plan, v.webhooks, v.credentials);
    RestIgnoresResources(u, rest, plan, w.webhooks, w.credentials);
  }

  /** A recorded delivery leaves what a faultless one would if and only if the failed pause
      and clear calls had nothing to do; and being recorded, it is never repaired by another
      delivery. */
  lemma RecordedWithFaultsIff(cfg: Config, s: State, e: StripeEvent, f: Faults)
    requires Changes(cfg, s, e) && HandledWith(cfg, s, e, f).error == None
    ensures var d, s' := Decide(cfg, s.users, e.body), HandledWith(cfg, s, e, f).state;
            && (s' == Handled(cfg, s, e).state <==> LostNothing(s.users[d.i], d.plan, f))
            && Handled(cfg, s', e) == Outcome(s', None)
  {
    var d := Decide(cfg, s.users, e.body);
    RecordedMeetsNoClash(cfg, s, e, f);
    FaultyEnds(cfg, s, e, f);
    HandlingMovesOneUser(cfg, s, e);
    RestKeepsTheLoss(s.users[d.i], d.plan, d.rest, f);
    assert d.rest[..|d.rest|] == d.rest;
    var v, w := WrittenAll(MovedWith(s.users[d.i], d.plan, f), d.rest), Finished(s.users[d.i], d);
    assert s.users[d.i := v][d.i] == v && s.users[d.i := w][d.i] == w;
    hide Decide, HandledWith, WrittenAll, LostNothing, Clashes;
  }

  lemma RecordedMeetsNoClash(cfg: Config, s: State, e: StripeEvent, f: Faults)
    requires Changes(cfg, s, e) && HandledWith(cfg, s, e, f).error == None
    ensures !Clashes(s.users, Decide(cfg, s.users, e.body).i, Decide(cfg, s.users, e.body).rest)
    ensures !Stops(f, Decide(cfg, s.users, e.body).rest) && f.stopAt != Some(0) && f.stopAt != Some(1)
  {
    var d := Decide(cfg, s.users, e.body);
    assert !e.body.OtherType?;
    var moved := MovedWith(s.users[d.i], d.plan, f);
    hide Decide, Clashes, MovedWith, Perform, WrittenAll;
    OthersClash(s.users, d.i, moved, d.rest);
    PerformRest(s.users[d.i := moved], d.i, d.rest);
    assert d.rest[..|d.rest|] == d.rest;
  }

  /** The writes that a failed delivery got through after the plan change: none when it stops
      at a customer id that another user holds. */
  function Reached(users: seq<User>, d: Decision, f: Faults): seq<Write>
    requires d.Act?
  {
    if Clashes(users, d.i, d.rest) then [] else d.rest[..WritesBeforeStop(f, d.rest)]
  }

  lemma {:induction false} WritesKeepPlan(u: User, ws: seq<Write>)
    requires forall k :: 0 <= k < |ws| ==> !ws[k].SetPlan?
    ensures WrittenAll(u, ws).plan == u.plan
  {
    if ws != [] {
      WritesKeepPlan(u, Init(ws));
    }
  }

  /** Where a delivery ends that fails after its reads and its plan update. */
  lemma FailedEnds(cfg: Config, s: State, e: StripeEvent, f: Faults)
    requires Changes(cfg, s, e) && HandledWith(cfg, s, e, f).error.Some?
    requires f.stopAt != Some(0) && f.stopAt != Some(1)
    ensures var d := Decide(cfg, s.users, e.body);
            HandledWith(cfg, s, e, f).state ==
            s.(users := s.users[d.i := WrittenAll(MovedWith(s.users[d.i], d.plan, f), Reached(s.users, d, f))])
  {
    var d := Decide(cfg, s.users, e.body);
    assert !e.body.OtherType?;
    if Clashes(s.users, d.i, d.rest) {
      var moved := MovedWith(s.users[d.i], d.plan, f);
      OthersClash(s.users, d.i, moved, d.rest);
      assert d.rest[0].SetIds?;
      hide Decide, MovedWith, Written, HeldByAnother;
      StopsAtFirst(s.users[d.i := moved], d.i, d.rest, WritesBeforeStop(f, d.rest));
    } else {
      FaultyEnds(cfg, s, e, f);
      hide Decide, HandledWith, WrittenAll, MovedWith;
    }
  }

  lemma StopsAtFirst(users: seq<User>, i: nat, rest: seq<Write>, n: nat)
    requires i < |users| && IsRest(rest) && Clashes(users, i, rest) && n <= |rest|
    ensures Perform(users, i, rest[..n]).users == users
  {
    assert HeldByAnother(users, i, rest[0].customer);
    hide HeldByAnother, Written;
    assert n >= 1 ==> rest[..n][0] == rest[0];
    PerformInOrder(users, i, rest[..n]);
  }

  /** A delivery that fails, for whatever reason, leaves everything as it was exactly when it
      had nothing to change, or a call before the plan update failed, or everything it got to
      write was there already. */
  lemma FailedHandlingChangesNothingIff(cfg: Config, s: State, e: StripeEvent, f: Faults)
    requires HandledWith(cfg, s, e, f).error.Some?
    ensures HandledWith(cfg, s, e, f).state.processed == s.processed
    ensures HandledWith(cfg, s, e, f).state == s <==>
            || !Changes(cfg, s, e) || f.stopAt == Some(0) || f.stopAt == Some(1)
            || (var d := Decide(cfg, s.users, e.body);
                && s.users[d.i].plan == d.plan
                && WrittenAll(s.users[d.i], Reached(s.users, d, f)) == s.users[d.i])
  {
    if Changes(cfg, s, e) && f.stopAt != Some(0) && f.stopAt != Some(1) {
      var d := Decide(cfg, s.users, e.body);
      var u, ws := s.users[d.i], Reached(s.users, d, f);
      assert forall k :: 0 <= k < |ws| ==> !ws[k].SetPlan?;
      FailedEnds(cfg, s, e, f);
      hide Decide, HandledWith, WrittenAll, Reached, PlanRank;
      WritesKeepPlan(MovedWith(u, d.plan, f), ws);
      assert u.plan == d.plan ==> MovedWith(u, d.plan, f) == u;
      var row := WrittenAll(MovedWith(u, d.plan, f), ws);
      assert s.users[d.i := row][d.i] == row && s.users[d.i := u] == s.users;
    }
  }

  /** A discarded error is real: the same subscription is deleted, the call that pauses its
      webhook fails, and the event is recorded with the webhook running on the free plan. */
  lemma LostPauseIsRecorded(cfg: Config)
    ensures var s := State(Subscriber("pro", Some("s"), StripeSource, RUNNING), {});
            var e := StripeEvent("e", SubscriptionDeleted("c"));
            HandledWith(cfg, s, e, Faults(true, false, None)) ==
            Outcome(State(Subscriber("free", None, FreeSource, RUNNING), {"e"}), None)
  {
    var s := State(Subscriber("pro", Some("s"), StripeSource, RUNNING), {});
    var e, u, f := StripeEvent("e", SubscriptionDeleted("c")), s.users[0], Faults(true, false, None);
    var rest := [ClearSubscription, SetSource(FreeSource)];
    DeletionDecided(cfg);
    hide Decide, HandledWith, WrittenAll;
    FaultyEnds(cfg, s, e, f);
    assert rest[..|rest|] == rest;
    SubscriberMoves();
    RestOnce(MovedWith(u, "free", f), rest);
  }

  /** A delivery that a store failure ended, redelivered without faults, ends like a faultless
      one if and only if the plan had not been written yet, or no pause or clear with work to
      do was lost. */
  lemma RedeliveryAfterStoreFailureIff(cfg: Config, s: State, e: StripeEvent, f: Faults)
    requires Changes(cfg, s, e) && Succeeds(cfg, s, e)
    requires HandledWith(cfg, s, e, f).error == Some(StoreFailed)
    ensures var d := Decide(cfg, s.users, e.body);
            var again := Handled(cfg, HandledWith(cfg, s, e, f).state, e);
            && again.error == None && f.stopAt.Some?
            && (again.state == Handled(cfg, s, e).state <==>
                f.stopAt.value <= 1 || LostNothing(s.users[d.i], d.plan, f))
  {
    var d := Decide(cfg, s.users, e.body);
    if Clashes(s.users, d.i, d.rest) {
      ClashStopsMidway(cfg, s, e);
    }
    HandlingMovesOneUser(cfg, s, e);
    if f.stopAt != Some(0) && f.stopAt != Some(1) {
      FaultyEnds(cfg, s, e, f);
      var moved := MovedWith(s.users[d.i], d.plan, f);
      RedeliveredInRest(cfg, s, e, moved, WritesBeforeStop(f, d.rest));
      RestKeepsTheLoss(s.users[d.i], d.plan, d.rest, f);
      var v, w := WrittenAll(moved, d.rest), Finished(s.users[d.i], d);
      assert s.users[d.i := v][d.i] == v && s.users[d.i := w][d.i] == w;
      hide Decide, HandledWith, WrittenAll, LostNothing, Clashes, Handled, MovedWith;
    }
  }

  // ---------- what users get ----------

  /** With unique customers only a checkout can meet a customer id that another user holds. */
  lemma OnlyCheckoutsClash(cfg: Config, users: seq<User>, body: Body)
    requires Valid(users) && Decide(cfg, users, body).Act?
    ensures Clashes(users, Decide(cfg, users, body).i, Decide(cfg, users, body).rest) ==>
              body.CheckoutCompleted? && HeldByAnother(users, Decide(cfg, users, body).i, body.customer)
  {
  }

  lemma RowKeepsValid(users: seq<User>, i: nat, row: User)
    requires Valid(users) && i < |users| && row.id == users[i].id
    requires row.customerId == users[i].customerId || (row.customerId.Some? && !HeldByAnother(users, i, row.customerId.value))
    ensures Valid(users[i := row])
  {
  }

  lemma {:induction false} PerformKeepsValid(users: seq<User>, i: nat, writes: seq<Write>)
    requires Valid(users) && i < |users|
    ensures Valid(Perform(users, i, writes).users)
  {
    if writes != [] {
      hide HeldByAnother, Valid;
      PerformKeepsValid(users, i, Init(writes));
      var before := Perform(users, i, Init(writes));
      if before.ok && Perform(users, i, writes).ok {
        RowKeepsValid(before.users, i, Written(before.users[i], Last(writes)));
      }
    }
  }

  /** Handling keeps user ids and customer ids unique, whether it succeeds or fails and
      wherever it stops. */
  lemma HandlingKeepsCustomersUnique(cfg: Config, s: State, e: StripeEvent, f: Faults)
    requires Valid(s.users)
    ensures Valid(HandledWith(cfg, s, e, f).state.users)
  {
    if Changes(cfg, s, e) {
      var d := Decide(cfg, s.users, e.body);
      hide Decide, Valid, HeldByAnother, Perform;
      var moved := s.users[d.i := MovedWith(s.users[d.i], d.plan, f)];
      RowKeepsValid(s.users, d.i, moved[d.i]);
      PerformKeepsValid(moved, d.i, d.rest[..WritesBeforeStop(f, d.rest)]);
    }
  }

  predicate WebhooksHalted(rs: seq<Resource>) {
    forall k :: 0 <= k < |rs| && rs[k].personal && rs[k].brokered ==> rs[k].paused && rs[k].autoPaused
  }

  predicate CredentialsHalted(rs: seq<Resource>) {
    forall k :: 0 <= k < |rs| && rs[k].personal ==> rs[k].paused && rs[k].autoPaused
  }

  /** rs' is rs with no personal resource marked as paused automatically, and the pauses
      themselves as they were. */
  predicate MarksCleared(rs: seq<Resource>, rs': seq<Resource>) {
    |rs'| == |rs| && forall k :: 0 <= k < |rs| ==>
      rs'[k] == rs[k].(autoPaused := !rs[k].personal && rs[k].autoPaused)
  }

  lemma MoveReachesResources(u: User, plan: string)
    ensures var u' := Moved(u, plan);
            && u'.plan == plan
            && (PlanRank(plan) < PlanRank(u.plan) ==> WebhooksHalted(u'.webhooks) && CredentialsHalted(u'.credentials))
            && (PlanRank(plan) > PlanRank(u.plan) ==>
                  MarksCleared(u.webhooks, u'.webhooks) && MarksCleared(u.credentials, u'.credentials))
            && (PlanRank(plan) == PlanRank(u.plan) ==> u'.webhooks == u.webhooks && u'.credentials == u.credentials)
  {
    var u' := Moved(u, plan);
    if PlanRank(plan) < PlanRank(u.plan) {
      assert forall k :: 0 <= k < |u.webhooks| ==> u'.webhooks[k] == PausedWebhook(u.webhooks[k]);
      assert forall k :: 0 <= k < |u.credentials| ==> u'.credentials[k] == PausedCredential(u.credentials[k]);
    } else if PlanRank(plan) > PlanRank(u.plan) {
      assert forall k :: 0 <= k < |u.webhooks| ==> u'.webhooks[k] == Cleared(u.webhooks[k]);
      assert forall k :: 0 <= k < |u.credentials| ==> u'.credentials[k] == Cleared(u.credentials[k]);
    }
    hide PlanRank;
  }

  /** A recorded change leaves exactly one user changed, on the decided plan, whatever became
      of its pause and clear calls. Moving down leaves every personal broker-bound webhook and
      every personal credential paused exactly if the call went through or they were paused
      already; moving up clears the automatic-pause marks if the call went through, and
      resumes nothing by itself. */
  lemma PlanChangeReachesResources(cfg: Config, s: State, e: StripeEvent, f: Faults)
    requires Changes(cfg, s, e) && HandledWith(cfg, s, e, f).error == None
    ensures var d, users' := Decide(cfg, s.users, e.body), HandledWith(cfg, s, e, f).state.users;
            |users'| == |s.users| && (forall j :: 0 <= j < |users'| && j != d.i ==> users'[j] == s.users[j])
    ensures var d := Decide(cfg, s.users, e.body);
            var u, u' := s.users[d.i], HandledWith(cfg, s, e, f).state.users[d.i];
            && u'.plan == d.plan
            && (PlanRank(d.plan) < PlanRank(u.plan) ==>
                  && (WebhooksHalted(u'.webhooks) <==> !f.webhooksCall || WebhooksHalted(u.webhooks))
                  && (CredentialsHalted(u'.credentials) <==> !f.credentialsCall || CredentialsHalted(u.credentials)))
            && (PlanRank(d.plan) > PlanRank(u.plan) ==>
                  && (if f.webhooksCall then u'.webhooks == u.webhooks else MarksCleared(u.webhooks, u'.webhooks))
                  && (if f.credentialsCall then u'.credentials == u.credentials
                      else MarksCleared(u.credentials, u'.credentials)))
            && (PlanRank(d.plan) == PlanRank(u.plan) ==> u'.webhooks == u.webhooks && u'.credentials == u.credentials)
  {
    var d := Decide(cfg, s.users, e.body);
    RecordedMeetsNoClash(cfg, s, e, f);
    FaultyEnds(cfg, s, e, f);
    assert d.rest[..|d.rest|] == d.rest;
    hide Decide, HandledWith, WrittenAll, IsRest, PlanRank, Clashes, WebhooksAfter, CredentialsAfter,
      WebhooksHalted, CredentialsHalted, MarksCleared;
    RestSettles(MovedWith(s.users[d.i], d.plan, f), d.rest, 0);
    MoveReachesResources(s.users[d.i], d.plan);
  }

  // ---------- the processor ----------

  class WebhookProcessor {
    const cfg: Config
    var users: seq<User>
    var processed: set<string>

    ghost function Store(): State
      reads this
    {
      State(users, processed)
    }

    constructor (cfg: Config, users: seq<User>)
      ensures Store() == State(users, {}) && this.cfg == cfg
    {
      this.cfg, this.users, processed := cfg, users, {};
    }

    /** Apply: the plan first, then the pauses of a downgrade or the clears of an upgrade,
        whose errors are discarded. */
    method Apply(i: nat, plan: string, f: Faults)
      requires i < |users|
      modifies this`users
      ensures users == old(users)[i := MovedWith(old(users)[i], plan, f)]
    {
      hide PlanRank;
      var before := users[i];
      var isDowngrade := PlanRank(plan) < PlanRank(before.plan);
      var isUpgrade := PlanRank(plan) > PlanRank(before.plan);
      users := users[i := Written(users[i], SetPlan(plan))];
      if isDowngrade {
        BestEffort(i, PauseWebhooks, f.webhooksCall);
        BestEffort(i, PauseCredentials, f.credentialsCall);
      } else if isUpgrade {
        BestEffort(i, ClearWebhooks, f.webhooksCall);
        BestEffort(i, ClearCredentials, f.credentialsCall);
      }
    }

    method BestEffort(i: nat, w: Write, fails: bool)
      requires i < |users|
      modifies this`users
      ensures users == if fails then old(users) else old(users)[i := Written(old(users)[i], w)]
    {
      if !fails {
        users := users[i := Written(users[i], w)];
      }
    }

    method SetUserStripeIDs(i: nat, customer: string, subscription: string) returns (ok: bool)
      requires i < |users|
      modifies this`users
      ensures ok <==> !HeldByAnother(old(users), i, customer)
      ensures users == if ok then old(users)[i := Written(old(users)[i], SetIds(customer, subscription))] else old(users)
    {
      ok := !HeldByAnother(users, i, customer);
      if ok {
        users := users[i := Written(users[i], SetIds(customer, subscription))];
      }
    }

    method UpdateUser(i: nat, w: Write)
      requires i < |users| && (w.SetSource? || w.ClearSubscription?)
      modifies this`users
      ensures users == old(users)[i := Written(old(users)[i], w)]
    {
      users := users[i := Written(users[i], w)];
    }

    /** The first of the writes after the plan change, as many as are reached, until one
        fails. */
    method Settle(i: nat, writes: seq<Write>) returns (ok: bool)
      requires i < |users| && (writes == [] || IsRest(writes) || (|writes| == 1 && writes[0].ClearSubscription?))
      modifies this`users
      ensures Progress(users, ok) == Perform(old(users), i, writes)
    {
      hide HeldByAnother, Written;
      PerformInOrder(users, i, writes);
      if |writes| == 0 {
        return true;
      }
      if writes[0].SetIds? {
        ok := SetUserStripeIDs(i, writes[0].customer, writes[0].subscription);
        if !ok {
          return;
        }
      } else {
        UpdateUser(i, writes[0]);
      }
      if |writes| == 2 {
        UpdateUser(i, writes[1]);
      }
      return true;
    }

    /** Handle, with the faults of this delivery. */
    method Handle(e: StripeEvent, f: Faults) returns (error: Option<Error>)
      modifies this
      ensures Outcome(Store(), error) == HandledWith(cfg, old(Store()), e, f)
    {
      if f.stopAt == Some(0) {
        return Some(StoreFailed);
      }
      if e.id in processed {
        return None;
      }
      if e.body.OtherType? {
        return None;
      }
      var decision := Decide(cfg, users, e.body);
      hide Decide, Perform, MovedWith;
      match decision {
        case Refuse(reason) =>
          return Some(reason);
        case Ignore =>
          if f.stopAt == Some(1) {
            return Some(StoreFailed);
          }
        case Act(i, plan, rest) =>
          if f.stopAt == Some(1) {
            return Some(StoreFailed);
          }
          Apply(i, plan, f);
          var ok := Settle(i, rest[..WritesBeforeStop(f, rest)]);
          if !ok {
            return Some(ConstraintViolated);
          }
          if Stops(f, rest) {
            return Some(StoreFailed);
          }
      }
      processed := processed + {e.id};
      return None;
    }
  }

  /** Performing at most two writes, spelled as the handlers run them. */
  lemma PerformInOrder(users: seq<User>, i: nat, writes: seq<Write>)
    requires i < |users| && |writes| <= 2
    ensures writes == [] ==> Perform(users, i, writes) == Progress(users, true)
    ensures |writes| >= 1 && writes[0].SetIds? && HeldByAnother(users, i, writes[0].customer) ==>
              Perform(users, i, writes) == Progress(users, false)
    ensures |writes| >= 1 && !(writes[0].SetIds? && HeldByAnother(users, i, writes[0].customer)) ==>
              var once := users[i := Written(users[i], writes[0])];
              && (|writes| == 1 ==> Perform(users, i, writes) == Progress(once, true))
              && (|writes| == 2 && !writes[1].SetIds? ==>
                    Perform(users, i, writes) == Progress(once[i := Written(once[i], writes[1])], true))
  {
    hide HeldByAnother, Written;
    if |writes| >= 1 {
      var w := writes[0];
      assert Init([w]) == [] && Last([w]) == w;
      assert Perform(users, i, []) == Progress(users, true);
      assert Perform(users, i, [w]) ==
             if w.SetIds? && HeldByAnother(users, i, w.customer) then Progress(users, false)
             else Progress(users[i := Written(users[i], w)], true);
      assert |writes| == 2 ==> Init(writes) == [w];
      assert |writes| == 1 ==> writes == [w];
    }
  }

  lemma HandlingEnds(cfg: Config, s: State, e: StripeEvent)
    requires Changes(cfg, s, e)
    ensures var d := Decide(cfg, s.users, e.body);
            Handled(cfg, s, e) ==
            if Clashes(s.users, d.i, d.rest) then
              Outcome(s.(users := s.users[d.i := Moved(s.users[d.i], d.plan)]), Some(ConstraintViolated))
            else Outcome(Recorded(s.(users := s.users[d.i := Finished(s.users[d.i], d)]), e.id), None)
  {
    var d := Decide(cfg, s.users, e.body);
    if Clashes(s.users, d.i, d.rest) {
      ClashStopsMidway(cfg, s, e);
    } else {
      HandlingMovesOneUser(cfg, s, e);
    }
  }
}
