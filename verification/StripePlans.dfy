/** What each Stripe event does to the users, by plan names, prices and columns alone. */
module StripePlans {
  import opened Common
  import opened StripeWebhook

  /** The plans from the lowest to the highest. */
  const LADDER: seq<string> := ["free", "paper", "pro", "pro_plus"]

  /** A stored name that is no plan stands with the free plan. */
  predicate Stands(plan: string, i: int) {
    0 <= i < |LADDER| && (plan == LADDER[i] || (i == 0 && plan !in LADDER))
  }

  ghost predicate Below(plan: string, other: string) {
    exists i, j :: 0 <= i < j < |LADDER| && Stands(plan, i) && Stands(other, j)
  }

  lemma RankedByLadder(plan: string, other: string)
    ensures PlanRank(plan) < PlanRank(other) <==> Below(plan, other)
    ensures IsValidPlan(plan) <==> plan in LADDER
  {
    assert forall i :: Stands(plan, i) ==> i == PlanRank(plan);
    assert forall i :: Stands(other, i) ==> i == PlanRank(other);
    assert Stands(plan, PlanRank(plan)) && Stands(other, PlanRank(other));
  }

  // ---------- what a change of plan does to the resources ----------

  /** A move down pauses the personal resources it applies to and marks them; a move up clears
      the marks of personal ones and resumes none; nothing else changes. */
  ghost predicate MovedResource(r: Resource, r': Resource, before: string, plan: string, applies: bool) {
    if Below(plan, before) && r.personal && applies then r' == r.(paused := true, autoPaused := true)
    else if Below(before, plan) && r.personal then r' == r.(autoPaused := false)
    else r' == r
  }

  ghost predicate MovedTo(u: User, u': User, plan: string) {
    && u'.id == u.id && u'.plan == plan
    && |u'.webhooks| == |u.webhooks| && |u'.credentials| == |u.credentials|
    && (forall k :: 0 <= k < |u.webhooks| ==>
          MovedResource(u.webhooks[k], u'.webhooks[k], u.plan, plan, u.webhooks[k].brokered))
    && (forall k :: 0 <= k < |u.credentials| ==>
          MovedResource(u.credentials[k], u'.credentials[k], u.plan, plan, true))
  }

  ghost predicate Billed(u': User, customerId: Option<string>, subscriptionId: Option<string>, source: Source) {
    u'.customerId == customerId && u'.subscriptionId == subscriptionId && u'.source == source
  }

  lemma MovedIsMovedTo(u: User, plan: string)
    ensures MovedTo(u, Moved(u, plan), plan)
    ensures Billed(Moved(u, plan), u.customerId, u.subscriptionId, u.source)
  {
    hide PlanRank, MovedResource, WebhooksAfter, CredentialsAfter;
    MovedWebhooks(u, plan);
    MovedCredentials(u, plan);
  }

  lemma MovedWebhooks(u: User, plan: string)
    ensures |WebhooksAfter(u, plan)| == |u.webhooks|
    ensures forall k :: 0 <= k < |u.webhooks| ==>
              MovedResource(u.webhooks[k], WebhooksAfter(u, plan)[k], u.plan, plan, u.webhooks[k].brokered)
  {
    hide PlanRank, Below;
    RankedByLadder(plan, u.plan);
    RankedByLadder(u.plan, plan);
    forall k | 0 <= k < |u.webhooks|
      ensures WebhooksAfter(u, plan)[k] ==
              if Below(plan, u.plan) then PausedWebhook(u.webhooks[k])
              else if Below(u.plan, plan) then Cleared(u.webhooks[k]) else u.webhooks[k]
    {
    }
  }

  lemma MovedCredentials(u: User, plan: string)
    ensures |CredentialsAfter(u, plan)| == |u.credentials|
    ensures forall k :: 0 <= k < |u.credentials| ==>
              MovedResource(u.credentials[k], CredentialsAfter(u, plan)[k], u.plan, plan, true)
  {
    hide PlanRank, Below;
    RankedByLadder(plan, u.plan);
    RankedByLadder(u.plan, plan);
    forall k | 0 <= k < |u.credentials|
      ensures CredentialsAfter(u, plan)[k] ==
              if Below(plan, u.plan) then PausedCredential(u.credentials[k])
              else if Below(u.plan, plan) then Cleared(u.credentials[k]) else u.credentials[k]
    {
    }
  }

  lemma SameResourcesMovedTo(u: User, v: User, u': User, plan: string)
    requires MovedTo(u, v, plan)
    requires u' == v.(customerId := u'.customerId, subscriptionId := u'.subscriptionId, source := u'.source)
    ensures MovedTo(u, u', plan)
  {
    hide MovedResource;
  }

  // ---------- which plan an event is about ----------

  /** The plan of the metadata, or else the first of the configured prices that the price is. */
  predicate Buys(cfg: Config, metadataPlan: string, price: string, plan: string) {
    if metadataPlan != "" then plan == metadataPlan else price != "" && Priced(cfg, price, plan)
  }

  predicate Priced(cfg: Config, price: string, plan: string) {
    || (plan == "paper" && price == cfg.pricePaper)
    || (plan == "pro" && price == cfg.pricePro && price != cfg.pricePaper)
    || (plan == "pro_plus" && price == cfg.priceProPlus && price != cfg.pricePaper && price != cfg.pricePro)
  }

  lemma PlanBought(cfg: Config, metadataPlan: string, price: string)
    ensures forall plan :: PlanOf(cfg, metadataPlan, price) == Some(plan) <==> Buys(cfg, metadataPlan, price, plan)
  {
  }

  // ---------- the events ----------

  predicate Owner(users: seq<User>, i: int, customer: string) {
    0 <= i < |users| && customer != "" && users[i].customerId == Some(customer)
  }

  lemma FoundCustomer(users: seq<User>, customer: string)
    requires Valid(users)
    ensures forall i :: Owner(users, i, customer) <==> 0 <= i && FindCustomer(users, customer) == Some(i)
  {
  }

  lemma FoundUser(users: seq<User>, id: string)
    requires Valid(users)
    ensures forall i :: (0 <= i < |users| && users[i].id == id) <==> 0 <= i && FindUser(users, id) == Some(i)
  {
  }

  /** A deleted subscription takes the customer who pays by Stripe down to the free plan, ends
      the subscription and keeps the customer id. Nobody else changes, and nobody at all when
      there is no such customer or the plan comes from elsewhere; the event is recorded. */
  lemma DeletionEffect(cfg: Config, s: State, e: StripeEvent)
    requires Valid(s.users) && e.body.SubscriptionDeleted? && e.id !in s.processed
    ensures var out := Handled(cfg, s, e);
            && out.error == None && out.state.processed == s.processed + {e.id}
            && |out.state.users| == |s.users|
            && forall i :: 0 <= i < |s.users| ==>
                 var u, u' := s.users[i], out.state.users[i];
                 if Owner(s.users, i, e.body.customer) && u.source == StripeSource then
                   MovedTo(u, u', "free") && Billed(u', u.customerId, None, FreeSource)
                 else u' == u
  {
    FoundCustomer(s.users, e.body.customer);
    if Changes(cfg, s, e) {
      HandlingEnds(cfg, s, e);
      var d := Decide(cfg, s.users, e.body);
      hide Handled, Moved, MovedTo, WrittenAll;
      MovedIsMovedTo(s.users[d.i], "free");
      RestOnce(Moved(s.users[d.i], "free"), d.rest);
      SameResourcesMovedTo(s.users[d.i], Moved(s.users[d.i], "free"), Finished(s.users[d.i], d), "free");
    }
  }

  /** A renewal or change of a subscription that grants access moves the customer who pays by
      Stripe to the plan it buys, which must be on the ladder, and stores the subscription.
      Without access, without such a customer, or for a plan given otherwise, nobody changes;
      a price that stands for no plan and a plan that is not on the ladder are errors. */
  lemma UpdateEffect(cfg: Config, s: State, e: StripeEvent)
    requires Valid(s.users) && e.body.SubscriptionUpdated? && e.id !in s.processed
    ensures var out, b := Handled(cfg, s, e), e.body;
            var paying := b.grants && exists i :: Owner(s.users, i, b.customer) && s.users[i].source == StripeSource;
            && (!paying ==> out == Outcome(State(s.users, s.processed + {e.id}), None))
            && (paying && (forall plan :: !Buys(cfg, b.metadataPlan, b.price, plan)) ==> out == Outcome(s, Some(UnknownPlan)))
            && (forall plan :: paying && Buys(cfg, b.metadataPlan, b.price, plan) && plan !in LADDER ==>
                  out == Outcome(s, Some(InvalidPlan)))
            && (forall plan :: paying && Buys(cfg, b.metadataPlan, b.price, plan) && plan in LADDER ==>
                  && out.error == None && out.state.processed == s.processed + {e.id}
                  && |out.state.users| == |s.users|
                  && forall i :: 0 <= i < |s.users| ==>
                       var u, u' := s.users[i], out.state.users[i];
                       if Owner(s.users, i, b.customer) then
                         MovedTo(u, u', plan) && Billed(u', u.customerId, Stored(b.subscription), StripeSource)
                       else u' == u)
  {
    var b := e.body;
    FoundCustomer(s.users, b.customer);
    PlanBought(cfg, b.metadataPlan, b.price);
    forall plan ensures IsValidPlan(plan) <==> plan in LADDER { RankedByLadder(plan, plan); }
    hide PlanOf, Buys, IsValidPlan, Handled, Valid, MovedTo, Owner, FindCustomer;
    if Changes(cfg, s, e) {
      OnlyCheckoutsClash(cfg, s.users, b);
      UpdateMoves(cfg, s, e);
    } else {
      HandledUnchanged(cfg, s, e);
    }
  }

  lemma UpdateMoves(cfg: Config, s: State, e: StripeEvent)
    requires e.body.SubscriptionUpdated? && Changes(cfg, s, e)
    requires !Clashes(s.users, Decide(cfg, s.users, e.body).i, Decide(cfg, s.users, e.body).rest)
    ensures var d, out := Decide(cfg, s.users, e.body), Handled(cfg, s, e);
            && out.error == None && out.state.processed == s.processed + {e.id} && |out.state.users| == |s.users|
            && MovedTo(s.users[d.i], out.state.users[d.i], d.plan)
            && Billed(out.state.users[d.i], s.users[d.i].customerId, Stored(e.body.subscription), StripeSource)
            && forall j :: 0 <= j < |s.users| && j != d.i ==> out.state.users[j] == s.users[j]
  {
    var d := Decide(cfg, s.users, e.body);
    var u := s.users[d.i];
    assert d.rest == [SetIds(e.body.customer, e.body.subscription)] && u.source == StripeSource;
    assert u.customerId == Some(e.body.customer);
    HandlingEnds(cfg, s, e);
    hide Handled, Moved, MovedTo, WrittenAll, Decide, Clashes, IsRest;
    MovedIsMovedTo(u, d.plan);
    OneWrite(Moved(u, d.plan), d.rest[0]);
    SameResourcesMovedTo(u, Moved(u, d.plan), Finished(u, d), d.plan);
  }

  /** The subscription column: an absent one is null. */
  function Stored(subscription: string): Option<string> {
    if subscription == "" then None else Some(subscription)
  }

  /** A completed checkout moves the user it names, by reference or else by metadata, to the
      plan bought, and makes Stripe the source of the plan; with a customer it stores customer
      and subscription, unless another user holds that customer id: then the event fails with
      the user already moved. Without a user it is only recorded; a price without a plan, a plan
      that is not on the ladder and an unknown user are errors, found in this order. */
  lemma CheckoutEffect(cfg: Config, s: State, e: StripeEvent, named: string)
    requires Valid(s.users) && e.body.CheckoutCompleted? && e.id !in s.processed
    requires named == if e.body.reference != "" then e.body.reference else e.body.metadataUser
    ensures var out, b := Handled(cfg, s, e), e.body;
            && (named == "" ==> out == Outcome(State(s.users, s.processed + {e.id}), None))
            && (named != "" && (forall plan :: !Buys(cfg, b.metadataPlan, b.price, plan)) ==>
                  out == Outcome(s, Some(UnknownPlan)))
            && (forall plan :: named != "" && Buys(cfg, b.metadataPlan, b.price, plan) ==>
                  if plan !in LADDER then out == Outcome(s, Some(InvalidPlan))
                  else if forall i :: 0 <= i < |s.users| ==> s.users[i].id != named then
                    out == Outcome(s, Some(UserNotFound))
                  else
                    && |out.state.users| == |s.users|
                    && forall i :: 0 <= i < |s.users| ==>
                         if s.users[i].id == named then CheckedOut(s, out, e, i, plan)
                         else out.state.users[i] == s.users[i])
  {
    var b := e.body;
    FoundUser(s.users, named);
    PlanBought(cfg, b.metadataPlan, b.price);
    forall plan ensures IsValidPlan(plan) <==> plan in LADDER { RankedByLadder(plan, plan); }
    hide PlanOf, Buys, IsValidPlan, Handled, CheckedOut, Valid, Decide;
    CheckoutDecided(cfg, s, e, named);
    if Changes(cfg, s, e) {
      CheckoutMoves(cfg, s, e);
    } else {
      HandledUnchanged(cfg, s, e);
    }
  }

  /** What the handler decides on a checkout, against the rows. */
  lemma CheckoutDecided(cfg: Config, s: State, e: StripeEvent, named: string)
    requires e.body.CheckoutCompleted?
    requires named == if e.body.reference != "" then e.body.reference else e.body.metadataUser
    ensures var d, plan, i := Decide(cfg, s.users, e.body), PlanOf(cfg, e.body.metadataPlan, e.body.price), FindUser(s.users, named);
            d == if named == "" then Ignore
                 else if plan == None then Refuse(UnknownPlan)
                 else if !IsValidPlan(plan.value) then Refuse(InvalidPlan)
                 else if i == None then Refuse(UserNotFound)
                 else Act(i.value, plan.value, d.rest)
    ensures Decide(cfg, s.users, e.body).Act? ==>
              Decide(cfg, s.users, e.body).rest ==
              (if e.body.customer != "" then [SetIds(e.body.customer, e.body.subscription)] else []) + [SetSource(StripeSource)]
  {
    hide PlanOf, IsValidPlan;
  }

  lemma HandledUnchanged(cfg: Config, s: State, e: StripeEvent)
    requires !Changes(cfg, s, e) && e.id !in s.processed && !e.body.OtherType?
    ensures var d := Decide(cfg, s.users, e.body);
            && (d.Ignore? ==> Handled(cfg, s, e) == Outcome(State(s.users, s.processed + {e.id}), None))
            && (d.Refuse? ==> Handled(cfg, s, e) == Outcome(s, Some(d.error)))
  {
    hide Decide;
  }

  lemma CheckoutMoves(cfg: Config, s: State, e: StripeEvent)
    requires e.body.CheckoutCompleted? && Changes(cfg, s, e)
    ensures var d, out := Decide(cfg, s.users, e.body), Handled(cfg, s, e);
            && |out.state.users| == |s.users| && CheckedOut(s, out, e, d.i, d.plan)
            && forall j :: 0 <= j < |s.users| && j != d.i ==> out.state.users[j] == s.users[j]
  {
    var d := Decide(cfg, s.users, e.body);
    var u, named := s.users[d.i], if e.body.reference != "" then e.body.reference else e.body.metadataUser;
    CheckoutDecided(cfg, s, e, named);
    HandlingEnds(cfg, s, e);
    ClashesOfCheckout(s.users, d.i, e.body);
    hide Handled, Moved, MovedTo, WrittenAll, Decide, Clashes, IsRest;
    MovedIsMovedTo(u, d.plan);
    CheckoutBills(u, Moved(u, d.plan), d.rest, e.body, d.plan);
  }

  lemma CheckoutBills(u: User, v: User, rest: seq<Write>, b: Body, plan: string)
    requires b.CheckoutCompleted? && MovedTo(u, v, plan)
    requires rest == (if b.customer != "" then [SetIds(b.customer, b.subscription)] else []) + [SetSource(StripeSource)]
    ensures var u' := WrittenAll(v, rest);
            && MovedTo(u, u', plan)
            && (if b.customer != "" then Billed(u', Some(b.customer), Stored(b.subscription), StripeSource)
                else Billed(u', v.customerId, v.subscriptionId, StripeSource))
  {
    hide WrittenAll, MovedTo;
    RestOnce(v, rest);
    SameResourcesMovedTo(u, v, WrittenAll(v, rest), plan);
  }

  lemma ClashesOfCheckout(users: seq<User>, i: nat, b: Body)
    requires b.CheckoutCompleted?
    ensures var rest := (if b.customer != "" then [SetIds(b.customer, b.subscription)] else []) + [SetSource(StripeSource)];
            Clashes(users, i, rest) <==>
            b.customer != "" && exists j :: 0 <= j < |users| && j != i && users[j].customerId == Some(b.customer)
  {
    var rest := (if b.customer != "" then [SetIds(b.customer, b.subscription)] else []) + [SetSource(StripeSource)];
    if b.customer != "" {
      assert rest[0] == SetIds(b.customer, b.subscription);
    }
  }

  ghost predicate CheckedOut(s: State, out: Outcome, e: StripeEvent, i: nat, plan: string)
    requires e.body.CheckoutCompleted? && i < |s.users| == |out.state.users|
  {
    var u, u', b := s.users[i], out.state.users[i], e.body;
    var held := b.customer != "" && exists j :: 0 <= j < |s.users| && j != i && s.users[j].customerId == Some(b.customer);
    && MovedTo(u, u', plan)
    && out.error == (if held then Some(ConstraintViolated) else None)
    && out.state.processed == (if held then s.processed else s.processed + {e.id})
    && (held ==> Billed(u', u.customerId, u.subscriptionId, u.source))
    && (!held && b.customer != "" ==> Billed(u', Some(b.customer), Stored(b.subscription), StripeSource))
    && (!held && b.customer == "" ==> Billed(u', u.customerId, u.subscriptionId, StripeSource))
  }

  /** Any other event changes nobody; a failed payment is recorded, an unreadable event is an
      error, and an unknown type leaves no trace. A recorded event is never handled again. */
  lemma OtherEffects(cfg: Config, s: State, e: StripeEvent)
    ensures var out := Handled(cfg, s, e);
            && (e.id in s.processed || e.body.OtherType? ==> out == Outcome(s, None))
            && (e.id !in s.processed && e.body.PaymentFailed? ==>
                  out == Outcome(State(s.users, s.processed + {e.id}), None))
            && (e.id !in s.processed && e.body.Malformed? ==> out == Outcome(s, Some(ParseFailed)))
  {
  }

  /** The user that an event is about, if any. */
  predicate Concerns(users: seq<User>, body: Body, i: nat)
    requires i < |users|
  {
    match body
    case CheckoutCompleted(reference, metadataUser, _, _, _, _) =>
      users[i].id == if reference != "" then reference else metadataUser
    case SubscriptionUpdated(customer, grants, _, _, _) =>
      grants && Owner(users, i, customer) && users[i].source == StripeSource
    case SubscriptionDeleted(customer) => Owner(users, i, customer) && users[i].source == StripeSource
    case _ => false
  }

  /** However an event is handled, only the user it is about changes, and only if it was not
      recorded before. */
  lemma OnlyTheNamedUserChanges(cfg: Config, s: State, e: StripeEvent, i: nat)
    requires i < |s.users|
    ensures |Handled(cfg, s, e).state.users| == |s.users|
    ensures Handled(cfg, s, e).state.users[i] != s.users[i] ==> e.id !in s.processed && Concerns(s.users, e.body, i)
  {
    OtherEffects(cfg, s, e);
    FoundIsConcerned(cfg, s.users, e.body);
    if Changes(cfg, s, e) {
      HandlingEnds(cfg, s, e);
    } else if e.id !in s.processed && !e.body.OtherType? {
      HandledUnchanged(cfg, s, e);
    }
    hide Handled, Decide, Concerns, Moved, WrittenAll, Clashes;
  }

  lemma FoundIsConcerned(cfg: Config, users: seq<User>, body: Body)
    ensures Decide(cfg, users, body).Act? ==> Concerns(users, body, Decide(cfg, users, body).i)
  {
    hide PlanOf, IsValidPlan;
  }

  // ---------- store calls that fail ----------

  /** A delivery whose k-th store call fails ends there, with nothing recorded. At the reads, and
      at the next call unless the event is refused first, no user has changed. Later, the plan
      change is through and exactly k - 2 of the writes after it are, unless the first of them
      meets a held customer id before. A call that the delivery never makes cannot stop it. */
  lemma StopsAtFailedCall(cfg: Config, s: State, e: StripeEvent, f: Faults, k: nat)
    requires f.stopAt == Some(k)
    ensures var out, plain := HandledWith(cfg, s, e, f), Handled(cfg, s, e);
            && (k == 0 ==> out == Outcome(s, Some(StoreFailed)))
            && (k > 0 && (e.id in s.processed || e.body.OtherType?) ==> out == plain)
            && (k > 0 && plain.error.Some? && plain.error != Some(ConstraintViolated) ==> out == plain)
            && (k == 1 && e.id !in s.processed && !e.body.OtherType? && plain.error in {None, Some(ConstraintViolated)} ==>
                  out == Outcome(s, Some(StoreFailed)))
            && (k > 1 && !Changes(cfg, s, e) ==> out == plain)
    ensures Changes(cfg, s, e) && k > 1 ==>
              var d, out := Decide(cfg, s.users, e.body), HandledWith(cfg, s, e, f);
              var moved := MovedWith(s.users[d.i], d.plan, f);
              if Clashes(s.users, d.i, d.rest) then
                out == Outcome(s.(users := s.users[d.i := moved]), Some(if k == 2 then StoreFailed else ConstraintViolated))
              else if k <= |d.rest| + 2 then
                out == Outcome(s.(users := s.users[d.i := WrittenAll(moved, d.rest[..k - 2])]), Some(StoreFailed))
              else out.error == None && out.state == Recorded(s.(users := s.users[d.i := WrittenAll(moved, d.rest)]), e.id)
  {
    if Changes(cfg, s, e) {
      var d := Decide(cfg, s.users, e.body);
      HandlingEnds(cfg, s, e);
      if k > 1 {
        assert d.rest[..|d.rest|] == d.rest;
        if Clashes(s.users, d.i, d.rest) {
          ClashedEnds(cfg, s, e, f, k);
        } else {
          FaultyEnds(cfg, s, e, f);
        }
      }
      hide Decide, Handled, WrittenAll, MovedWith, Perform, Clashes;
    }
  }

  lemma ClashedEnds(cfg: Config, s: State, e: StripeEvent, f: Faults, k: nat)
    requires Changes(cfg, s, e) && f.stopAt == Some(k) && k > 1
    requires Clashes(s.users, Decide(cfg, s.users, e.body).i, Decide(cfg, s.users, e.body).rest)
    ensures var d := Decide(cfg, s.users, e.body);
            HandledWith(cfg, s, e, f) ==
            Outcome(s.(users := s.users[d.i := MovedWith(s.users[d.i], d.plan, f)]),
                    Some(if k == 2 then StoreFailed else ConstraintViolated))
  {
    var d := Decide(cfg, s.users, e.body);
    var moved := MovedWith(s.users[d.i], d.plan, f);
    assert d.rest[0].SetIds?;
    OthersClash(s.users, d.i, moved, d.rest);
    hide Decide, MovedWith, Written, HeldByAnother;
    var users, ws := s.users[d.i := moved], d.rest[..WritesBeforeStop(f, d.rest)];
    assert ws != [] ==> ws[0] == d.rest[0];
    PerformInOrder(users, d.i, ws);
  }
}
