/** Organizations, their members and invites. Every operation is one transaction: it either
    takes its whole effect or fails and leaves the tables alone. */
module OrgGovernance {
  import opened Common

  /** Ids of rows and users. */
  type Id = int

  datatype Role = Owner | Admin | Member | Viewer

  datatype User = User(email: string, verified: bool)

  datatype Org = Org(slug: string, ownerUserId: Id, seatLimit: int, active: bool)

  /** A row of org_members. */
  datatype Membership = Membership(orgId: Id, userId: Id, role: Role, active: bool)

  datatype Invite = Invite(
    orgId: Id, email: string, role: Role, expiresAt: int, invitedBy: Id,
    acceptedAt: Option<int>, revokedAt: Option<int>)

  /** A webhook is personal while it belongs to no organization. */
  datatype Webhook = Webhook(userId: Id, orgId: Option<Id>, active: bool)

  /** The tables, keyed by row id. Ids of all but users are drawn from a counter, as UUIDs that
      never repeat. */
  datatype Tables = Tables(
    users: map<Id, User>, orgs: map<Id, Org>, members: map<Id, Membership>,
    invites: map<Id, Invite>, webhooks: map<Id, Webhook>, nextId: Id)

  datatype Error =
    | NoRows | AlreadyInOrg | InviteNotValid | OrgNotActive | SeatLimitReached | AlreadyMember
    | EmailMismatch | NotOwner | TargetNotMember | TargetAlreadyOwner | ConstraintViolated

  datatype Outcome = Outcome(tables: Tables, error: Option<Error>)

  function Done(s: Tables): Outcome {
    Outcome(s, None)
  }

  function Failed(s: Tables, error: Error): Outcome {
    Outcome(s, Some(error))
  }

  // ---------- queries ----------

  predicate InAnyOrg(s: Tables, userId: Id) {
    exists m :: m in s.members && s.members[m].userId == userId
  }

  /** WHERE org_id AND user_id. */
  function RowsOf(s: Tables, orgId: Id, userId: Id): set<Id> {
    set m | m in s.members && s.members[m].orgId == orgId && s.members[m].userId == userId
  }

  /** WHERE org_id AND user_id AND role <> 'owner'. */
  function NonOwnerRows(s: Tables, orgId: Id, userId: Id): set<Id> {
    set m | m in RowsOf(s, orgId, userId) && !s.members[m].role.Owner?
  }

  function ActiveMembers(s: Tables, orgId: Id): set<Id> {
    set m | m in s.members && s.members[m].orgId == orgId && s.members[m].active
  }

  predicate SlugTaken(s: Tables, slug: string) {
    exists o :: o in s.orgs && s.orgs[o].slug == slug
  }

  predicate IsOpen(i: Invite) {
    i.acceptedAt == None && i.revokedAt == None
  }

  predicate HasOpenInvite(s: Tables, orgId: Id, email: string) {
    exists i :: i in s.invites && s.invites[i].orgId == orgId && s.invites[i].email == email && IsOpen(s.invites[i])
  }

  predicate EmailTaken(s: Tables, email: string) {
    exists u :: u in s.users && s.users[u].email == email
  }

  /** The user's running webhooks outside any organization. */
  function PersonalActive(webhooks: map<Id, Webhook>, userId: Id): set<Id> {
    set w | w in webhooks && webhooks[w].userId == userId && webhooks[w].orgId == None && webhooks[w].active
  }

  // ---------- statements ----------

  function WithPaused(s: Tables, rows: set<Id>): Tables {
    s.(webhooks := map w | w in s.webhooks ::
         if w in rows then s.webhooks[w].(active := false) else s.webhooks[w])
  }

  /** pausePersonalWebhooksTx: a user who joins an organization trades only through it. */
  function PersonalPaused(s: Tables, userId: Id): Tables {
    WithPaused(s, PersonalActive(s.webhooks, userId))
  }

  function WithRole(members: map<Id, Membership>, rows: set<Id>, role: Role): map<Id, Membership> {
    map m | m in members :: if m in rows then members[m].(role := role) else members[m]
  }

  function WithStatus(members: map<Id, Membership>, rows: set<Id>, active: bool): map<Id, Membership> {
    map m | m in members :: if m in rows then members[m].(active := active) else members[m]
  }

  /** INSERT INTO org_members: the user must exist and belong to no organization yet. */
  function MemberInserted(s: Tables, row: Membership): Outcome {
    if row.userId !in s.users || row.orgId !in s.orgs || InAnyOrg(s, row.userId) then Failed(s, ConstraintViolated)
    else Done(s.(members := s.members[s.nextId := row], nextId := s.nextId + 1))
  }

  /** INSERT INTO organizations. */
  function OrgInserted(s: Tables, org: Org): Outcome {
    if SlugTaken(s, org.slug) || org.ownerUserId !in s.users || !(0 < org.seatLimit <= 1000) then
      Failed(s, ConstraintViolated)
    else Done(s.(orgs := s.orgs[s.nextId := org], nextId := s.nextId + 1))
  }

  function Released(w: Webhook, gone: set<Id>): Webhook {
    if w.orgId.Some? && w.orgId.value in gone then w.(orgId := None) else w
  }

  /** DELETE FROM organizations, with the members and invites that cascade; its webhooks stay
      with their users. */
  function OrgsDeleted(s: Tables, gone: set<Id>): Tables {
    s.(orgs := map o | o in s.orgs && o !in gone :: s.orgs[o],
       members := map m | m in s.members && s.members[m].orgId !in gone :: s.members[m],
       invites := map i | i in s.invites && s.invites[i].orgId !in gone :: s.invites[i],
       webhooks := map w | w in s.webhooks :: Released(s.webhooks[w], gone))
  }

  // ---------- transactions ----------

  function Digits(n: nat): string {
    (if n < 10 then "" else Digits(n / 10)) + [(n % 10) as char + '0']
  }

  function Candidate(slug: string, i: nat): string {
    if i == 0 then slug else slug + "-" + Digits(i)
  }

  /** The first of the hundred candidates that is free, or the slug itself if none is. */
  function FreeSlug(s: Tables, slug: string, i: nat): string
    requires i <= 100
    decreases 100 - i
  {
    if i == 100 then slug
    else if !SlugTaken(s, Candidate(slug, i)) then Candidate(slug, i)
    else FreeSlug(s, slug, i + 1)
  }

  /** Any failure rolls the whole transaction back. */
  function Created(s: Tables, org: Org, userId: Id, role: Role, active: bool): Outcome {
    if InAnyOrg(s, userId) then Failed(s, AlreadyInOrg)
    else
      var inserted := OrgInserted(s, org.(slug := FreeSlug(s, org.slug, 0)));
      if inserted.error.Some? then Failed(s, inserted.error.value)
      else
        var joined := MemberInserted(inserted.tables, Membership(s.nextId, userId, role, active));
        if joined.error.Some? then Failed(s, joined.error.value) else Done(PersonalPaused(joined.tables, userId))
  }

  /** The role check of org_invites admits no owner, and one open invite per address. */
  function Invited(s: Tables, orgId: Id, email: string, role: Role, expiresAt: int, invitedBy: Id): Outcome {
    if orgId !in s.orgs || invitedBy !in s.users || role.Owner? || HasOpenInvite(s, orgId, email) then
      Failed(s, ConstraintViolated)
    else
      Done(s.(invites := s.invites[s.nextId := Invite(orgId, email, role, expiresAt, invitedBy, None, None)],
              nextId := s.nextId + 1))
  }

  function Revoked(s: Tables, orgId: Id, inviteId: Id, now: int): Outcome {
    if inviteId in s.invites && s.invites[inviteId].orgId == orgId && IsOpen(s.invites[inviteId]) then
      Done(s.(invites := s.invites[inviteId := s.invites[inviteId].(revokedAt := Some(now))]))
    else Failed(s, NoRows)
  }

  /** The first check that an acceptance fails. */
  function AcceptError(s: Tables, inviteId: Id, userId: Id, email: string, now: int): Option<Error> {
    if inviteId !in s.invites then Some(NoRows)
    else
      var inv := s.invites[inviteId];
      if !IsOpen(inv) || now > inv.expiresAt then Some(InviteNotValid)
      else if inv.orgId !in s.orgs then Some(NoRows)
      else if !s.orgs[inv.orgId].active then Some(OrgNotActive)
      else if |ActiveMembers(s, inv.orgId)| >= s.orgs[inv.orgId].seatLimit then Some(SeatLimitReached)
      else if InAnyOrg(s, userId) then Some(AlreadyInOrg)
      else if RowsOf(s, inv.orgId, userId) != {} then Some(AlreadyMember)
      else if email != inv.email then Some(EmailMismatch)
      else None
  }

  /** A new user row needs an id and an address nobody else has. */
  function SignedUp(s: Tables, userId: Id, email: string, verified: bool): Outcome {
    if userId in s.users || EmailTaken(s, email) then Failed(s, ConstraintViolated)
    else Done(s.(users := s.users[userId := User(email, verified)]))
  }

  /** The invited user, created if new; either way the invite proves the address. */
  function UserEnsured(s: Tables, userId: Id, email: string): Outcome {
    if userId in s.users then Done(s.(users := s.users[userId := s.users[userId].(verified := true)]))
    else SignedUp(s, userId, email, true)
  }

  function Accepted(s: Tables, inviteId: Id, userId: Id, email: string, active: bool, now: int): Outcome {
    var invalid := AcceptError(s, inviteId, userId, email, now);
    if invalid.Some? then Failed(s, invalid.value)
    else
      var ensured := UserEnsured(s, userId, email);
      if ensured.error.Some? then Failed(s, ensured.error.value)
      else
        var inv := s.invites[inviteId];
        var joined := MemberInserted(ensured.tables, Membership(inv.orgId, userId, inv.role, active));
        if joined.error.Some? then Failed(s, joined.error.value)
        else
          Done(PersonalPaused(joined.tables.(invites := s.invites[inviteId := inv.(acceptedAt := Some(now))]), userId))
  }

  function RoleUpdated(s: Tables, orgId: Id, userId: Id, role: Role): Outcome {
    var rows := NonOwnerRows(s, orgId, userId);
    if rows == {} then Failed(s, NoRows) else Done(s.(members := WithRole(s.members, rows, role)))
  }

  function StatusUpdated(s: Tables, orgId: Id, userId: Id, active: bool): Outcome {
    var rows := NonOwnerRows(s, orgId, userId);
    if rows == {} then Failed(s, NoRows) else Done(s.(members := WithStatus(s.members, rows, active)))
  }

  /** RemoveOrgMember and LeaveOrg run the same statement. */
  function Removed(s: Tables, orgId: Id, userId: Id): Outcome {
    var rows := NonOwnerRows(s, orgId, userId);
    if rows == {} then Failed(s, NoRows) else Done(s.(members := s.members - rows))
  }

  function TransferError(s: Tables, orgId: Id, from: Id, to: Id): Option<Error> {
    if orgId !in s.orgs || !s.orgs[orgId].active then Some(NoRows)
    else if s.orgs[orgId].ownerUserId != from then Some(NotOwner)
    else
      var target := RowsOf(s, orgId, to) * ActiveMembers(s, orgId);
      if target == {} then Some(TargetNotMember)
      else if exists m :: m in target && s.members[m].role.Owner? then Some(TargetAlreadyOwner)
      else None
  }

  function Transferred(s: Tables, orgId: Id, from: Id, to: Id): Outcome {
    var invalid := TransferError(s, orgId, from, to);
    if invalid.Some? then Failed(s, invalid.value)
    else
      var demoted := WithRole(s.members, RowsOf(s, orgId, from), Admin);
      Done(s.(orgs := s.orgs[orgId := s.orgs[orgId].(ownerUserId := to)],
              members := WithRole(demoted, RowsOf(s, orgId, to), Owner)))
  }

  function OrgDeleted(s: Tables, orgId: Id): Outcome {
    if orgId in s.orgs then Done(OrgsDeleted(s, {orgId})) else Failed(s, NoRows)
  }

  function OwnedBy(s: Tables, userId: Id): set<Id> {
    set o | o in s.orgs && s.orgs[o].ownerUserId == userId
  }

  /** The invites that stay after the user's own organizations are gone still reference the
      user who sent them, and that reference does not cascade. */
  predicate HoldsInvites(s: Tables, userId: Id) {
    exists i :: i in s.invites && s.invites[i].invitedBy == userId && s.invites[i].orgId !in OwnedBy(s, userId)
  }

  /** Other tables reference users without cascading; referenced says whether one of their
      rows names this user. */
  function UserDeleted(s: Tables, userId: Id, referenced: bool): Outcome {
    if userId !in s.users then Failed(s, NoRows)
    else if HoldsInvites(s, userId) || referenced then Failed(s, ConstraintViolated)
    else
      var left := OrgsDeleted(s, OwnedBy(s, userId));
      Done(left.(users := left.users - {userId},
                 members := map m | m in left.members && left.members[m].userId != userId :: left.members[m],
                 webhooks := map w | w in left.webhooks && left.webhooks[w].userId != userId :: left.webhooks[w]))
  }

  function WebhookAdded(s: Tables, w: Webhook): Outcome {
    if w.userId !in s.users || (w.orgId.Some? && w.orgId.value !in s.orgs) then Failed(s, ConstraintViolated)
    else Done(s.(webhooks := s.webhooks[s.nextId := w], nextId := s.nextId + 1))
  }

  // ---------- runs ----------

  datatype Event =
    | SignUp(userId: Id, email: string)
    | Create(org: Org, userId: Id, role: Role, active: bool)
    | SendInvite(orgId: Id, email: string, role: Role, expiresAt: int, invitedBy: Id)
    | Revoke(orgId: Id, inviteId: Id, now: int)
    | AcceptInvite(inviteId: Id, userId: Id, email: string, active: bool, now: int)
    | UpdateRole(orgId: Id, userId: Id, role: Role)
    | UpdateStatus(orgId: Id, userId: Id, active: bool)
    | Remove(orgId: Id, userId: Id)
    | Transfer(orgId: Id, from: Id, to: Id)
    | SetOrgStatus(orgId: Id, active: bool)
    | SetSeatLimit(orgId: Id, seatLimit: int)
    | DeleteOrg(orgId: Id)
    | DeleteUser(userId: Id, referenced: bool)
    | AddWebhook(webhook: Webhook)

  function Apply(s: Tables, e: Event): Outcome {
    match e
    case SignUp(userId, email) => SignedUp(s, userId, email, false)
    case Create(org, userId, role, active) => Created(s, org, userId, role, active)
    case SendInvite(orgId, email, role, expiresAt, invitedBy) => Invited(s, orgId, email, role, expiresAt, invitedBy)
    case Revoke(orgId, inviteId, now) => Revoked(s, orgId, inviteId, now)
    case AcceptInvite(inviteId, userId, email, active, now) => Accepted(s, inviteId, userId, email, active, now)
    case UpdateRole(orgId, userId, role) => RoleUpdated(s, orgId, userId, role)
    case UpdateStatus(orgId, userId, active) => StatusUpdated(s, orgId, userId, active)
    case Remove(orgId, userId) => Removed(s, orgId, userId)
    case Transfer(orgId, from, to) => Transferred(s, orgId, from, to)
    case SetOrgStatus(orgId, active) =>
      if orgId in s.orgs then Done(s.(orgs := s.orgs[orgId := s.orgs[orgId].(active := active)])) else Failed(s, NoRows)
    case SetSeatLimit(orgId, seatLimit) =>
      if orgId !in s.orgs then Failed(s, NoRows)
      else if !(0 < seatLimit <= 1000) then Failed(s, ConstraintViolated)
      else Done(s.(orgs := s.orgs[orgId := s.orgs[orgId].(seatLimit := seatLimit)]))
    case DeleteOrg(orgId) => OrgDeleted(s, orgId)
    case DeleteUser(userId, referenced) => UserDeleted(s, userId, referenced)
    case AddWebhook(webhook) => WebhookAdded(s, webhook)
  }

  function Run(s: Tables, events: seq<Event>): Tables {
    if events == [] then s else Apply(Run(s, Init(events)), Last(events)).tables
  }

  const EMPTY := Tables(map[], map[], map[], map[], map[], 0)

  /** What callers pass: a new organization is owned by the user who joins it as its active
      owner, and role updates never hand out ownership. */
  predicate Proper(e: Event) {
    match e
    case Create(org, userId, role, active) => org.ownerUserId == userId && role == Owner && active
    case UpdateRole(_, _, role) => role != Owner
    case _ => true
  }

  // ---------- the invariant ----------

  predicate IsOwnerRow(s: Tables, o: Id, m: Id) {
    m in s.members && s.members[m].orgId == o && s.members[m].role.Owner?
  }

  /** Exactly one owner row, active, and it is the user that the organization names. */
  ghost predicate OneOwner(s: Tables, o: Id)
    requires o in s.orgs
  {
    && (exists m :: IsOwnerRow(s, o, m))
    && (forall m :: IsOwnerRow(s, o, m) ==> s.members[m].active && s.members[m].userId == s.orgs[o].ownerUserId)
    && (forall m, n :: IsOwnerRow(s, o, m) && IsOwnerRow(s, o, n) ==> m == n)
  }

  ghost predicate References(s: Tables) {
    && (forall m :: m in s.members ==> m < s.nextId && s.members[m].orgId in s.orgs && s.members[m].userId in s.users)
    && (forall o :: o in s.orgs ==> o < s.nextId && s.orgs[o].ownerUserId in s.users)
    && (forall i :: i in s.invites ==> i < s.nextId && s.invites[i].orgId in s.orgs && s.invites[i].invitedBy in s.users)
    && WebhooksOwned(s)
  }

  ghost predicate WebhooksOwned(s: Tables) {
    forall w :: w in s.webhooks ==>
      && w < s.nextId && s.webhooks[w].userId in s.users
      && (s.webhooks[w].orgId.Some? ==> s.webhooks[w].orgId.value in s.orgs)
  }

  ghost predicate OneOrgEach(s: Tables) {
    forall m, n :: m in s.members && n in s.members && s.members[m].userId == s.members[n].userId ==> m == n
  }

  ghost predicate InvitesUsedOnce(s: Tables) {
    forall i :: i in s.invites ==>
      !s.invites[i].role.Owner? && (s.invites[i].acceptedAt == None || s.invites[i].revokedAt == None)
  }

  ghost predicate DistinctSlugs(s: Tables) {
    forall o, p :: o in s.orgs && p in s.orgs && s.orgs[o].slug == s.orgs[p].slug ==> o == p
  }

  ghost predicate Sound(s: Tables) {
    References(s) && OneOrgEach(s) && InvitesUsedOnce(s) && DistinctSlugs(s)
  }

  ghost predicate AllOwned(s: Tables) {
    forall o :: o in s.orgs ==> OneOwner(s, o)
  }

  ghost predicate Inv(s: Tables) {
    Sound(s) && AllOwned(s)
  }

  // ---------- every transaction keeps it ----------

  lemma {:induction false} FreeSlugIsFree(s: Tables, slug: string, i: nat)
    requires i <= 100
    ensures !SlugTaken(s, FreeSlug(s, slug, i)) || (FreeSlug(s, slug, i) == slug && forall j :: i <= j < 100 ==> SlugTaken(s, Candidate(slug, j)))
    decreases 100 - i
  {
    hide Candidate, SlugTaken;
    if i < 100 && SlugTaken(s, Candidate(slug, i)) {
      FreeSlugIsFree(s, slug, i + 1);
    }
  }

  lemma MemberInsertionWrites(s: Tables, row: Membership)
    requires MemberInserted(s, row).error == None
    ensures row.userId in s.users && row.orgId in s.orgs
    ensures MemberInserted(s, row).tables == s.(members := s.members[s.nextId := row], nextId := s.nextId + 1)
  {
    hide InAnyOrg;
  }

  lemma OrgInsertionWrites(s: Tables, org: Org)
    requires OrgInserted(s, org).error == None
    ensures !SlugTaken(s, org.slug) && org.ownerUserId in s.users
    ensures OrgInserted(s, org).tables == s.(orgs := s.orgs[s.nextId := org], nextId := s.nextId + 1)
  {
    hide SlugTaken;
  }

  /** What a successful creation writes. */
  lemma CreationWrites(s: Tables, org: Org, userId: Id, role: Role, active: bool)
    requires Created(s, org, userId, role, active).error == None
    ensures var slug := FreeSlug(s, org.slug, 0);
            && !InAnyOrg(s, userId) && !SlugTaken(s, slug) && userId in s.users && org.ownerUserId in s.users
            && Created(s, org, userId, role, active).tables ==
               PersonalPaused(
                 s.(orgs := s.orgs[s.nextId := org.(slug := slug)],
                    members := s.members[s.nextId + 1 := Membership(s.nextId, userId, role, active)],
                    nextId := s.nextId + 2), userId)
  {
    hide PersonalPaused, FreeSlug, SlugTaken, InAnyOrg, OrgInserted, MemberInserted;
    var org' := org.(slug := FreeSlug(s, org.slug, 0));
    OrgInsertionWrites(s, org');
    MemberInsertionWrites(OrgInserted(s, org').tables, Membership(s.nextId, userId, role, active));
  }

  lemma OwnerCarries(s: Tables, s': Tables, o: Id)
    requires o in s.orgs && o in s'.orgs && s'.orgs[o].ownerUserId == s.orgs[o].ownerUserId && OneOwner(s, o)
    requires forall m :: IsOwnerRow(s', o, m) <==> IsOwnerRow(s, o, m)
    requires forall m :: IsOwnerRow(s, o, m) && m in s'.members ==> s'.members[m] == s.members[m]
    ensures OneOwner(s', o)
  {
  }

  /** What keeps every organization owned: its owner row and its owner's name stay. */
  lemma OwnersCarry(s: Tables, s': Tables)
    requires AllOwned(s) && s'.orgs.Keys <= s.orgs.Keys
    requires forall o :: o in s'.orgs ==> s'.orgs[o].ownerUserId == s.orgs[o].ownerUserId
    requires forall m :: m in s'.members && s'.members[m].role.Owner? ==> m in s.members && s'.members[m] == s.members[m]
    requires forall m :: m in s.members && s.members[m].role.Owner? && s.members[m].orgId in s'.orgs ==>
               m in s'.members && s'.members[m] == s.members[m]
    ensures AllOwned(s')
  {
    forall o | o in s'.orgs ensures OneOwner(s', o) {
      assert OneOwner(s, o);
      hide OneOwner;
      OwnerCarries(s, s', o);
    }
  }

  lemma CreateKeepsSound(s: Tables, s': Tables, org: Org, row: Membership)
    requires Sound(s) && !InAnyOrg(s, row.userId) && row.userId in s.users && org.ownerUserId in s.users
    requires !SlugTaken(s, org.slug) && row.orgId == s.nextId
    requires s' == s.(orgs := s.orgs[s.nextId := org], members := s.members[s.nextId + 1 := row], nextId := s.nextId + 2)
    ensures Sound(s')
  {
    assert References(s') by { hide OneOrgEach, InvitesUsedOnce, DistinctSlugs; }
    assert OneOrgEach(s') by { hide InvitesUsedOnce, DistinctSlugs; }
    assert DistinctSlugs(s') by { hide InvitesUsedOnce, OneOrgEach; }
  }

  /** A new organization leaves the owners of the others alone, and is owned itself exactly
      when its owner is the user who joins it, as an active owner. */
  lemma CreateOwnersIff(s: Tables, s': Tables, org: Org, row: Membership)
    requires References(s) && AllOwned(s) && row.orgId == s.nextId
    requires s' == s.(orgs := s.orgs[s.nextId := org], members := s.members[s.nextId + 1 := row], nextId := s.nextId + 2)
    ensures AllOwned(s') <==> org.ownerUserId == row.userId && row.role == Owner && row.active
  {
    var o, m := s.nextId, s.nextId + 1;
    forall p, n | p in s.orgs ensures IsOwnerRow(s', p, n) <==> IsOwnerRow(s, p, n) {
    }
    forall p | p in s.orgs ensures OneOwner(s', p) {
      OwnerCarries(s, s', p);
    }
    forall n ensures IsOwnerRow(s', o, n) <==> n == m && row.role == Owner {
    }
    NewOwnerIff(s', o, m);
    hide OneOwner;
  }

  lemma NewOwnerIff(s: Tables, o: Id, m: Id)
    requires o in s.orgs && m in s.members
    requires forall n :: IsOwnerRow(s, o, n) <==> n == m && s.members[m].role == Owner
    ensures OneOwner(s, o) <==>
            s.orgs[o].ownerUserId == s.members[m].userId && s.members[m].role == Owner && s.members[m].active
  {
    if s.members[m].role == Owner {
      assert IsOwnerRow(s, o, m);
    }
  }

  /** A new organization keeps the invariant exactly when its owner is the user who joins it,
      as an active owner. */
  lemma CreateKeepsInvIff(s: Tables, org: Org, userId: Id, role: Role, active: bool)
    requires Inv(s) && Created(s, org, userId, role, active).error == None
    ensures Inv(Created(s, org, userId, role, active).tables) <==>
            org.ownerUserId == userId && role == Owner && active
  {
    hide FreeSlug, Created, AllOwned, References, OneOrgEach, InvitesUsedOnce, DistinctSlugs, PersonalPaused;
    CreationWrites(s, org, userId, role, active);
    var org', row := org.(slug := FreeSlug(s, org.slug, 0)), Membership(s.nextId, userId, role, active);
    var s' := s.(orgs := s.orgs[s.nextId := org'], members := s.members[s.nextId + 1 := row], nextId := s.nextId + 2);
    CreateKeepsSound(s, s', org', row);
    CreateOwnersIff(s, s', org', row);
    PausingKeepsInvIff(s', userId);
  }

  /** Pausing webhooks touches nothing that the invariant speaks of. */
  lemma PausingKeepsInvIff(s: Tables, userId: Id)
    ensures Inv(PersonalPaused(s, userId)) <==> Inv(s)
  {
    var s' := PersonalPaused(s, userId);
    SameWebhookOwners(s, PersonalActive(s.webhooks, userId));
    hide WebhooksOwned;
    if AllOwned(s) {
      SameOwners(s, s');
    }
    if AllOwned(s') {
      SameOwners(s', s);
    }
    hide AllOwned;
  }

  lemma SameWebhookOwners(s: Tables, rows: set<Id>)
    ensures WebhooksOwned(WithPaused(s, rows)) <==> WebhooksOwned(s)
  {
    var s' := WithPaused(s, rows);
    assert s'.webhooks.Keys == s.webhooks.Keys;
    assert forall w :: w in s.webhooks ==>
      s'.webhooks[w].userId == s.webhooks[w].userId && s'.webhooks[w].orgId == s.webhooks[w].orgId;
  }

  lemma SameOwners(s: Tables, s': Tables)
    requires s'.orgs == s.orgs && s'.members == s.members && AllOwned(s)
    ensures AllOwned(s')
  {
    hide OneOwner;
    OwnersCarry(s, s');
  }

  lemma InviteKeepsInv(s: Tables, orgId: Id, email: string, role: Role, expiresAt: int, invitedBy: Id)
    requires Inv(s)
    ensures Inv(Invited(s, orgId, email, role, expiresAt, invitedBy).tables)
  {
    hide AllOwned;
    OwnersCarry(s, Invited(s, orgId, email, role, expiresAt, invitedBy).tables);
  }

  lemma RevokeKeepsInv(s: Tables, orgId: Id, inviteId: Id, now: int)
    requires Inv(s)
    ensures Inv(Revoked(s, orgId, inviteId, now).tables)
  {
    hide AllOwned;
    OwnersCarry(s, Revoked(s, orgId, inviteId, now).tables);
  }

  lemma AcceptanceWrites(s: Tables, inviteId: Id, userId: Id, email: string, active: bool, now: int)
    requires Accepted(s, inviteId, userId, email, active, now).error == None
    ensures inviteId in s.invites && IsOpen(s.invites[inviteId]) && !InAnyOrg(s, userId)
    ensures var inv := s.invites[inviteId];
            && inv.orgId in s.orgs && s.orgs[inv.orgId].active
            && |ActiveMembers(s, inv.orgId)| < s.orgs[inv.orgId].seatLimit
            && now <= inv.expiresAt && email == inv.email
            && Accepted(s, inviteId, userId, email, active, now).tables ==
               PersonalPaused(
                 s.(users := UserEnsured(s, userId, email).tables.users,
                    members := s.members[s.nextId := Membership(inv.orgId, userId, inv.role, active)],
                    invites := s.invites[inviteId := inv.(acceptedAt := Some(now))],
                    nextId := s.nextId + 1), userId)
    ensures var users' := UserEnsured(s, userId, email).tables.users;
            && s.users.Keys + {userId} == users'.Keys && users'[userId].verified
  {
    hide PersonalPaused, InAnyOrg, ActiveMembers, RowsOf, EmailTaken;
  }

  lemma AcceptKeepsInv(s: Tables, inviteId: Id, userId: Id, email: string, active: bool, now: int)
    requires Inv(s) && Accepted(s, inviteId, userId, email, active, now).error == None
    ensures Inv(Accepted(s, inviteId, userId, email, active, now).tables)
  {
    hide Accepted, ActiveMembers, AllOwned, Sound, InAnyOrg, PersonalPaused, UserEnsured;
    AcceptanceWrites(s, inviteId, userId, email, active, now);
    var inv := s.invites[inviteId];
    var row := Membership(inv.orgId, userId, inv.role, active);
    var s' := s.(users := UserEnsured(s, userId, email).tables.users, members := s.members[s.nextId := row],
                 invites := s.invites[inviteId := inv.(acceptedAt := Some(now))], nextId := s.nextId + 1);
    AcceptKeepsSound(s, s', inviteId, row, now);
    hide References, OneOrgEach, InvitesUsedOnce, DistinctSlugs;
    OwnersCarry(s, s');
    PausingKeepsInvIff(s', userId);
  }

  lemma AcceptKeepsSound(s: Tables, s': Tables, inviteId: Id, row: Membership, now: int)
    requires Sound(s) && inviteId in s.invites && IsOpen(s.invites[inviteId]) && !InAnyOrg(s, row.userId)
    requires row.orgId in s.orgs && row.userId in s'.users && s.users.Keys <= s'.users.Keys
    requires row.role == s.invites[inviteId].role
    requires s' == s.(users := s'.users, members := s.members[s.nextId := row],
                      invites := s.invites[inviteId := s.invites[inviteId].(acceptedAt := Some(now))],
                      nextId := s.nextId + 1)
    ensures Sound(s') && s.nextId !in s.members && !row.role.Owner?
  {
    assert References(s') by { hide OneOrgEach, InvitesUsedOnce, DistinctSlugs; }
    assert OneOrgEach(s') by { hide InvitesUsedOnce, DistinctSlugs; }
    assert InvitesUsedOnce(s') by { hide OneOrgEach, DistinctSlugs; }
  }

  /** Updating rows that are not owners', without making them owners, keeps every owner. */
  lemma MemberUpdateKeepsInv(s: Tables, s': Tables)
    requires Inv(s) && s' == s.(members := s'.members)
    requires forall m :: m in s'.members ==>
               && m in s.members && s'.members[m].orgId == s.members[m].orgId && s'.members[m].userId == s.members[m].userId
               && (s.members[m].role.Owner? ==> s'.members[m] == s.members[m])
               && (s'.members[m].role.Owner? ==> s.members[m].role.Owner?)
    requires forall m :: m in s.members && s.members[m].role.Owner? ==> m in s'.members
    ensures Inv(s')
  {
    hide AllOwned;
    OwnersCarry(s, s');
  }

  lemma SomeElement(ids: set<Id>) returns (id: Id)
    requires ids != {}
    ensures id in ids
  {
    assert (forall x :: x !in ids) ==> ids == {};
    id :| id in ids;
  }

  /** A role update that finds a row keeps the invariant exactly when the new role is not
      owner: nothing in the statement itself prevents a second owner. */
  lemma RoleUpdateKeepsInvIff(s: Tables, orgId: Id, userId: Id, role: Role)
    requires Inv(s) && RoleUpdated(s, orgId, userId, role).error == None
    ensures Inv(RoleUpdated(s, orgId, userId, role).tables) <==> role != Owner
  {
    var s' := RoleUpdated(s, orgId, userId, role).tables;
    if role != Owner {
      MemberUpdateKeepsInv(s, s');
    } else {
      var rows := NonOwnerRows(s, orgId, userId);
      var m := SomeElement(rows);
      assert OneOwner(s, orgId);
      var n :| IsOwnerRow(s, orgId, n);
      assert IsOwnerRow(s', orgId, m) && IsOwnerRow(s', orgId, n);
      assert m != n;
      assert !OneOwner(s', orgId);
    }
  }

  lemma StatusUpdateKeepsInv(s: Tables, orgId: Id, userId: Id, active: bool)
    requires Inv(s)
    ensures Inv(StatusUpdated(s, orgId, userId, active).tables)
  {
    hide Inv;
    MemberUpdateKeepsInv(s, StatusUpdated(s, orgId, userId, active).tables);
  }

  lemma RemoveKeepsInv(s: Tables, orgId: Id, userId: Id)
    requires Inv(s)
    ensures Inv(Removed(s, orgId, userId).tables)
  {
    hide Inv;
    MemberUpdateKeepsInv(s, Removed(s, orgId, userId).tables);
  }

  /** In a sound state a transfer that goes through has one owner row to demote and one
      active row to promote. */
  lemma TransferFinds(s: Tables, orgId: Id, from: Id, to: Id) returns (m: Id, n: Id)
    requires Inv(s) && Transferred(s, orgId, from, to).error == None
    ensures orgId in s.orgs && s.orgs[orgId].active && s.orgs[orgId].ownerUserId == from && from != to
    ensures RowsOf(s, orgId, from) == {m} && IsOwnerRow(s, orgId, m)
    ensures RowsOf(s, orgId, to) == {n} && m != n && s.members[n].active && !s.members[n].role.Owner?
    ensures Transferred(s, orgId, from, to).tables ==
            s.(orgs := s.orgs[orgId := s.orgs[orgId].(ownerUserId := to)],
               members := s.members[m := s.members[m].(role := Admin)][n := s.members[n].(role := Owner)])
  {
    assert OneOwner(s, orgId);
    m :| IsOwnerRow(s, orgId, m);
    var target := RowsOf(s, orgId, to) * ActiveMembers(s, orgId);
    n := SomeElement(target);
    OnlyRow(s, orgId, from, m);
    OnlyRow(s, orgId, to, n);
    assert from != to;
    TransferMoves(s, orgId, from, to, m, n);
  }

  lemma OnlyRow(s: Tables, orgId: Id, userId: Id, m: Id)
    requires OneOrgEach(s) && m in RowsOf(s, orgId, userId)
    ensures RowsOf(s, orgId, userId) == {m}
  {
    forall n | n in RowsOf(s, orgId, userId) ensures n == m {
    }
  }

  lemma TransferMoves(s: Tables, orgId: Id, from: Id, to: Id, m: Id, n: Id)
    requires Transferred(s, orgId, from, to).error == None && m != n && m in s.members && n in s.members
    requires RowsOf(s, orgId, from) == {m} && RowsOf(s, orgId, to) == {n}
    ensures Transferred(s, orgId, from, to).tables ==
            s.(orgs := s.orgs[orgId := s.orgs[orgId].(ownerUserId := to)],
               members := s.members[m := s.members[m].(role := Admin)][n := s.members[n].(role := Owner)])
  {
    hide RowsOf, TransferError;
    var members' := s.members[m := s.members[m].(role := Admin)][n := s.members[n].(role := Owner)];
    assert Transferred(s, orgId, from, to).tables.members == members';
  }

  lemma TransferKeepsInv(s: Tables, orgId: Id, from: Id, to: Id)
    requires Inv(s) && Transferred(s, orgId, from, to).error == None
    ensures Inv(Transferred(s, orgId, from, to).tables)
  {
    hide Transferred;
    var m, n := TransferFinds(s, orgId, from, to);
    assert m in RowsOf(s, orgId, from) && n in RowsOf(s, orgId, to);
    var s' := Transferred(s, orgId, from, to).tables;
    TransferKeepsSound(s, s', orgId, to, m, n);
    forall o | o in s'.orgs ensures OneOwner(s', o) {
      assert OneOwner(s, o);
      if o == orgId {
        assert forall r :: IsOwnerRow(s', o, r) <==> r == n;
        NewOwnerIff(s', o, n);
      } else {
        assert forall r :: IsOwnerRow(s', o, r) <==> IsOwnerRow(s, o, r);
        hide OneOwner;
        OwnerCarries(s, s', o);
      }
    }
    hide OneOwner, IsOwnerRow, RowsOf, Sound;
  }

  lemma TransferKeepsSound(s: Tables, s': Tables, orgId: Id, to: Id, m: Id, n: Id)
    requires Sound(s) && orgId in s.orgs && to in s.users && m in s.members && n in s.members && m != n
    requires s' == s.(orgs := s.orgs[orgId := s.orgs[orgId].(ownerUserId := to)],
                      members := s.members[m := s.members[m].(role := Admin)][n := s.members[n].(role := Owner)])
    ensures Sound(s')
  {
  }

  lemma OrgsDeletedKeepsInv(s: Tables, gone: set<Id>)
    requires Inv(s)
    ensures Inv(OrgsDeleted(s, gone))
  {
    hide AllOwned;
    OwnersCarry(s, OrgsDeleted(s, gone));
  }

  /** Deleting a user takes every organization the user owns along, and leaves no membership,
      organization or invite that names the user. */
  lemma UserDeletedKeepsInv(s: Tables, userId: Id, referenced: bool)
    requires Inv(s) && UserDeleted(s, userId, referenced).error == None
    ensures var s' := UserDeleted(s, userId, referenced).tables;
            && Inv(s') && userId !in s'.users && !InAnyOrg(s', userId) && OwnedBy(s', userId) == {}
            && (forall i :: i in s'.invites ==> s'.invites[i].invitedBy != userId)
            && s'.orgs.Keys == s.orgs.Keys - OwnedBy(s, userId)
  {
    var left, s' := OrgsDeleted(s, OwnedBy(s, userId)), UserDeleted(s, userId, referenced).tables;
    OrgsDeletedKeepsInv(s, OwnedBy(s, userId));
    OwnersAreNamed(left);
    NoInvitesHeld(s, userId);
    hide AllOwned, HoldsInvites, Sound;
    UserDeletedKeepsSound(left, s', userId);
    hide References, OneOrgEach, InvitesUsedOnce, DistinctSlugs;
    OwnersCarry(left, s');
  }

  lemma UserDeletedKeepsSound(s: Tables, s': Tables, userId: Id)
    requires Sound(s) && OwnedBy(s, userId) == {}
    requires forall i :: i in s.invites ==> s.invites[i].invitedBy != userId
    requires s' == s.(users := s.users - {userId},
                      members := map m | m in s.members && s.members[m].userId != userId :: s.members[m],
                      webhooks := map w | w in s.webhooks && s.webhooks[w].userId != userId :: s.webhooks[w])
    ensures Sound(s')
  {
    forall o | o in s.orgs ensures s.orgs[o].ownerUserId != userId {
      assert o !in OwnedBy(s, userId);
    }
    assert References(s') by { hide OneOrgEach, InvitesUsedOnce, DistinctSlugs; }
    hide References;
  }

  lemma NoInvitesHeld(s: Tables, userId: Id)
    requires !HoldsInvites(s, userId)
    ensures forall i :: i in s.invites && s.invites[i].orgId !in OwnedBy(s, userId) ==> s.invites[i].invitedBy != userId
  {
  }

  lemma OwnersAreNamed(s: Tables)
    requires Inv(s)
    ensures forall m :: m in s.members && s.members[m].role.Owner? ==>
              s.members[m].orgId in s.orgs && s.members[m].userId == s.orgs[s.members[m].orgId].ownerUserId
  {
    forall m | m in s.members && s.members[m].role.Owner?
      ensures s.members[m].orgId in s.orgs && s.members[m].userId == s.orgs[s.members[m].orgId].ownerUserId
    {
      assert OneOwner(s, s.members[m].orgId);
      assert IsOwnerRow(s, s.members[m].orgId, m);
    }
  }

  lemma StepKeepsInv(s: Tables, e: Event)
    requires Inv(s) && Proper(e)
    ensures Inv(Apply(s, e).tables)
  {
    if Apply(s, e).error.Some? {
      FailureChangesNothing(s, e);
    } else {
      hide Inv, Created, Accepted, RoleUpdated, StatusUpdated, Removed, Transferred, UserDeleted, OrgsDeleted, Invited, Revoked,
        WebhookAdded;
      match e
      case Create(org, userId, role, active) => CreateKeepsInvIff(s, org, userId, role, active);
      case SendInvite(orgId, email, role, expiresAt, invitedBy) => InviteKeepsInv(s, orgId, email, role, expiresAt, invitedBy);
      case Revoke(orgId, inviteId, now) => RevokeKeepsInv(s, orgId, inviteId, now);
      case AcceptInvite(inviteId, userId, email, active, now) => AcceptKeepsInv(s, inviteId, userId, email, active, now);
      case UpdateRole(orgId, userId, role) => RoleUpdateKeepsInvIff(s, orgId, userId, role);
      case UpdateStatus(orgId, userId, active) => StatusUpdateKeepsInv(s, orgId, userId, active);
      case Remove(orgId, userId) => RemoveKeepsInv(s, orgId, userId);
      case Transfer(orgId, from, to) => TransferKeepsInv(s, orgId, from, to);
      case DeleteOrg(orgId) => OrgsDeletedKeepsInv(s, {orgId});
      case DeleteUser(userId, referenced) => UserDeletedKeepsInv(s, userId, referenced);
      case AddWebhook(webhook) => AddedWebhookKeepsInv(s, webhook);
      case _ => SettingsKeepInv(s, e);
    }
  }

  lemma SettingsKeepInv(s: Tables, e: Event)
    requires Inv(s) && (e.SignUp? || e.SetOrgStatus? || e.SetSeatLimit?)
    ensures Inv(Apply(s, e).tables)
  {
    hide AllOwned, Sound, EmailTaken, Created, Accepted, RoleUpdated, StatusUpdated, Removed, Transferred, UserDeleted,
      OrgsDeleted, Invited, Revoked, WebhookAdded;
    var s' := Apply(s, e).tables;
    SettingsKeepSound(s, s');
    OwnersCarry(s, s');
  }

  lemma SettingsKeepSound(s: Tables, s': Tables)
    requires Sound(s) && s' == s.(users := s'.users, orgs := s'.orgs)
    requires s.users.Keys <= s'.users.Keys && s'.orgs.Keys == s.orgs.Keys
    requires forall o :: o in s.orgs ==>
               s'.orgs[o].ownerUserId == s.orgs[o].ownerUserId && s'.orgs[o].slug == s.orgs[o].slug
    ensures Sound(s')
  {
    assert References(s') by { hide OneOrgEach, InvitesUsedOnce, DistinctSlugs; }
    hide References;
  }

  lemma AddedWebhookKeepsInv(s: Tables, webhook: Webhook)
    requires Inv(s)
    ensures Inv(WebhookAdded(s, webhook).tables)
  {
    hide AllOwned;
    OwnersCarry(s, WebhookAdded(s, webhook).tables);
  }

  /** A transaction that fails leaves every table as it was. */
  lemma FailureChangesNothing(s: Tables, e: Event)
    requires Apply(s, e).error.Some?
    ensures Apply(s, e).tables == s
  {
    hide FreeSlug, ActiveMembers;
  }

  lemma {:induction false} RunKeepsInv(s: Tables, events: seq<Event>)
    requires Inv(s) && forall i :: 0 <= i < |events| ==> Proper(events[i])
    ensures Inv(Run(s, events))
  {
    if events != [] {
      hide Inv, Apply;
      RunKeepsInv(s, Init(events));
      StepKeepsInv(Run(s, Init(events)), Last(events));
    }
  }

  /** Over every run: each organization has exactly one owner row, it is active and is the
      user the organization names; each user is a member of at most one organization; no
      invite is both accepted and revoked. */
  lemma OneOwnerOneOrg(events: seq<Event>)
    requires forall i :: 0 <= i < |events| ==> Proper(events[i])
    ensures var s := Run(EMPTY, events);
            && (forall o :: o in s.orgs ==> OneOwner(s, o))
            && (forall m, n :: m in s.members && n in s.members && s.members[m].userId == s.members[n].userId ==> m == n)
            && (forall i :: i in s.invites ==> s.invites[i].acceptedAt == None || s.invites[i].revokedAt == None)
  {
    RunKeepsInv(EMPTY, events);
  }

  // ---------- an invite is used up once ----------

  predicate UsesInvite(s: Tables, e: Event, i: Id) {
    && ((e.AcceptInvite? && e.inviteId == i) || (e.Revoke? && e.inviteId == i))
    && Apply(s, e).error == None
  }

  /** How many transactions of the run accepted or revoked invite i. */
  function Uses(events: seq<Event>, i: Id): nat {
    if events == [] then 0
    else Uses(Init(events), i) + if UsesInvite(Run(EMPTY, Init(events)), Last(events), i) then 1 else 0
  }

  predicate NumberedInvites(s: Tables) {
    forall i :: i in s.invites ==> i < s.nextId
  }

  lemma UseClosesInvite(s: Tables, e: Event, i: Id)
    requires NumberedInvites(s)
    ensures var s' := Apply(s, e).tables;
            && NumberedInvites(s') && s'.nextId >= s.nextId
            && (UsesInvite(s, e, i) ==> i in s.invites && IsOpen(s.invites[i]) && i in s'.invites && !IsOpen(s'.invites[i]))
            && (i in s'.invites && IsOpen(s'.invites[i]) && i < s.nextId ==> i in s.invites && IsOpen(s.invites[i]))
  {
    hide FreeSlug, ActiveMembers, RowsOf, NonOwnerRows, WithRole, WithStatus, InAnyOrg, SlugTaken, HasOpenInvite, OwnedBy,
      HoldsInvites, TransferError;
    if Apply(s, e).error.Some? {
      FailureChangesNothing(s, e);
    } else if e.AcceptInvite? {
      AcceptanceWrites(s, e.inviteId, e.userId, e.email, e.active, e.now);
    } else if e.Create? {
      CreationWrites(s, e.org, e.userId, e.role, e.active);
    }
    hide Accepted, Created;
  }

  /** No invite is accepted twice, revoked twice, or both, in any run. */
  lemma {:induction false} InviteUsedAtMostOnce(events: seq<Event>, i: Id)
    ensures var s := Run(EMPTY, events);
            && NumberedInvites(s) && Uses(events, i) <= 1
            && (i >= s.nextId || (i in s.invites && IsOpen(s.invites[i])) ==> Uses(events, i) == 0)
  {
    if events == [] {
      assert NumberedInvites(EMPTY);
    } else {
      hide Apply, UsesInvite, NumberedInvites;
      InviteUsedAtMostOnce(Init(events), i);
      UsesStep(Run(EMPTY, Init(events)), Last(events), i, Uses(Init(events), i));
    }
  }

  lemma UsesStep(s: Tables, e: Event, i: Id, uses: nat)
    requires NumberedInvites(s) && uses <= 1
    requires i >= s.nextId || (i in s.invites && IsOpen(s.invites[i])) ==> uses == 0
    ensures var s', uses' := Apply(s, e).tables, uses + if UsesInvite(s, e, i) then 1 else 0;
            && NumberedInvites(s') && uses' <= 1
            && (i >= s'.nextId || (i in s'.invites && IsOpen(s'.invites[i])) ==> uses' == 0)
  {
    hide Apply, UsesInvite;
    UseClosesInvite(s, e, i);
  }

  // ---------- seats and transfers ----------

  /** An acceptance never takes an organization over its seat limit. */
  lemma AcceptanceFitsTheSeats(s: Tables, inviteId: Id, userId: Id, email: string, active: bool, now: int)
    requires Inv(s) && Accepted(s, inviteId, userId, email, active, now).error == None
    ensures var s', o := Accepted(s, inviteId, userId, email, active, now).tables, s.invites[inviteId].orgId;
            o in s'.orgs && |ActiveMembers(s', o)| <= s'.orgs[o].seatLimit
  {
    AcceptanceWrites(s, inviteId, userId, email, active, now);
    assert s.nextId !in s.members;
    hide Accepted, Inv, UserEnsured, PersonalActive;
    var s', inv := Accepted(s, inviteId, userId, email, active, now).tables, s.invites[inviteId];
    OneMoreMember(s, s', Membership(inv.orgId, userId, inv.role, active));
  }

  lemma OneMoreMember(s: Tables, s': Tables, row: Membership)
    requires s.nextId !in s.members && s'.members == s.members[s.nextId := row]
    ensures |ActiveMembers(s', row.orgId)| <= |ActiveMembers(s, row.orgId)| + 1
  {
    assert ActiveMembers(s', row.orgId) == ActiveMembers(s, row.orgId) + if row.active then {s.nextId} else {};
  }

  /** Ownership moves to the target and the former owner stays on as an admin; transferring
      it back always succeeds, and restores the tables exactly when the target had been an
      admin. */
  lemma TransferBackRestoresIff(s: Tables, orgId: Id, from: Id, to: Id, n: Id)
    requires Inv(s) && Transferred(s, orgId, from, to).error == None && n in RowsOf(s, orgId, to)
    ensures var back := Transferred(Transferred(s, orgId, from, to).tables, orgId, to, from);
            back.error == None && (back.tables == s <==> s.members[n].role == Admin)
  {
    hide Transferred, Inv, OneOwner;
    var m, n' := TransferFinds(s, orgId, from, to);
    OwnerIsActive(s, orgId, m);
    var s' := Transferred(s, orgId, from, to).tables;
    TransferKeepsInv(s, orgId, from, to);
    BackIsAllowed(s, s', orgId, from, to, m, n);
    var n2, m2 := TransferFinds(s', orgId, to, from);
    assert n2 == n && m2 == m by {
      assert n2 in RowsOf(s', orgId, to) && m2 in RowsOf(s', orgId, from);
    }
    hide RowsOf, IsOwnerRow;
    var s2 := Transferred(s', orgId, to, from).tables;
    assert s2.orgs == s.orgs;
    assert s2.members == s.members[n := s.members[n].(role := Admin)];
  }

  lemma OwnerIsActive(s: Tables, orgId: Id, m: Id)
    requires Inv(s) && orgId in s.orgs && IsOwnerRow(s, orgId, m)
    ensures s.members[m].active
  {
    assert OneOwner(s, orgId);
  }

  lemma BackIsAllowed(s: Tables, s': Tables, orgId: Id, from: Id, to: Id, m: Id, n: Id)
    requires m in s.members && n in s.members && m != n && orgId in s.orgs && s.orgs[orgId].active
    requires RowsOf(s, orgId, from) == {m} && RowsOf(s, orgId, to) == {n} && s.members[m].active
    requires s' == s.(orgs := s.orgs[orgId := s.orgs[orgId].(ownerUserId := to)],
                      members := s.members[m := s.members[m].(role := Admin)][n := s.members[n].(role := Owner)])
    ensures RowsOf(s', orgId, from) == {m} && RowsOf(s', orgId, to) == {n}
    ensures Transferred(s', orgId, to, from).error == None
  {
    assert m in RowsOf(s, orgId, from) && n in RowsOf(s, orgId, to);
    assert RowsOf(s', orgId, from) == RowsOf(s, orgId, from);
    assert RowsOf(s', orgId, to) == RowsOf(s, orgId, to);
    assert m in RowsOf(s', orgId, from) * ActiveMembers(s', orgId);
  }

  // ---------- joining pauses personal webhooks ----------

  predicate Joins(e: Event) {
    e.Create? || e.AcceptInvite?
  }

  /** A user who founds or joins an organization has no running personal webhook afterwards;
      every other webhook is as it was. */
  lemma JoiningPausesPersonalWebhooks(s: Tables, e: Event)
    requires Joins(e) && Apply(s, e).error == None
    ensures var s' := Apply(s, e).tables;
            && s'.webhooks.Keys == s.webhooks.Keys
            && forall w :: w in s.webhooks ==>
                 var hook := s.webhooks[w];
                 s'.webhooks[w] ==
                 if hook.userId == e.userId && hook.orgId == None then hook.(active := false) else hook
  {
    if e.Create? {
      CreationWrites(s, e.org, e.userId, e.role, e.active);
    } else {
      AcceptanceWrites(s, e.inviteId, e.userId, e.email, e.active, e.now);
    }
    hide Apply, UserEnsured;
  }

  // ---------- a second owner ----------

  const FOUNDING: seq<Event> := [
    SignUp(1, "a@x"), Create(Org("x", 1, 5, true), 1, Owner, true),
    SendInvite(0, "b@x", Member, 9, 1), AcceptInvite(2, 2, "b@x", true, 0)]

  /** The tables after one user founds an organization and invites another. */
  const FOUNDED := Tables(
    map[1 := User("a@x", false), 2 := User("b@x", true)],
    map[0 := Org("x", 1, 5, true)],
    map[1 := Membership(0, 1, Owner, true), 3 := Membership(0, 2, Member, true)],
    map[2 := Invite(0, "b@x", Member, 9, 1, Some(0), None)], map[], 4)

  lemma RunMore(s: Tables, events: seq<Event>, e: Event)
    ensures Run(s, events + [e]) == Apply(Run(s, events), e).tables
  {
    assert Init(events + [e]) == events;
  }

  lemma Founds()
    ensures var s := Apply(Apply(EMPTY, FOUNDING[0]).tables, FOUNDING[1]).tables;
            s == FOUNDED.(users := map[1 := User("a@x", false)], members := map[1 := Membership(0, 1, Owner, true)],
                          invites := map[], nextId := 2)
  {
    var s := Apply(EMPTY, FOUNDING[0]).tables;
    assert s == EMPTY.(users := map[1 := User("a@x", false)]);
    assert FreeSlug(s, "x", 0) == "x";
  }

  lemma Invites()
    ensures var s := FOUNDED.(users := map[1 := User("a@x", false)], members := map[1 := Membership(0, 1, Owner, true)],
                              invites := map[], nextId := 2);
            Apply(Apply(s, FOUNDING[2]).tables, FOUNDING[3]).tables == FOUNDED
  {
    var s := FOUNDED.(users := map[1 := User("a@x", false)], members := map[1 := Membership(0, 1, Owner, true)],
                      invites := map[], nextId := 2);
    var s' := Apply(s, FOUNDING[2]).tables;
    assert s' == s.(invites := map[2 := Invite(0, "b@x", Member, 9, 1, None, None)], nextId := 3);
    assert ActiveMembers(s', 0) == {1};
    assert RowsOf(s', 0, 2) == {};
  }

  /** Nothing in the role update itself stops a second owner: after a proper founding, one
      update with that role leaves the organization with two owner rows. */
  lemma SecondOwnerIsPossible()
    ensures forall i :: 0 <= i < |FOUNDING| ==> Proper(FOUNDING[i])
    ensures var s := Run(EMPTY, FOUNDING + [UpdateRole(0, 2, Owner)]);
            IsOwnerRow(s, 0, 1) && IsOwnerRow(s, 0, 3)
  {
    hide Apply, Run;
    var e0, e1, e2, e3 := FOUNDING[0], FOUNDING[1], FOUNDING[2], FOUNDING[3];
    NothingRun();
    RunMore(EMPTY, [], e0);
    RunMore(EMPTY, [e0], e1);
    RunMore(EMPTY, [e0, e1], e2);
    RunMore(EMPTY, [e0, e1, e2], e3);
    RunMore(EMPTY, FOUNDING, UpdateRole(0, 2, Owner));
    assert [] + [e0] == [e0] && [e0] + [e1] == [e0, e1] && [e0, e1] + [e2] == [e0, e1, e2];
    assert [e0, e1, e2] + [e3] == FOUNDING;
    Founds();
    Invites();
    Promoted();
  }

  lemma NothingRun()
    ensures Run(EMPTY, []) == EMPTY
  {
  }

  lemma Promoted()
    ensures var s := Apply(FOUNDED, UpdateRole(0, 2, Owner)).tables; IsOwnerRow(s, 0, 1) && IsOwnerRow(s, 0, 3)
  {
    assert NonOwnerRows(FOUNDED, 0, 2) == {3};
  }

  // ---------- the store ----------

  class OrgStore {
    var users: map<Id, User>
    var orgs: map<Id, Org>
    var members: map<Id, Membership>
    var invites: map<Id, Invite>
    var webhooks: map<Id, Webhook>
    var nextId: Id

    ghost function State(): Tables
      reads this
    {
      Tables(users, orgs, members, invites, webhooks, nextId)
    }

    /** The tables as they are read inside a transaction. */
    function Snapshot(): (s: Tables)
      reads this
      ensures s == State()
    {
      Tables(users, orgs, members, invites, webhooks, nextId)
    }

    constructor ()
      ensures State() == EMPTY
    {
      users, orgs, members, invites, webhooks, nextId := map[], map[], map[], map[], map[], 0;
    }

    /** The loop over slugs: the first of a hundred candidates that no organization has. */
    method ChooseSlug(slug: string) returns (chosen: string)
      ensures chosen == FreeSlug(State(), slug, 0)
    {
      hide Candidate, SlugTaken;
      var s := Snapshot();
      chosen := slug;
      var i := 0;
      while i < 100 && SlugTaken(s, Candidate(slug, i))
        invariant 0 <= i <= 100
        invariant FreeSlug(s, slug, 0) == FreeSlug(s, slug, i)
      {
        i := i + 1;
      }
      if i < 100 {
        chosen := Candidate(slug, i);
      }
    }

    method InsertMember(row: Membership) returns (error: Option<Error>)
      modifies this`members, this`nextId
      ensures Outcome(State(), error) == MemberInserted(old(State()), row)
      ensures error.Some? ==> State() == old(State())
    {
      if row.userId !in users || row.orgId !in orgs || InAnyOrg(Snapshot(), row.userId) {
        return Some(ConstraintViolated);
      }
      members := members[nextId := row];
      nextId := nextId + 1;
      return None;
    }

    /** The ids of the webhooks that were paused come back, so their tokens can be dropped. */
    method PausePersonalWebhooks(userId: Id) returns (paused: set<Id>)
      modifies this`webhooks
      ensures State() == PersonalPaused(old(State()), userId)
      ensures paused == PersonalActive(old(webhooks), userId)
    {
      hide PersonalActive;
      paused := PersonalActive(webhooks, userId);
      webhooks := WithPaused(Snapshot(), paused).webhooks;
    }

    method CreateOrgWithOwner(org: Org, userId: Id, role: Role, active: bool)
      returns (error: Option<Error>, paused: set<Id>)
      modifies this
      ensures Outcome(State(), error) == Created(old(State()), org, userId, role, active)
      ensures paused == if error == None then PersonalActive(old(webhooks), userId) else {}
    {
      hide InAnyOrg, SlugTaken, FreeSlug, PersonalPaused, PersonalActive, MemberInserted;
      paused := {};
      if InAnyOrg(Snapshot(), userId) {
        return Some(AlreadyInOrg), {};
      }
      var slug := ChooseSlug(org.slug);
      if SlugTaken(Snapshot(), slug) || org.ownerUserId !in users || !(0 < org.seatLimit <= 1000) {
        return Some(ConstraintViolated), {};
      }
      var orgId, before := nextId, orgs;
      orgs := orgs[orgId := org.(slug := slug)];
      nextId := nextId + 1;
      error := InsertMember(Membership(orgId, userId, role, active));
      if error.Some? {
        orgs, nextId := before, orgId;
        return;
      }
      paused := PausePersonalWebhooks(userId);
    }

    method RevokeOrgInvite(orgId: Id, inviteId: Id, now: int) returns (error: Option<Error>)
      modifies this
      ensures Outcome(State(), error) == Revoked(old(State()), orgId, inviteId, now)
    {
      if inviteId in invites && invites[inviteId].orgId == orgId
         && invites[inviteId].acceptedAt == None && invites[inviteId].revokedAt == None {
        invites := invites[inviteId := invites[inviteId].(revokedAt := Some(now))];
        return None;
      }
      return Some(NoRows);
    }

    /** The acceptance transaction, check by check; a failing insert rolls the new user back. */
    method AcceptOrgInvite(inviteId: Id, userId: Id, email: string, active: bool, now: int)
      returns (error: Option<Error>, paused: set<Id>)
      modifies this
      ensures Outcome(State(), error) == Accepted(old(State()), inviteId, userId, email, active, now)
      ensures paused == if error == None then PersonalActive(old(webhooks), userId) else {}
    {
      hide InAnyOrg, ActiveMembers, RowsOf, EmailTaken, PersonalPaused;
      paused := {};
      if inviteId !in invites {
        return Some(NoRows), {};
      }
      var inv := invites[inviteId];
      if inv.acceptedAt.Some? || inv.revokedAt.Some? || now > inv.expiresAt {
        return Some(InviteNotValid), {};
      }
      if inv.orgId !in orgs {
        return Some(NoRows), {};
      }
      if !orgs[inv.orgId].active {
        return Some(OrgNotActive), {};
      }
      var memberCount := |ActiveMembers(Snapshot(), inv.orgId)|;
      if memberCount >= orgs[inv.orgId].seatLimit {
        return Some(SeatLimitReached), {};
      }
      if InAnyOrg(Snapshot(), userId) {
        return Some(AlreadyInOrg), {};
      }
      if RowsOf(Snapshot(), inv.orgId, userId) != {} {
        return Some(AlreadyMember), {};
      }
      if email != inv.email {
        return Some(EmailMismatch), {};
      }
      var before := users;
      if userId !in users {
        if EmailTaken(Snapshot(), email) {
          return Some(ConstraintViolated), {};
        }
        users := users[userId := User(email, true)];
      } else {
        users := users[userId := users[userId].(verified := true)];
      }
      error := InsertMember(Membership(inv.orgId, userId, inv.role, active));
      if error.Some? {
        users := before;
        return;
      }
      invites := invites[inviteId := inv.(acceptedAt := Some(now))];
      paused := PausePersonalWebhooks(userId);
    }

    method UpdateOrgMemberRole(orgId: Id, userId: Id, role: Role) returns (error: Option<Error>)
      modifies this`members
      ensures Outcome(State(), error) == RoleUpdated(old(State()), orgId, userId, role)
    {
      var rows := NonOwnerRows(Snapshot(), orgId, userId);
      if |rows| == 0 {
        return Some(NoRows);
      }
      members := WithRole(members, rows, role);
      return None;
    }

    method UpdateOrgMemberStatus(orgId: Id, userId: Id, active: bool) returns (error: Option<Error>)
      modifies this`members
      ensures Outcome(State(), error) == StatusUpdated(old(State()), orgId, userId, active)
    {
      var rows := NonOwnerRows(Snapshot(), orgId, userId);
      if |rows| == 0 {
        return Some(NoRows);
      }
      members := WithStatus(members, rows, active);
      return None;
    }

    method RemoveOrgMember(orgId: Id, userId: Id) returns (error: Option<Error>)
      modifies this`members
      ensures Outcome(State(), error) == Removed(old(State()), orgId, userId)
    {
      var rows := NonOwnerRows(Snapshot(), orgId, userId);
      if |rows| == 0 {
        return Some(NoRows);
      }
      members := members - rows;
      return None;
    }

    method TransferOrgOwnership(orgId: Id, from: Id, to: Id) returns (error: Option<Error>)
      modifies this`orgs, this`members
      ensures Outcome(State(), error) == Transferred(old(State()), orgId, from, to)
    {
      hide ActiveMembers, WithRole;
      var s := Snapshot();
      if orgId !in orgs || !orgs[orgId].active {
        return Some(NoRows);
      }
      if orgs[orgId].ownerUserId != from {
        return Some(NotOwner);
      }
      var target := RowsOf(s, orgId, to) * ActiveMembers(s, orgId);
      if target == {} {
        return Some(TargetNotMember);
      }
      if exists m :: m in target && s.members[m].role == Owner {
        return Some(TargetAlreadyOwner);
      }
      orgs := orgs[orgId := orgs[orgId].(ownerUserId := to)];
      members := WithRole(members, RowsOf(s, orgId, from), Admin);
      members := WithRole(members, RowsOf(s, orgId, to), Owner);
      return None;
    }

    method DeleteUser(userId: Id, referenced: bool) returns (error: Option<Error>)
      modifies this
      ensures Outcome(State(), error) == UserDeleted(old(State()), userId, referenced)
    {
      hide OwnedBy, HoldsInvites;
      var s := Snapshot();
      if userId !in users {
        return Some(NoRows);
      }
      if HoldsInvites(s, userId) || referenced {
        return Some(ConstraintViolated);
      }
      var left := OrgsDeleted(s, OwnedBy(s, userId));
      orgs, invites := left.orgs, left.invites;
      members := map m | m in left.members && left.members[m].userId != userId :: left.members[m];
      webhooks := map w | w in left.webhooks && left.webhooks[w].userId != userId :: left.webhooks[w];
      users := users - {userId};
      return None;
    }
  }
}
