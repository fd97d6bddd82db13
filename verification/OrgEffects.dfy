/** When each organization transaction succeeds, and what it then changes, by who belongs to
    which organization and by the columns of the other tables. */
module OrgEffects {
  import opened Common
  import opened OrgGovernance

  /** The user belongs to the organization with this role, active or suspended. */
  ghost predicate Belongs(s: Tables, orgId: Id, userId: Id, role: Role, active: bool) {
    exists m :: m in s.members && s.members[m] == Membership(orgId, userId, role, active)
  }

  ghost predicate BelongsAnywhere(s: Tables, userId: Id) {
    exists orgId, role, active :: Belongs(s, orgId, userId, role, active)
  }

  /** Every membership of everybody else is as it was. */
  ghost predicate OthersBelong(s: Tables, s': Tables, userId: Id) {
    forall orgId, u, role, active :: u != userId ==>
      (Belongs(s', orgId, u, role, active) <==> Belongs(s, orgId, u, role, active))
  }

  lemma RowBelongs(s: Tables, m: Id)
    requires m in s.members
    ensures var row := s.members[m]; Belongs(s, row.orgId, row.userId, row.role, row.active)
  {
    var row := s.members[m];
    assert row == Membership(row.orgId, row.userId, row.role, row.active);
  }

  lemma BelongsIff(s: Tables, userId: Id)
    ensures BelongsAnywhere(s, userId) <==> InAnyOrg(s, userId)
  {
    if m :| m in s.members && s.members[m].userId == userId {
      RowBelongs(s, m);
    }
  }

  // ---------- members ----------

  /** The one row of a member who is not the owner. */
  ghost predicate NonOwner(s: Tables, orgId: Id, userId: Id, m: Id) {
    && m in s.members && s.members[m].orgId == orgId && s.members[m].userId == userId
    && s.members[m].role != Owner
  }

  ghost predicate HasNonOwner(s: Tables, orgId: Id, userId: Id) {
    exists role, active :: role != Owner && Belongs(s, orgId, userId, role, active)
  }

  lemma FoundNonOwner(s: Tables, orgId: Id, userId: Id)
    requires OneOrgEach(s)
    ensures NonOwnerRows(s, orgId, userId) != {} <==> HasNonOwner(s, orgId, userId)
    ensures HasNonOwner(s, orgId, userId) ==>
              exists m :: NonOwnerRows(s, orgId, userId) == {m} && NonOwner(s, orgId, userId, m)
  {
    if NonOwnerRows(s, orgId, userId) != {} {
      var m := SomeElement(NonOwnerRows(s, orgId, userId));
      RowBelongs(s, m);
      OnlyRow(s, orgId, userId, m);
      assert NonOwnerRows(s, orgId, userId) == {m};
    }
    if role, active :| role != Owner && Belongs(s, orgId, userId, role, active) {
      var m :| m in s.members && s.members[m] == Membership(orgId, userId, role, active);
      assert m in NonOwnerRows(s, orgId, userId);
    }
  }

  /** On any sound state, a removal (or leaving) succeeds exactly when the user has a row in
      that organization that is not the owner's. Afterwards the user belongs to no organization,
      everybody else belongs where they did, and no other table has changed. */
  lemma RemovalEffect(s: Tables, orgId: Id, userId: Id)
    requires Sound(s)
    ensures var out := Apply(s, Remove(orgId, userId));
            && (out.error == None <==> HasNonOwner(s, orgId, userId))
            && (out.error.Some? ==> out == Outcome(s, Some(NoRows)))
            && out.tables == s.(members := out.tables.members)
            && (out.error == None ==>
                  && !BelongsAnywhere(out.tables, userId)
                  && OthersBelong(s, out.tables, userId))
  {
    FoundNonOwner(s, orgId, userId);
    var s' := Apply(s, Remove(orgId, userId)).tables;
    if HasNonOwner(s, orgId, userId) {
      var m :| NonOwnerRows(s, orgId, userId) == {m} && NonOwner(s, orgId, userId, m);
      assert s'.members == s.members - {m};
      BelongsIff(s', userId);
      OneRowGone(s, s', m);
    }
  }

  lemma OneRowGone(s: Tables, s': Tables, m: Id)
    requires m in s.members && s'.members == s.members - {m}
    ensures OthersBelong(s, s', s.members[m].userId)
  {
    forall orgId, u, role, active | u != s.members[m].userId && Belongs(s, orgId, u, role, active)
      ensures Belongs(s', orgId, u, role, active)
    {
      var n :| n in s.members && s.members[n] == Membership(orgId, u, role, active);
      assert n in s'.members;
    }
  }

  lemma OneRowRewritten(s: Tables, s': Tables, m: Id, row: Membership)
    requires OneOrgEach(s) && m in s.members && s'.members == s.members[m := row]
    requires row.orgId == s.members[m].orgId && row.userId == s.members[m].userId
    ensures OthersBelong(s, s', row.userId)
    ensures forall o, role, active :: Belongs(s', o, row.userId, role, active) <==> row == Membership(o, row.userId, role, active)
  {
    assert s'.members[m] == row;
    forall orgId, u, role, active | u != row.userId
      ensures Belongs(s', orgId, u, role, active) <==> Belongs(s, orgId, u, role, active)
    {
      if n :| n in s.members && s.members[n] == Membership(orgId, u, role, active) {
        assert s'.members[n] == s.members[n];
      }
      if n :| n in s'.members && s'.members[n] == Membership(orgId, u, role, active) {
        assert s.members[n] == s'.members[n];
      }
    }
  }

  /** A role update succeeds exactly for such a member; it gives the role asked for, and leaves
      organization and status, everybody else and every other table alone. */
  lemma RoleEffect(s: Tables, orgId: Id, userId: Id, role: Role)
    requires Sound(s)
    ensures var out := Apply(s, UpdateRole(orgId, userId, role));
            && (out.error == None <==> HasNonOwner(s, orgId, userId))
            && (out.error.Some? ==> out == Outcome(s, Some(NoRows)))
            && out.tables == s.(members := out.tables.members)
            && (out.error == None ==>
                  && OthersBelong(s, out.tables, userId)
                  && forall o, r, a :: Belongs(out.tables, o, userId, r, a) <==>
                       o == orgId && r == role && exists before :: Belongs(s, orgId, userId, before, a))
  {
    FoundNonOwner(s, orgId, userId);
    var s' := Apply(s, UpdateRole(orgId, userId, role)).tables;
    if HasNonOwner(s, orgId, userId) {
      var m :| NonOwnerRows(s, orgId, userId) == {m} && NonOwner(s, orgId, userId, m);
      var row := s.members[m].(role := role);
      assert s'.members == s.members[m := row];
      OneRowRewritten(s, s', m, row);
      RowBelongs(s, m);
      assert forall before, a :: Belongs(s, orgId, userId, before, a) ==> a == row.active;
    }
  }

  /** Likewise for the status: it becomes the one asked for, and the role stays. */
  lemma StatusEffect(s: Tables, orgId: Id, userId: Id, active: bool)
    requires Sound(s)
    ensures var out := Apply(s, UpdateStatus(orgId, userId, active));
            && (out.error == None <==> HasNonOwner(s, orgId, userId))
            && (out.error.Some? ==> out == Outcome(s, Some(NoRows)))
            && out.tables == s.(members := out.tables.members)
            && (out.error == None ==>
                  && OthersBelong(s, out.tables, userId)
                  && forall o, r, a :: Belongs(out.tables, o, userId, r, a) <==>
                       o == orgId && a == active && exists before :: Belongs(s, orgId, userId, r, before))
  {
    FoundNonOwner(s, orgId, userId);
    var s' := Apply(s, UpdateStatus(orgId, userId, active)).tables;
    if HasNonOwner(s, orgId, userId) {
      var m :| NonOwnerRows(s, orgId, userId) == {m} && NonOwner(s, orgId, userId, m);
      var row := s.members[m].(active := active);
      assert s'.members == s.members[m := row];
      OneRowRewritten(s, s', m, row);
      RowBelongs(s, m);
      assert forall r, before :: Belongs(s, orgId, userId, r, before) ==> r == row.role;
    }
  }

  // ---------- invites ----------

  /** An invite is created exactly when organization and inviter exist, the role is not owner
      and no invite to that address is open in the organization; it is open, and nothing else
      changes. */
  lemma InviteEffect(s: Tables, orgId: Id, email: string, role: Role, expiresAt: int, invitedBy: Id)
    ensures var out := Apply(s, SendInvite(orgId, email, role, expiresAt, invitedBy));
            && (out.error == None <==>
                && orgId in s.orgs && invitedBy in s.users && role != Owner
                && forall i :: i in s.invites && s.invites[i].orgId == orgId && s.invites[i].email == email ==>
                     s.invites[i].acceptedAt != None || s.invites[i].revokedAt != None)
            && (out.error.Some? ==> out == Outcome(s, Some(ConstraintViolated)))
            && (out.error == None ==>
                  out.tables == s.(
                    invites := s.invites[s.nextId := Invite(orgId, email, role, expiresAt, invitedBy, None, None)],
                    nextId := s.nextId + 1))
  {
  }

  /** An invite is revoked exactly when the organization has it open; it carries the time. */
  lemma RevocationEffect(s: Tables, orgId: Id, inviteId: Id, now: int)
    ensures var out := Apply(s, Revoke(orgId, inviteId, now));
            && (out.error == None <==>
                && inviteId in s.invites && s.invites[inviteId].orgId == orgId
                && s.invites[inviteId].acceptedAt == None && s.invites[inviteId].revokedAt == None)
            && (out.error.Some? ==> out == Outcome(s, Some(NoRows)))
            && (out.error == None ==>
                  out.tables == s.(invites := s.invites[inviteId := s.invites[inviteId].(revokedAt := Some(now))]))
  {
  }

  ghost function SeatsTaken(s: Tables, orgId: Id): nat {
    |set m | m in s.members && s.members[m].orgId == orgId && s.members[m].active|
  }

  /** What each refusal of an acceptance says of the tables. */
  ghost predicate Refuses(s: Tables, inviteId: Id, userId: Id, email: string, now: int, check: Error) {
    match check
    case NoRows => inviteId !in s.invites
    case InviteNotValid =>
      && inviteId in s.invites
      && (s.invites[inviteId].acceptedAt.Some? || s.invites[inviteId].revokedAt.Some? || now > s.invites[inviteId].expiresAt)
    case OrgNotActive => HasInvitingOrg(s, inviteId) && !InvitingOrg(s, inviteId).active
    case SeatLimitReached =>
      HasInvitingOrg(s, inviteId) && SeatsTaken(s, s.invites[inviteId].orgId) >= InvitingOrg(s, inviteId).seatLimit
    case AlreadyInOrg => BelongsAnywhere(s, userId)
    case EmailMismatch => inviteId in s.invites && email != s.invites[inviteId].email
    case ConstraintViolated => userId !in s.users && exists u :: u in s.users && s.users[u].email == email
    case _ => false
  }

  predicate HasInvitingOrg(s: Tables, inviteId: Id) {
    inviteId in s.invites && s.invites[inviteId].orgId in s.orgs
  }

  function InvitingOrg(s: Tables, inviteId: Id): Org
    requires HasInvitingOrg(s, inviteId)
  {
    s.orgs[s.invites[inviteId].orgId]
  }

  /** The place of each check among the checks of an acceptance. */
  function Place(check: Error): nat {
    match check
    case NoRows => 0
    case InviteNotValid => 1
    case OrgNotActive => 2
    case SeatLimitReached => 3
    case AlreadyInOrg => 4
    case EmailMismatch => 5
    case ConstraintViolated => 6
    case _ => 7
  }

  ghost predicate FirstRefusal(s: Tables, inviteId: Id, userId: Id, email: string, now: int, check: Error) {
    && Refuses(s, inviteId, userId, email, now, check)
    && forall earlier :: Place(earlier) < Place(check) ==> !Refuses(s, inviteId, userId, email, now, earlier)
  }

  lemma FirstRefusalIsUnique(s: Tables, inviteId: Id, userId: Id, email: string, now: int, check: Error, other: Error)
    requires FirstRefusal(s, inviteId, userId, email, now, check) && FirstRefusal(s, inviteId, userId, email, now, other)
    ensures check == other
  {
    assert Place(check) >= Place(other) && Place(other) >= Place(check);
    hide BelongsAnywhere, SeatsTaken;
  }

  lemma AcceptanceDecided(s: Tables, inviteId: Id, userId: Id, email: string, active: bool, now: int)
    requires Sound(s)
    ensures var error := Accepted(s, inviteId, userId, email, active, now).error;
            && (error == None <==> forall check :: !Refuses(s, inviteId, userId, email, now, check))
            && (error.Some? ==> FirstRefusal(s, inviteId, userId, email, now, error.value))
  {
    BelongsIff(s, userId);
    hide BelongsAnywhere, PersonalPaused;
    assert inviteId in s.invites ==> HasInvitingOrg(s, inviteId);
    assert inviteId in s.invites ==> SeatsTaken(s, s.invites[inviteId].orgId) == |ActiveMembers(s, s.invites[inviteId].orgId)|;
    hide References, OneOrgEach, InvitesUsedOnce, DistinctSlugs;
    if !InAnyOrg(s, userId) { NotAMember(s, userId); }
    hide RowsOf, InAnyOrg, ActiveMembers;
    var error := Accepted(s, inviteId, userId, email, active, now).error;
    if error.Some? {
      assert Refuses(s, inviteId, userId, email, now, error.value);
    }
  }

  lemma NotAMember(s: Tables, userId: Id)
    requires !InAnyOrg(s, userId)
    ensures forall orgId :: RowsOf(s, orgId, userId) == {}
  {
    forall orgId ensures RowsOf(s, orgId, userId) == {} {
      assert forall m :: m !in RowsOf(s, orgId, userId);
    }
  }

  /** On any sound state an acceptance succeeds exactly when the invite exists, is open and not
      past its time, the organization is active and has a free seat, the user belongs to none,
      uses the invited address, and exists or takes an address that nobody has. Otherwise the
      error is that of the first of these that fails, and nothing changes. */
  lemma AcceptanceIff(s: Tables, inviteId: Id, userId: Id, email: string, active: bool, now: int)
    requires Sound(s)
    ensures var out := Apply(s, AcceptInvite(inviteId, userId, email, active, now));
            && (out.error == None <==>
                && inviteId in s.invites
                && var inv := s.invites[inviteId];
                && inv.acceptedAt == None && inv.revokedAt == None && now <= inv.expiresAt
                && s.orgs[inv.orgId].active && SeatsTaken(s, inv.orgId) < s.orgs[inv.orgId].seatLimit
                && !BelongsAnywhere(s, userId) && email == inv.email
                && (userId in s.users || forall u :: u in s.users ==> s.users[u].email != email))
            && (forall check :: out.error == Some(check) <==> FirstRefusal(s, inviteId, userId, email, now, check))
            && (out.error.Some? ==> out.tables == s)
  {
    hide Accepted, BelongsAnywhere, SeatsTaken, OneOrgEach, InvitesUsedOnce, DistinctSlugs, Place;
    var error := Apply(s, AcceptInvite(inviteId, userId, email, active, now)).error;
    AcceptanceDecided(s, inviteId, userId, email, active, now);
    if error.Some? {
      FailureChangesNothing(s, AcceptInvite(inviteId, userId, email, active, now));
    }
    forall check | FirstRefusal(s, inviteId, userId, email, now, check) ensures error == Some(check) {
      assert Refuses(s, inviteId, userId, email, now, check);
      FirstRefusalIsUnique(s, inviteId, userId, email, now, check, error.value);
    }
    AllRefusals(s, inviteId, userId, email, now);
  }

  lemma AllRefusals(s: Tables, inviteId: Id, userId: Id, email: string, now: int)
    requires inviteId in s.invites ==> s.invites[inviteId].orgId in s.orgs
    ensures (forall check :: !Refuses(s, inviteId, userId, email, now, check)) <==>
            && inviteId in s.invites
            && var inv := s.invites[inviteId];
            && inv.acceptedAt == None && inv.revokedAt == None && now <= inv.expiresAt
            && s.orgs[inv.orgId].active && SeatsTaken(s, inv.orgId) < s.orgs[inv.orgId].seatLimit
            && !BelongsAnywhere(s, userId) && email == inv.email
            && (userId in s.users || forall u :: u in s.users ==> s.users[u].email != email)
  {
    hide BelongsAnywhere, SeatsTaken;
    if forall check :: !Refuses(s, inviteId, userId, email, now, check) {
      assert !Refuses(s, inviteId, userId, email, now, NoRows);
      assert !Refuses(s, inviteId, userId, email, now, InviteNotValid);
      assert !Refuses(s, inviteId, userId, email, now, OrgNotActive);
      assert !Refuses(s, inviteId, userId, email, now, SeatLimitReached);
      assert !Refuses(s, inviteId, userId, email, now, AlreadyInOrg);
      assert !Refuses(s, inviteId, userId, email, now, EmailMismatch);
      assert !Refuses(s, inviteId, userId, email, now, ConstraintViolated);
    }
  }

  lemma OneRowAdded(s: Tables, s': Tables, m: Id, row: Membership)
    requires m !in s.members && s'.members == s.members[m := row] && !BelongsAnywhere(s, row.userId)
    ensures OthersBelong(s, s', row.userId)
    ensures forall o, role, active :: Belongs(s', o, row.userId, role, active) <==> row == Membership(o, row.userId, role, active)
  {
    assert s'.members[m] == row;
    BelongsIff(s, row.userId);
    forall orgId, u, role, active
      ensures Belongs(s', orgId, u, role, active) <==>
              Belongs(s, orgId, u, role, active) || row == Membership(orgId, u, role, active)
    {
      if n :| n in s.members && s.members[n] == Membership(orgId, u, role, active) {
        assert s'.members[n] == s.members[n];
      }
    }
    hide Belongs;
    assert forall orgId, role, active :: Belongs(s, orgId, row.userId, role, active) ==> BelongsAnywhere(s, row.userId);
  }

  /** An acceptance that succeeds makes the user a member of the inviting organization, in the
      invited role, and of no other; marks the invite with the time; and proves the address of
      the user, who is created if new. Everybody else and every organization stay as they were. */
  lemma AcceptanceEffect(s: Tables, inviteId: Id, userId: Id, email: string, active: bool, now: int)
    requires Sound(s) && Apply(s, AcceptInvite(inviteId, userId, email, active, now)).error == None
    ensures inviteId in s.invites
    ensures var s', inv := Apply(s, AcceptInvite(inviteId, userId, email, active, now)).tables, s.invites[inviteId];
            && (forall o, r, a :: Belongs(s', o, userId, r, a) <==> o == inv.orgId && r == inv.role && a == active)
            && OthersBelong(s, s', userId)
            && s'.invites == s.invites[inviteId := inv.(acceptedAt := Some(now))]
            && s'.users == s.users[userId := if userId in s.users then s.users[userId].(verified := true) else User(email, true)]
            && s'.orgs == s.orgs
  {
    AcceptanceWrites(s, inviteId, userId, email, active, now);
    BelongsIff(s, userId);
    assert s.nextId !in s.members;
    hide Accepted, BelongsAnywhere, Belongs, OthersBelong, PersonalActive, EmailTaken, Sound;
    var inv := s.invites[inviteId];
    OneRowAdded(s, Apply(s, AcceptInvite(inviteId, userId, email, active, now)).tables, s.nextId,
      Membership(inv.orgId, userId, inv.role, active));
  }

  /** Whoever was removed can join elsewhere: any open invite in time, to the user's address, of
      an active organization with a free seat is then accepted. */
  lemma RemovedCanJoin(s: Tables, orgId: Id, userId: Id, inviteId: Id, email: string, active: bool, now: int)
    requires Inv(s) && Apply(s, Remove(orgId, userId)).error == None
    requires inviteId in s.invites && s.invites[inviteId].orgId in s.orgs && s.invites[inviteId].orgId != orgId
    requires IsOpen(s.invites[inviteId]) && now <= s.invites[inviteId].expiresAt && email == s.invites[inviteId].email
    requires InvitingOrg(s, inviteId).active && SeatsTaken(s, s.invites[inviteId].orgId) < InvitingOrg(s, inviteId).seatLimit
    ensures var s' := Apply(s, Remove(orgId, userId)).tables;
            var joined := Apply(s', AcceptInvite(inviteId, userId, email, active, now));
            && joined.error == None
            && Belongs(joined.tables, s.invites[inviteId].orgId, userId, s.invites[inviteId].role, active)
  {
    var s', o := Apply(s, Remove(orgId, userId)).tables, s.invites[inviteId].orgId;
    RemovalEffect(s, orgId, userId);
    RemoveKeepsInv(s, orgId, userId);
    FoundNonOwner(s, orgId, userId);
    var m :| NonOwnerRows(s, orgId, userId) == {m} && NonOwner(s, orgId, userId, m);
    assert userId in s.users;
    assert s'.members == s.members - {m};
    assert (set n | n in s'.members && s'.members[n].orgId == o && s'.members[n].active) ==
           (set n | n in s.members && s.members[n].orgId == o && s.members[n].active);
    hide Apply, Inv, BelongsAnywhere, OthersBelong, Belongs, NonOwnerRows;
    AcceptanceIff(s', inviteId, userId, email, active, now);
    AcceptanceEffect(s', inviteId, userId, email, active, now);
  }

  /** An invite that could be sent can be used: by whoever holds the address, belongs to no
      organization and comes in time, if a seat is free; the role is the one it was sent with. */
  lemma InvitedCanJoin(s: Tables, orgId: Id, email: string, role: Role, expiresAt: int, invitedBy: Id,
                       userId: Id, active: bool, now: int)
    requires Inv(s) && Apply(s, SendInvite(orgId, email, role, expiresAt, invitedBy)).error == None
    requires now <= expiresAt && !BelongsAnywhere(s, userId) && (userId in s.users || !EmailTaken(s, email))
    requires orgId in s.orgs && s.orgs[orgId].active && SeatsTaken(s, orgId) < s.orgs[orgId].seatLimit
    ensures var joined := Apply(Apply(s, SendInvite(orgId, email, role, expiresAt, invitedBy)).tables,
                                AcceptInvite(s.nextId, userId, email, active, now));
            joined.error == None && Belongs(joined.tables, orgId, userId, role, active)
  {
    var s' := Apply(s, SendInvite(orgId, email, role, expiresAt, invitedBy)).tables;
    InviteEffect(s, orgId, email, role, expiresAt, invitedBy);
    InviteKeepsInv(s, orgId, email, role, expiresAt, invitedBy);
    assert (set m | m in s'.members && s'.members[m].orgId == orgId && s'.members[m].active) ==
           (set m | m in s.members && s.members[m].orgId == orgId && s.members[m].active);
    BelongsIff(s, userId);
    BelongsIff(s', userId);
    hide Apply, Inv, BelongsAnywhere, OthersBelong, Belongs;
    AcceptanceIff(s', s.nextId, userId, email, active, now);
    AcceptanceEffect(s', s.nextId, userId, email, active, now);
  }

  /** An invite that an organization revoked is refused from then on, whatever else happens. */
  lemma RevokedIsRefused(s: Tables, orgId: Id, inviteId: Id, at: int, events: seq<Event>, userId: Id, email: string, active: bool, now: int)
    requires Sound(s) && Apply(s, Revoke(orgId, inviteId, at)).error == None
    ensures Apply(Run(Apply(s, Revoke(orgId, inviteId, at)).tables, events), AcceptInvite(inviteId, userId, email, active, now)).error
            in {Some(NoRows), Some(InviteNotValid)}
  {
    RevocationEffect(s, orgId, inviteId, at);
    hide Apply, Run;
    ClosedInviteIsRefused(Apply(s, Revoke(orgId, inviteId, at)).tables, events, inviteId, userId, email, active, now);
  }

  /** A revoked or accepted invite is refused from then on, whatever else happens. */
  lemma {:induction false} ClosedInviteIsRefused(s: Tables, events: seq<Event>, inviteId: Id, userId: Id, email: string, active: bool, now: int)
    requires NumberedInvites(s) && inviteId in s.invites && !IsOpen(s.invites[inviteId])
    ensures var s' := Run(s, events);
            && NumberedInvites(s') && (inviteId in s'.invites ==> !IsOpen(s'.invites[inviteId]))
            && inviteId < s'.nextId
            && Apply(s', AcceptInvite(inviteId, userId, email, active, now)).error in {Some(NoRows), Some(InviteNotValid)}
  {
    if events != [] {
      hide Apply, NumberedInvites;
      ClosedInviteIsRefused(s, Init(events), inviteId, userId, email, active, now);
      UseClosesInvite(Run(s, Init(events)), Last(events), inviteId);
    }
    ClosedIsRefused(Run(s, events), inviteId, userId, email, active, now);
  }

  lemma ClosedIsRefused(s: Tables, inviteId: Id, userId: Id, email: string, active: bool, now: int)
    requires inviteId in s.invites ==> !IsOpen(s.invites[inviteId])
    ensures Apply(s, AcceptInvite(inviteId, userId, email, active, now)).error in {Some(NoRows), Some(InviteNotValid)}
  {
  }

  // ---------- organizations ----------

  ghost predicate Free(s: Tables, slug: string) {
    forall o :: o in s.orgs ==> s.orgs[o].slug != slug
  }

  /** The slug is this candidate, which is free, and no earlier candidate is. */
  ghost predicate FirstFree(s: Tables, slug: string, i: nat, chosen: string) {
    i < 100 && chosen == Candidate(slug, i) && Free(s, chosen) && forall j :: 0 <= j < i ==> !Free(s, Candidate(slug, j))
  }

  lemma {:induction false} FirstFreeFrom(s: Tables, slug: string, i: nat) returns (k: nat)
    requires i <= 100
    ensures i <= k <= 100 && FreeSlug(s, slug, i) == if k < 100 then Candidate(slug, k) else slug
    ensures forall j :: i <= j < k ==> !Free(s, Candidate(slug, j))
    ensures k < 100 ==> Free(s, Candidate(slug, k))
    decreases 100 - i
  {
    hide Candidate;
    k := i;
    if i < 100 && SlugTaken(s, Candidate(slug, i)) {
      k := FirstFreeFrom(s, slug, i + 1);
    }
  }

  /** An organization is founded exactly when the founder belongs to none, founder and owner
      exist, the seat limit is from 1 to 1000 and one of the hundred slugs is free. It takes the
      first that is, and the founder belongs to it and to no other. */
  lemma CreationEffect(s: Tables, org: Org, userId: Id, role: Role, active: bool)
    requires Sound(s)
    ensures var out := Apply(s, Create(org, userId, role, active));
            && (out.error == None <==>
                && !BelongsAnywhere(s, userId) && userId in s.users && org.ownerUserId in s.users
                && 1 <= org.seatLimit <= 1000 && exists i :: 0 <= i < 100 && Free(s, Candidate(org.slug, i)))
            && (out.error == Some(AlreadyInOrg) <==> BelongsAnywhere(s, userId))
            && (out.error.Some? ==> out.tables == s && out.error.value in {AlreadyInOrg, ConstraintViolated})
            && (out.error == None ==>
                  && (exists i, slug :: FirstFree(s, org.slug, i, slug) &&
                        out.tables.orgs == s.orgs[s.nextId := org.(slug := slug)])
                  && (forall o, r, a :: Belongs(out.tables, o, userId, r, a) <==> o == s.nextId && r == role && a == active)
                  && OthersBelong(s, out.tables, userId)
                  && out.tables.users == s.users && out.tables.invites == s.invites)
  {
    BelongsIff(s, userId);
    var k := FirstFreeFrom(s, org.slug, 0);
    var slug := FreeSlug(s, org.slug, 0);
    assert Candidate(org.slug, 0) == org.slug;
    assert Free(s, slug) <==> !SlugTaken(s, slug);
    assert k < 100 ==> FirstFree(s, org.slug, k, slug);
    hide BelongsAnywhere, FreeSlug, SlugTaken, Candidate, PersonalActive, OneOrgEach, InvitesUsedOnce, DistinctSlugs;
    CreationDecided(s, org, userId, role, active);
    if Apply(s, Create(org, userId, role, active)).error == None {
      CreationWrites(s, org, userId, role, active);
      assert s.nextId + 1 !in s.members;
      hide Created, Free, FirstFree, References;
      OneRowAdded(s, Apply(s, Create(org, userId, role, active)).tables, s.nextId + 1, Membership(s.nextId, userId, role, active));
    }
  }

  lemma CreationDecided(s: Tables, org: Org, userId: Id, role: Role, active: bool)
    ensures var out := Created(s, org, userId, role, active);
            && (out.error == None <==>
                && !InAnyOrg(s, userId) && userId in s.users && org.ownerUserId in s.users
                && 1 <= org.seatLimit <= 1000 && !SlugTaken(s, FreeSlug(s, org.slug, 0)))
            && (out.error == Some(AlreadyInOrg) <==> InAnyOrg(s, userId))
            && (out.error.Some? ==> out.tables == s && out.error.value in {AlreadyInOrg, ConstraintViolated})
  {
    hide FreeSlug, SlugTaken, PersonalPaused;
  }

  /** The digits of a candidate are the decimal number of the try. */
  lemma {:induction false} DigitsReadBack(n: nat)
    ensures Digits(n) != "" && forall i :: 0 <= i < |Digits(n)| ==> '0' <= Digits(n)[i] <= '9'
    ensures Decimal(Digits(n)) == n
  {
    if n >= 10 {
      DigitsReadBack(n / 10);
    }
    assert Init(Digits(n)) == if n < 10 then "" else Digits(n / 10);
  }

  /** The first candidate is the slug itself, the later ones carry the number of the try; so the
      hundred candidates all differ. */
  lemma CandidatesDiffer(slug: string, i: nat, j: nat)
    ensures Candidate(slug, 0) == slug
    ensures i > 0 ==> exists digits :: Candidate(slug, i) == slug + "-" + digits && Decimal(digits) == i
    ensures i != j ==> Candidate(slug, i) != Candidate(slug, j)
  {
    DigitsReadBack(i);
    DigitsReadBack(j);
    if i > 0 {
      assert Candidate(slug, i) == slug + "-" + Digits(i);
      assert Candidate(slug, i)[|slug| + 1..] == Digits(i);
    }
    if j > 0 {
      assert Candidate(slug, j)[|slug| + 1..] == Digits(j);
    }
  }

  function Decimal(digits: string): int {
    if digits == "" then 0 else 10 * Decimal(Init(digits)) + (Last(digits) as int - '0' as int)
  }

  // ---------- ownership ----------

  /** A transfer succeeds exactly when the organization is there and active, the caller owns it,
      and the target is an active member but not its owner; the errors come in this order. Then
      the target is its owner in both places and the former owner an admin; nobody else's
      membership and no other table change. */
  lemma TransferEffect(s: Tables, orgId: Id, from: Id, to: Id)
    requires Inv(s)
    ensures var out := Apply(s, Transfer(orgId, from, to));
            && out.error == (
                 if orgId !in s.orgs || !s.orgs[orgId].active then Some(NoRows)
                 else if s.orgs[orgId].ownerUserId != from then Some(NotOwner)
                 else if forall role :: !Belongs(s, orgId, to, role, true) then Some(TargetNotMember)
                 else if Belongs(s, orgId, to, Owner, true) then Some(TargetAlreadyOwner)
                 else None)
            && (out.error.Some? ==> out.tables == s)
            && (out.error == None ==>
                  && out.tables == s.(orgs := s.orgs[orgId := s.orgs[orgId].(ownerUserId := to)], members := out.tables.members)
                  && (forall o, r, a :: Belongs(out.tables, o, to, r, a) <==> o == orgId && r == Owner && a)
                  && (forall o, r, a :: Belongs(out.tables, o, from, r, a) <==> o == orgId && r == Admin && a)
                  && (forall o, u, r, a :: u != from && u != to ==>
                        (Belongs(out.tables, o, u, r, a) <==> Belongs(s, o, u, r, a))))
  {
    TransferDecided(s, orgId, from, to);
    if Apply(s, Transfer(orgId, from, to)).error == None {
      var s' := Apply(s, Transfer(orgId, from, to)).tables;
      hide Transferred, OneOwner;
      var m, n := TransferFinds(s, orgId, from, to);
      OwnerIsActive(s, orgId, m);
      assert m in RowsOf(s, orgId, from) && n in RowsOf(s, orgId, to);
      var demoted := s.(members := s.members[m := s.members[m].(role := Admin)]);
      hide Inv, RowsOf, IsOwnerRow, Belongs;
      OneOrgStays(s, demoted, m);
      OneRowRewritten(s, demoted, m, s.members[m].(role := Admin));
      OneRowRewritten(demoted, s', n, s.members[n].(role := Owner));
    }
  }

  lemma OneOrgStays(s: Tables, s': Tables, m: Id)
    requires Inv(s) && m in s.members && s'.members == s.members[m := s.members[m].(role := Admin)]
    ensures OneOrgEach(s) && OneOrgEach(s')
  {
    hide OneOwner;
  }

  lemma TransferDecided(s: Tables, orgId: Id, from: Id, to: Id)
    requires OneOrgEach(s)
    ensures Transferred(s, orgId, from, to).error == (
              if orgId !in s.orgs || !s.orgs[orgId].active then Some(NoRows)
              else if s.orgs[orgId].ownerUserId != from then Some(NotOwner)
              else if forall role :: !Belongs(s, orgId, to, role, true) then Some(TargetNotMember)
              else if Belongs(s, orgId, to, Owner, true) then Some(TargetAlreadyOwner)
              else None)
    ensures Transferred(s, orgId, from, to).error.Some? ==> Transferred(s, orgId, from, to).tables == s
  {
    var target := RowsOf(s, orgId, to) * ActiveMembers(s, orgId);
    if target != {} {
      var m := SomeElement(target);
      RowBelongs(s, m);
    }
    if role :| Belongs(s, orgId, to, role, true) {
      var m :| m in s.members && s.members[m] == Membership(orgId, to, role, true);
      assert m in target;
    }
    assert (exists m :: m in target && s.members[m].role.Owner?) <==> Belongs(s, orgId, to, Owner, true);
  }

  // ---------- deletions and settings ----------

  /** The tables without these organizations: their members and invites go with them, their
      webhooks stay with their users and outside any organization. */
  ghost predicate WithoutOrgs(s: Tables, s': Tables, gone: set<Id>) {
    && s'.orgs == s.orgs - gone
    && (forall o, u, r, a :: Belongs(s', o, u, r, a) <==> Belongs(s, o, u, r, a) && o !in gone)
    && (forall i, inv :: (i in s'.invites && s'.invites[i] == inv) <==> i in s.invites && s.invites[i] == inv && inv.orgId !in gone)
    && s'.webhooks.Keys == s.webhooks.Keys
    && (forall w :: w in s.webhooks ==>
          s'.webhooks[w] == s.webhooks[w].(
            orgId := if s.webhooks[w].orgId.Some? && s.webhooks[w].orgId.value in gone then None else s.webhooks[w].orgId))
    && s'.users == s.users && s'.nextId == s.nextId
  }

  lemma DeletedAreGone(s: Tables, gone: set<Id>)
    ensures WithoutOrgs(s, OrgsDeleted(s, gone), gone)
  {
    var s' := OrgsDeleted(s, gone);
    forall o, u, r, a ensures Belongs(s', o, u, r, a) <==> Belongs(s, o, u, r, a) && o !in gone {
      if m :| m in s.members && s.members[m] == Membership(o, u, r, a) && o !in gone {
        assert s'.members[m] == s.members[m];
      }
    }
  }

  /** An organization that exists can be deleted, alone. */
  lemma OrgDeletionEffect(s: Tables, orgId: Id)
    ensures var out := Apply(s, DeleteOrg(orgId));
            && (orgId !in s.orgs ==> out == Outcome(s, Some(NoRows)))
            && (orgId in s.orgs ==> out.error == None && WithoutOrgs(s, out.tables, {orgId}))
  {
    hide OrgsDeleted, WithoutOrgs;
    DeletedAreGone(s, {orgId});
  }

  /** A user is deleted exactly when nothing outside names them and every invite they sent is
      for an organization of their own; their organizations go with them, with their own
      memberships and webhooks, and everything else stays. */
  lemma UserDeletionEffect(s: Tables, userId: Id, referenced: bool)
    ensures var out := Apply(s, DeleteUser(userId, referenced));
            var own := set o | o in s.orgs && s.orgs[o].ownerUserId == userId;
            && out.error == (
                 if userId !in s.users then Some(NoRows)
                 else if referenced || exists i :: i in s.invites && s.invites[i].invitedBy == userId && s.invites[i].orgId !in own
                 then Some(ConstraintViolated) else None)
            && (out.error.Some? ==> out.tables == s)
            && (out.error == None ==>
                  exists left :: && WithoutOrgs(s, left, own)
                                 && out.tables == left.(users := s.users - {userId}, members := out.tables.members, webhooks := out.tables.webhooks)
                                 && (forall o, u, r, a :: Belongs(out.tables, o, u, r, a) <==> Belongs(left, o, u, r, a) && u != userId)
                                 && (forall w, hook :: (w in out.tables.webhooks && out.tables.webhooks[w] == hook) <==>
                                       w in left.webhooks && left.webhooks[w] == hook && hook.userId != userId))
  {
    var own := OwnedBy(s, userId);
    var out := Apply(s, DeleteUser(userId, referenced));
    var left := OrgsDeleted(s, own);
    DeletedAreGone(s, own);
    hide OrgsDeleted, WithoutOrgs;
    if out.error == None {
      forall o, u, r, a ensures Belongs(out.tables, o, u, r, a) <==> Belongs(left, o, u, r, a) && u != userId {
        if m :| m in left.members && left.members[m] == Membership(o, u, r, a) && u != userId {
          assert out.tables.members[m] == left.members[m];
        }
      }
      assert WithoutOrgs(s, left, own);
    }
  }

  /** Suspending, resuming and resizing change one column of one organization; a limit is from 1
      to 1000. */
  lemma SettingsEffect(s: Tables, orgId: Id, active: bool, seatLimit: int)
    ensures var out := Apply(s, SetOrgStatus(orgId, active));
            && (orgId !in s.orgs ==> out == Outcome(s, Some(NoRows)))
            && (orgId in s.orgs ==> out == Outcome(s.(orgs := s.orgs[orgId := s.orgs[orgId].(active := active)]), None))
    ensures var out := Apply(s, SetSeatLimit(orgId, seatLimit));
            && (orgId !in s.orgs ==> out == Outcome(s, Some(NoRows)))
            && (orgId in s.orgs && !(1 <= seatLimit <= 1000) ==> out == Outcome(s, Some(ConstraintViolated)))
            && (orgId in s.orgs && 1 <= seatLimit <= 1000 ==>
                  out == Outcome(s.(orgs := s.orgs[orgId := s.orgs[orgId].(seatLimit := seatLimit)]), None))
  {
  }

  /** No invite to a suspended organization, or to one without a free seat, is accepted. */
  lemma ClosedOrgsAcceptNobody(s: Tables, orgId: Id, seatLimit: int, inviteId: Id, userId: Id, email: string, active: bool, now: int)
    requires orgId in s.orgs && inviteId in s.invites && s.invites[inviteId].orgId == orgId
    requires IsOpen(s.invites[inviteId]) && now <= s.invites[inviteId].expiresAt
    ensures Apply(Apply(s, SetOrgStatus(orgId, false)).tables, AcceptInvite(inviteId, userId, email, active, now)).error == Some(OrgNotActive)
    ensures s.orgs[orgId].active && 1 <= seatLimit <= 1000 && SeatsTaken(s, orgId) >= seatLimit ==>
              Apply(Apply(s, SetSeatLimit(orgId, seatLimit)).tables, AcceptInvite(inviteId, userId, email, active, now)).error ==
              Some(SeatLimitReached)
  {
    var s' := Apply(s, SetSeatLimit(orgId, seatLimit)).tables;
    SettingsEffect(s, orgId, false, seatLimit);
    assert SeatsTaken(s, orgId) == |ActiveMembers(s, orgId)|;
    assert ActiveMembers(s', orgId) == ActiveMembers(s, orgId);
  }
}
