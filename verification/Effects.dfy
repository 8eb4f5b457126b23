/** What each transaction writes and when it succeeds, said of the rows: for every row of every table what it is
    afterwards, and the outcome for every input. */
module Effects {
  import opened Tables
  import opened Transactions
  import Organizations

  /** Nothing was written and nothing announced. */
  predicate Untouched(db: Db, r: Result) { r.db == db && r.events == [] }

  lemma CreateOrgExactly(db: Db, org: OrgId, name: string, creator: UserId)
    requires References(db)
    ensures var r := Execute(db, CreateOrg(org, name, creator));
      if org !in db.orgs && creator in db.users then
        && r.outcome == Done
        && r.db == db.(orgs := db.orgs[org := name], members := db.members[(org, creator) := Active])
        && r.events == [OrgCreated(org, name), MembershipAdded(org, creator, Active)]
      else
        r.outcome == Violation && Untouched(db, r)
  {
  }

  lemma AddMemberExactly(db: Db, org: OrgId, user: UserId, status: MembershipStatus)
    ensures var r := Execute(db, AddMember(org, user, status));
      if org !in db.orgs then r.outcome == OrgNotFound && Untouched(db, r)
      else if (org, user) in db.members then r.outcome == Done && Untouched(db, r)
      else if user !in db.users then r.outcome == Violation && Untouched(db, r)
      else
        && r.outcome == Done && r.db == db.(members := db.members[(org, user) := status])
        && r.events == [MembershipAdded(org, user, status)]
  {
  }

  // ---- the last active member ---------------------------------------------------------------

  /** Somebody else is an active member of the organization. */
  ghost predicate AnotherActive(db: Db, org: OrgId, user: UserId) {
    exists u :: u != user && db.IsActive(org, u)
  }

  lemma GuardMeans(db: Db, org: OrgId, user: UserId, next: Option<MembershipStatus>)
    ensures LeavesNoActive(db, org, user, next) <==>
      next != Some(Active) && db.StatusOf(org, user) == Some(Active) && !AnotherActive(db, org, user)
  {
    var active := db.ActiveMembers(org);
    if |active| > 1 {
      Organizations.AnotherActive(db, org, user);
    }
    if db.IsActive(org, user) && AnotherActive(db, org, user) {
      var u :| u != user && db.IsActive(org, u);
      assert {(org, user), (org, u)} <= active;
      Pair((org, user), (org, u), active);
    }
  }

  lemma Pair(a: (OrgId, UserId), b: (OrgId, UserId), s: set<(OrgId, UserId)>)
    requires a in s && b in s && a != b
    ensures |s| > 1
  {
    assert a in s - {b} && |s - {b}| == |s| - 1;
  }

  lemma UpdateMemberStatusExactly(db: Db, org: OrgId, user: UserId, status: MembershipStatus)
    ensures var r := Execute(db, UpdateMemberStatus(org, user, status));
      if org !in db.orgs then r.outcome == OrgNotFound && Untouched(db, r)
      else if (org, user) !in db.members then r.outcome == NotMember && Untouched(db, r)
      else if db.members[(org, user)] == Active && status != Active && !AnotherActive(db, org, user)
      then r.outcome == LastActiveMember && Untouched(db, r)
      else
        && r.outcome == Done && r.db == db.(members := db.members[(org, user) := status])
        && r.events == if status == Suspended && db.members[(org, user)] != Suspended
                       then [MembershipSuspended(org, user)] else []
  {
    GuardMeans(db, org, user, Some(status));
  }

  lemma RemoveMemberExactly(db: Db, org: OrgId, user: UserId)
    ensures var r := Execute(db, RemoveMember(org, user));
      if org !in db.orgs then r.outcome == OrgNotFound && Untouched(db, r)
      else if (org, user) !in db.members then r.outcome == NotMember && Untouched(db, r)
      else if db.members[(org, user)] == Active && !AnotherActive(db, org, user)
      then r.outcome == LastActiveMember && Untouched(db, r)
      else
        && r.outcome == Done && r.db == db.(members := db.members - {(org, user)})
        && r.events == [MembershipRemoved(org, user, db.members[(org, user)])]
  {
    GuardMeans(db, org, user, None);
  }

  // ---- invitations ----------------------------------------------------------------------------

  /** The row after inviting an address to an organization: a pending invitation of the same organization and folded
      address is revoked, every other row stays. */
  function AfterInviting(row: Invite, org: OrgId, email: string): Invite {
    if row.org == org && row.status == Pending && Lower(row.email) == Lower(email) then row.(status := Revoked) else row
  }

  lemma CreateInviteExactly(db: Db, id: InviteId, d: Draft)
    ensures var r := Execute(db, CreateInvite(id, d));
      if d.org !in db.orgs then r.outcome == OrgNotFound && Untouched(db, r)
      else if id in db.invites || d.inviter !in db.users || exists i <- db.invites :: db.invites[i].tokenHash == d.tokenHash
      then r.outcome == Violation && Untouched(db, r)
      else
        && r.outcome == Done && r.events == [] && r.db == db.(invites := r.db.invites)
        && r.db.invites.Keys == db.invites.Keys + {id}
        && r.db.invites[id] == Invite(d.org, d.email, d.tokenHash, d.inviter, Pending, d.expiresAt, None, d.createdAt)
        && forall i <- db.invites :: r.db.invites[i] == AfterInviting(db.invites[i], d.org, d.email)
  {
    hide Lower;
  }

  /** The membership after joining through an invitation: only an absent or invited row becomes active. */
  function Joined(status: Option<MembershipStatus>): MembershipStatus {
    match status
    case None => Active
    case Some(Invited) => Active
    case Some(s) => s
  }

  /** The invitation is used up and the user has joined; every other row is as before. */
  predicate Joins(db: Db, id: InviteId, org: OrgId, user: UserId, at: Time, after: Db) {
    && id in db.invites
    && after == db.(invites := db.invites[id := db.invites[id].(status := Accepted, acceptedAt := Some(at))],
                    members := db.members[(org, user) := Joined(db.StatusOf(org, user))])
  }

  predicate Open(db: Db, id: InviteId, org: OrgId) {
    id in db.invites && db.invites[id].org == org && db.invites[id].status == Pending
  }

  lemma AdmitExactly(db: Db, user: UserId, id: InviteId, org: OrgId, at: Time)
    ensures var r := Admit(db, user, id, org, at);
      if !Open(db, id, org) then r.outcome == InviteNotFound && Untouched(db, r)
      else if user !in db.users then r.outcome == Violation && Untouched(db, r)
      else r.outcome == Done && Joins(db, id, org, user, at, r.db) && r.events == [MembershipAdded(org, user, Active)]
  {
    var r := Admit(db, user, id, org, at);
    if r.outcome == Done {
      assert r.db.members == db.members[(org, user) := Joined(db.StatusOf(org, user))];
    }
  }

  lemma AcceptInviteExactly(db: Db, id: InviteId, org: OrgId, user: UserId, at: Time)
    ensures var r := Execute(db, AcceptInvite(id, org, user, at));
      if org !in db.orgs then r.outcome == OrgNotFound && Untouched(db, r)
      else if db.StatusOf(org, user) == Some(Suspended) then r.outcome == SuspendedMember && Untouched(db, r)
      else if !Open(db, id, org) then r.outcome == InviteNotFound && Untouched(db, r)
      else if user !in db.users then r.outcome == Violation && Untouched(db, r)
      else r.outcome == Done && Joins(db, id, org, user, at, r.db) && r.events == [MembershipAdded(org, user, Active)]
  {
    hide Admit;
    AdmitExactly(db, user, id, org, at);
  }

  lemma RevokeInviteExactly(db: Db, org: OrgId, id: InviteId)
    ensures var r := Execute(db, RevokeInvite(org, id));
      if Open(db, id, org)
      then r.outcome == Done && r.events == [] && r.db == db.(invites := db.invites[id := db.invites[id].(status := Revoked)])
      else r.outcome == InviteNotFound && Untouched(db, r)
  {
  }

  // ---- accounts -------------------------------------------------------------------------------

  lemma CreateUserExactly(db: Db, user: UserId, contact: Contact, at: Time)
    ensures var r := Execute(db, CreateUser(user, contact, at));
      if user !in db.users && contact !in db.index then
        && r.outcome == Done && r.events == [UserCreated(user)]
        && r.db == db.(users := r.db.users, index := db.index[contact := user])
        && r.db.users == db.users[user :=
             if contact.ByEmail? then User(Some(contact.email), None, None, "", UserActive, true, at)
             else User(None, Some(contact.mobile), None, "", UserActive, false, at)]
      else
        r.outcome == Violation && Untouched(db, r)
  {
  }

  lemma VerifySignupExactly(db: Db, user: UserId, at: Time)
    ensures var r := Execute(db, Request.VerifySignup(user, at));
      if user in db.users && db.users[user].status == SignupPending && !db.users[user].emailVerified then
        && r.outcome == Done && r.events == []
        && r.db == db.(users := db.users[user := db.users[user].(status := UserActive, emailVerified := true)])
      else
        r.outcome == NotPending && Untouched(db, r)
  {
  }

  /** The tables with a new account. */
  function WithAccount(db: Db, user: UserId, p: Signup, at: Time): Db {
    db.(users := db.users[user := User(Some(p.email), None, Some(p.password), p.displayName, p.status, p.verified, at)],
        index := db.index[ByEmail(p.email) := user])
  }

  /** A sign-up without an invitation. */
  lemma SignupExactly(db: Db, user: UserId, p: Signup, newOrg: Option<(OrgId, string)>, at: Time)
    requires References(db)
    ensures var r := Execute(db, CreateSignupUser(user, p, newOrg, None, at));
      if ByEmail(p.email) in db.index then r.outcome == Duplicate && Untouched(db, r)
      else if user in db.users || (newOrg.Some? && newOrg.value.0 in db.orgs)
      then r.outcome == Violation && Untouched(db, r)
      else if newOrg.None?
      then r.outcome == Done && r.db == WithAccount(db, user, p, at) && r.events == [UserCreated(user)]
      else
        var (o, name) := newOrg.value;
        && r.outcome == Done
        && r.db == WithAccount(db, user, p, at).(orgs := db.orgs[o := name], members := db.members[(o, user) := Active])
        && r.events == [UserCreated(user), OrgCreated(o, name), MembershipAdded(o, user, Active)]
  {
    var first := InsertAccount(db, user, p, at);
    if newOrg.Some? && ByEmail(p.email) !in db.index && user !in db.users {
      assert (newOrg.value.0, user) !in db.members;
    }
  }

  /** A sign-up that accepts an invitation. */
  lemma InvitedSignupExactly(db: Db, user: UserId, p: Signup, id: InviteId, org: OrgId, at: Time)
    requires References(db)
    ensures var r := Execute(db, CreateSignupUser(user, p, None, Some((id, org)), at));
      if ByEmail(p.email) in db.index then r.outcome == Duplicate && Untouched(db, r)
      else if user in db.users then r.outcome == Violation && Untouched(db, r)
      else if org !in db.orgs then r.outcome == OrgNotFound && Untouched(db, r)
      else if !Open(db, id, org) then r.outcome == InviteNotFound && Untouched(db, r)
      else
        && r.outcome == Done && Joins(WithAccount(db, user, p, at), id, org, user, at, r.db)
        && r.db.members == db.members[(org, user) := Active]
        && r.events == [UserCreated(user), MembershipAdded(org, user, Active)]
  {
    hide Admit, Joins;
    var first := InsertAccount(db, user, p, at);
    AdmitExactly(first.db, user, id, org, at);
    JoinsNew(db, user, p, id, org, at, Admit(first.db, user, id, org, at).db);
  }

  lemma JoinsNew(db: Db, user: UserId, p: Signup, id: InviteId, org: OrgId, at: Time, after: Db)
    requires References(db)
    ensures Joins(WithAccount(db, user, p, at), id, org, user, at, after) && user !in db.users ==>
      after.members == db.members[(org, user) := Active]
  {
  }

  /** The address leads to an account that is still signing up. */
  predicate SigningUp(db: Db, email: string) {
    && ByEmail(email) in db.index && db.index[ByEmail(email)] in db.users
    && db.users[db.index[ByEmail(email)]].status == SignupPending && !db.users[db.index[ByEmail(email)]].emailVerified
  }

  lemma ReissueExactly(db: Db, email: string, password: Digest, name: string, at: Time)
    ensures var r := Execute(db, ReissueSignup(email, password, name, None, at));
      if SigningUp(db, email) then
        var u := db.index[ByEmail(email)];
        && r.outcome == Done && r.events == []
        && r.db == db.(users := db.users[u := db.users[u].(password := Some(password), displayName := name)])
      else
        r.outcome == NotPending && Untouched(db, r)
  {
  }

  lemma InvitedReissueExactly(db: Db, email: string, password: Digest, name: string, id: InviteId, org: OrgId, at: Time)
    ensures var r := Execute(db, ReissueSignup(email, password, name, Some((id, org)), at));
      if !SigningUp(db, email) then r.outcome == NotPending && Untouched(db, r)
      else if org !in db.orgs then r.outcome == OrgNotFound && Untouched(db, r)
      else if !Open(db, id, org) then r.outcome == InviteNotFound && Untouched(db, r)
      else
        var u := db.index[ByEmail(email)];
        var row := db.users[u].(password := Some(password), displayName := name, status := UserActive, emailVerified := true);
        && r.outcome == Done && Joins(db.(users := db.users[u := row]), id, org, u, at, r.db)
        && r.events == [MembershipAdded(org, u, Active)]
  {
    hide Admit, Joins;
    if SigningUp(db, email) {
      var u := db.index[ByEmail(email)];
      var row := db.users[u].(password := Some(password), displayName := name);
      AdmitExactly(db.(users := db.users[u := row.(status := UserActive, emailVerified := true)]), u, id, org, at);
    }
  }
}
