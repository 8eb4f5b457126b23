/** What each store transaction does when it runs alone: the new tables, what the caller is told,
    and the events appended to the outbox. */
module Transactions {
  import opened Tables

  /** A new invitation, before it is stored as pending. */
  datatype Draft = Draft(org: OrgId, email: string, tokenHash: Digest, inviter: UserId,
                         expiresAt: Time, createdAt: Time)
  {
    function Row(): Invite { Invite(org, email, tokenHash, inviter, Pending, expiresAt, None, createdAt) }
  }

  /** A new self-serve account. */
  datatype Signup = Signup(email: string, password: Digest, displayName: string,
                           status: UserStatus, verified: bool)
  {
    function Row(at: Time): User {
      User(Some(email), None, Some(password), displayName, status, verified, at)
    }
  }

  datatype Request =
    | CreateOrg(org: OrgId, name: string, creator: UserId)
    | AddMember(org: OrgId, user: UserId, status: MembershipStatus)
    | UpdateMemberStatus(org: OrgId, user: UserId, status: MembershipStatus)
    | RemoveMember(org: OrgId, user: UserId)
    | CreateInvite(invite: InviteId, draft: Draft)
    | AcceptInvite(invite: InviteId, org: OrgId, user: UserId, at: Time)
    | RevokeInvite(org: OrgId, invite: InviteId)
    | CreateUser(user: UserId, contact: Contact, at: Time)
    | CreateSignupUser(user: UserId, signup: Signup, newOrg: Option<(OrgId, string)>,
                       accepting: Option<(InviteId, OrgId)>, at: Time)
    | ReissueSignup(email: string, password: Digest, displayName: string,
                    accepting: Option<(InviteId, OrgId)>, at: Time)
    | VerifySignup(user: UserId, at: Time)

  datatype Outcome =
    | Done
    | Duplicate          // the address already has an account
    | OrgNotFound
    | NotMember
    | LastActiveMember
    | SuspendedMember    // reported as an invalid invitation
    | InviteNotFound
    | NotPending         // no unverified sign-up matches
    | Violation          // a declared constraint refused the write

  datatype Result = Result(db: Db, outcome: Outcome, events: seq<Event>)

  function Refuse(db: Db, why: Outcome): Result {
    Result(db, why, [])
  }

  // ---- row operations -------------------------------------------------------

  /** INSERT ... ON CONFLICT DO UPDATE ... WHERE status = 'invited'. */
  function Activated(members: Members, org: OrgId, user: UserId): Members {
    if (org, user) in members && members[(org, user)] != Invited then members
    else members[(org, user) := Active]
  }

  function Consumed(invites: map<InviteId, Invite>, id: InviteId, at: Time): map<InviteId, Invite>
    requires id in invites
  {
    invites[id := invites[id].(status := Accepted, acceptedAt := Some(at))]
  }

  function RevokedRows(db: Db, org: OrgId, email: string): map<InviteId, Invite> {
    map i | i in db.PendingFor(org, email) :: db.invites[i].(status := Revoked)
  }

  function RevokedFor(db: Db, org: OrgId, email: string): map<InviteId, Invite> {
    db.invites + RevokedRows(db, org, email)
  }

  function NewAccount(contact: Contact, at: Time): User {
    match contact
    case ByEmail(e) => User(Some(e), None, None, "", UserActive, true, at)
    case ByMobile(m) => User(None, Some(m), None, "", UserActive, false, at)
  }

  /** A lone change of the last active member is what the guard refuses. */
  predicate LeavesNoActive(db: Db, org: OrgId, user: UserId, next: Option<MembershipStatus>) {
    next != Some(Active) && db.IsActive(org, user) && |db.ActiveMembers(org)| <= 1
  }

  // ---- transactions ---------------------------------------------------------

  function Execute(db: Db, req: Request): Result {
    match req
    case CreateOrg(org, name, creator) => DoCreateOrg(db, org, name, creator)
    case AddMember(org, user, status) => DoAddMember(db, org, user, status)
    case UpdateMemberStatus(org, user, status) => DoUpdateMemberStatus(db, org, user, status)
    case RemoveMember(org, user) => DoRemoveMember(db, org, user)
    case CreateInvite(id, draft) => DoCreateInvite(db, id, draft)
    case AcceptInvite(id, org, user, at) => DoAcceptInvite(db, id, org, user, at)
    case RevokeInvite(org, id) => DoRevokeInvite(db, org, id)
    case CreateUser(user, contact, at) => DoCreateUser(db, user, contact, at)
    case CreateSignupUser(user, signup, newOrg, accepting, at) =>
      DoCreateSignupUser(db, user, signup, newOrg, accepting, at)
    case ReissueSignup(email, password, name, accepting, at) =>
      DoReissueSignup(db, email, password, name, accepting, at)
    case VerifySignup(user, at) => DoVerifySignup(db, user, at)
  }

  function DoCreateOrg(db: Db, org: OrgId, name: string, creator: UserId): Result {
    if org in db.orgs || creator !in db.users then Refuse(db, Violation)
    else
      Result(db.(orgs := db.orgs[org := name], members := InsertMember(db.members, org, creator, Active)), Done,
             [OrgCreated(org, name), MembershipAdded(org, creator, Active)])
  }

  /** INSERT ... ON CONFLICT DO NOTHING. */
  function InsertMember(members: Members, org: OrgId, user: UserId, status: MembershipStatus): Members {
    if (org, user) in members then members else members[(org, user) := status]
  }

  function DoAddMember(db: Db, org: OrgId, user: UserId, status: MembershipStatus): Result {
    if org !in db.orgs then Refuse(db, OrgNotFound)
    else if (org, user) in db.members then Result(db, Done, [])
    else if user !in db.users then Refuse(db, Violation)
    else
      Result(db.(members := db.members[(org, user) := status]), Done, [MembershipAdded(org, user, status)])
  }

  function DoUpdateMemberStatus(db: Db, org: OrgId, user: UserId, status: MembershipStatus): Result {
    if org !in db.orgs then Refuse(db, OrgNotFound)
    else if (org, user) !in db.members then Refuse(db, NotMember)
    else if LeavesNoActive(db, org, user, Some(status)) then Refuse(db, LastActiveMember)
    else
      Result(db.(members := db.members[(org, user) := status]), Done,
             if status == Suspended && db.members[(org, user)] != Suspended
             then [MembershipSuspended(org, user)] else [])
  }

  function DoRemoveMember(db: Db, org: OrgId, user: UserId): Result {
    if org !in db.orgs then Refuse(db, OrgNotFound)
    else if (org, user) !in db.members then Refuse(db, NotMember)
    else if LeavesNoActive(db, org, user, None) then Refuse(db, LastActiveMember)
    else
      Result(db.(members := db.members - {(org, user)}), Done,
             [MembershipRemoved(org, user, db.members[(org, user)])])
  }

  predicate TokenTaken(db: Db, token: Digest) {
    exists i :: i in db.invites && db.invites[i].tokenHash == token
  }

  function DoCreateInvite(db: Db, id: InviteId, draft: Draft): Result {
    if draft.org !in db.orgs then Refuse(db, OrgNotFound)
    else if id in db.invites || TokenTaken(db, draft.tokenHash) || draft.inviter !in db.users
    then Refuse(db, Violation)
    else
      Result(db.(invites := RevokedFor(db, draft.org, draft.email)[id := draft.Row()]), Done, [])
  }

  /** Consumes a pending invitation and makes the user an active member. */
  function Admit(db: Db, user: UserId, id: InviteId, org: OrgId, at: Time): Result {
    if !db.Pending(id, org) then Refuse(db, InviteNotFound)
    else if user !in db.users then Refuse(db, Violation)
    else
      Result(db.(invites := Consumed(db.invites, id, at), members := Activated(db.members, org, user)), Done,
             [MembershipAdded(org, user, Active)])
  }

  function DoAcceptInvite(db: Db, id: InviteId, org: OrgId, user: UserId, at: Time): Result {
    if org !in db.orgs then Refuse(db, OrgNotFound)
    else if db.StatusOf(org, user) == Some(Suspended) then Refuse(db, SuspendedMember)
    else Admit(db, user, id, org, at)
  }

  function DoRevokeInvite(db: Db, org: OrgId, id: InviteId): Result {
    if !db.Pending(id, org) then Refuse(db, InviteNotFound)
    else Result(db.(invites := db.invites[id := db.invites[id].(status := Revoked)]), Done, [])
  }

  function DoCreateUser(db: Db, user: UserId, contact: Contact, at: Time): Result {
    if user in db.users || contact in db.index then Refuse(db, Violation)
    else
      Result(db.(users := db.users[user := NewAccount(contact, at)], index := db.index[contact := user]), Done,
             [UserCreated(user)])
  }

  /** Accepts a pending invitation for a user without looking for a suspended row first. */
  function JoinByInvite(db: Db, user: UserId, id: InviteId, org: OrgId, at: Time): Result {
    if org !in db.orgs then Refuse(db, OrgNotFound) else Admit(db, user, id, org, at)
  }

  /** The second transaction part runs on the tables the first one left; a refusal undoes both. */
  function Then(base: Db, first: Result, second: Result): Result {
    if first.outcome != Done then Refuse(base, first.outcome)
    else if second.outcome != Done then Refuse(base, second.outcome)
    else Result(second.db, Done, first.events + second.events)
  }

  function InsertAccount(db: Db, user: UserId, signup: Signup, at: Time): Result {
    Result(db.(users := db.users[user := signup.Row(at)], index := db.index[ByEmail(signup.email) := user]),
           Done, [UserCreated(user)])
  }

  function DoCreateSignupUser(db: Db, user: UserId, signup: Signup, newOrg: Option<(OrgId, string)>,
                              accepting: Option<(InviteId, OrgId)>, at: Time): Result
  {
    if ByEmail(signup.email) in db.index then Result(db, Duplicate, [])
    else if user in db.users then Refuse(db, Violation)
    else
      var first := InsertAccount(db, user, signup, at);
      var second := if accepting.None? then first
                    else Then(db, first, JoinByInvite(first.db, user, accepting.value.0, accepting.value.1, at));
      if newOrg.None? || second.outcome != Done then second
      else Then(db, second, DoCreateOrg(second.db, newOrg.value.0, newOrg.value.1, user))
  }

  function DoReissueSignup(db: Db, email: string, password: Digest, name: string,
                           accepting: Option<(InviteId, OrgId)>, at: Time): Result
  {
    if ByEmail(email) !in db.index then Refuse(db, NotPending)
    else
      var user := db.index[ByEmail(email)];
      if user !in db.users || !db.users[user].Unverified() then Refuse(db, NotPending)
      else
        var row := db.users[user].(password := Some(password), displayName := name);
        if accepting.None? then Result(db.(users := db.users[user := row]), Done, [])
        else
          var verified := row.(status := UserActive, emailVerified := true);
          var join := JoinByInvite(db.(users := db.users[user := verified]), user,
                                   accepting.value.0, accepting.value.1, at);
          if join.outcome != Done then Refuse(db, join.outcome) else join
  }

  function DoVerifySignup(db: Db, user: UserId, at: Time): Result {
    if user !in db.users || !db.users[user].Unverified() then Refuse(db, NotPending)
    else
      Result(db.(users := db.users[user := db.users[user].(status := UserActive, emailVerified := true)]),
             Done, [])
  }
}
