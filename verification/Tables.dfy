/** The tables of the Postgres store: organizations, memberships, invitations and users,
    with the constraints the migrations declare on them. */
module Tables {
  datatype Option<+T> = None | Some(value: T)

  type OrgId = string
  type UserId = string
  type InviteId = string
  type Time = int

  /** A salted hash of a password or code. The hash is opaque; only `Matches` looks inside. */
  datatype Digest = Digest(preimage: string) {
    predicate Matches(plain: string) { preimage == plain }
  }

  datatype MembershipStatus = Active | Invited | Suspended
  datatype InviteStatus = Pending | Accepted | Revoked
  datatype UserStatus = UserActive | UserDisabled | SignupPending

  /** The unique columns by which a user is looked up. */
  datatype Contact = ByEmail(email: string) | ByMobile(mobile: string)

  datatype User = User(
    email: Option<string>,
    mobile: Option<string>,
    password: Option<Digest>,
    displayName: string,
    status: UserStatus,
    emailVerified: bool,
    createdAt: Time)
  {
    /** The guard shared by the reissue, verify and purge statements. */
    predicate Unverified() { status == SignupPending && !emailVerified }
  }

  datatype Invite = Invite(
    org: OrgId,
    email: string,
    tokenHash: Digest,
    inviter: UserId,
    status: InviteStatus,
    expiresAt: Time,
    acceptedAt: Option<Time>,
    createdAt: Time)

  /** Lifecycle events, as written to the outbox. */
  datatype Event =
    | UserCreated(subject: UserId)
    | OrgCreated(org: OrgId, name: string)
    | MembershipAdded(org: OrgId, user: UserId, status: MembershipStatus)
    | MembershipSuspended(org: OrgId, user: UserId)
    | MembershipRemoved(org: OrgId, user: UserId, status: MembershipStatus)

  type Members = map<(OrgId, UserId), MembershipStatus>

  /** The committed rows. `index` is the pair of unique indexes on users.email and users.mobile. */
  datatype Db = Db(
    orgs: map<OrgId, string>,
    members: Members,
    invites: map<InviteId, Invite>,
    users: map<UserId, User>,
    index: map<Contact, UserId>)
  {
    function StatusOf(org: OrgId, user: UserId): Option<MembershipStatus> {
      if (org, user) in members then Some(members[(org, user)]) else None
    }

    predicate IsActive(org: OrgId, user: UserId) {
      StatusOf(org, user) == Some(Active)
    }

    function ActiveMembers(org: OrgId): set<(OrgId, UserId)> {
      set k | k in members && k.0 == org && members[k] == Active
    }

    predicate Pending(id: InviteId, org: OrgId) {
      id in invites && invites[id].org == org && invites[id].status == InviteStatus.Pending
    }

    function PendingFor(org: OrgId, email: string): set<InviteId> {
      set i | i in invites && Pending(i, org) && Lower(invites[i].email) == Lower(email)
    }
  }

  const EMPTY_DB := Db(map[], map[], map[], map[], map[])

  /** SQL lower() and strings.EqualFold, on ASCII letters. */
  function Lower(s: string): (r: string)
    ensures |r| == |s|
  {
    seq(|s|, i requires 0 <= i < |s| => if 'A' <= s[i] <= 'Z' then s[i] + 32 as char else s[i])
  }

  /** The rows of one organization, by user. */
  function Rows(members: Members, org: OrgId): map<UserId, MembershipStatus> {
    map k | k in members && k.0 == org :: k.1 := members[k]
  }

  // ---- declared constraints -------------------------------------------------

  /** Foreign keys, primary keys and the unique columns of users. */
  ghost predicate References(db: Db) {
    && (forall k <- db.members :: k.0 in db.orgs && k.1 in db.users)
    && (forall i <- db.invites :: db.invites[i].org in db.orgs && db.invites[i].inviter in db.users)
    && (forall c <- db.index :: db.index[c] in db.users)
  }

  /** A user found through an index carries that email or mobile, and every email or mobile is indexed. */
  ghost predicate Indexed(db: Db) {
    && (forall c <- db.index :: db.index[c] in db.users && HasContact(db.users[db.index[c]], c))
    && (forall u, c | u in db.users && HasContact(db.users[u], c) :: c in db.index && db.index[c] == u)
  }

  predicate HasContact(u: User, c: Contact) {
    match c
    case ByEmail(e) => u.email == Some(e)
    case ByMobile(m) => u.mobile == Some(m)
  }

  /** The partial unique index: one pending invitation per organization and folded address. */
  ghost predicate OnePending(db: Db) {
    forall i, j | i in db.invites && j in db.invites
                  && db.invites[i].status == Pending && db.invites[j].status == Pending
                  && db.invites[i].org == db.invites[j].org
                  && Lower(db.invites[i].email) == Lower(db.invites[j].email) :: i == j
  }

  ghost predicate UniqueTokens(db: Db) {
    forall i, j | i in db.invites && j in db.invites
                  && db.invites[i].tokenHash == db.invites[j].tokenHash :: i == j
  }

  ghost predicate WellFormed(db: Db) {
    References(db) && Indexed(db) && OnePending(db) && UniqueTokens(db)
  }
}
