/** The store transactions as the sequences of SQL statements they send. A statement stands for one
    round trip together with the branch the caller takes on its answer. */
module Statements {
  import opened Tables
  import opened Transactions

  datatype Stmt =
    | LockOrganization(org: OrgId)                      // SELECT ... FOR UPDATE
    | InsertOrganization(org: OrgId, name: string)
    | StopIfMember(org: OrgId)
    | RequireMember(org: OrgId)
    | RefuseSuspended(org: OrgId)
    | GuardLastActive(org: OrgId, next: Option<MembershipStatus>)
    | InsertMembership(org: OrgId, status: MembershipStatus)
    | UpdateMembership(org: OrgId, status: MembershipStatus)
    | DeleteMembership(org: OrgId)
    | ActivateMembership(org: OrgId)
    | ConsumeInvite(invite: InviteId, org: OrgId, at: Time)
    | RevokeOneInvite(invite: InviteId, org: OrgId)
    | RevokePendingInvites(org: OrgId, email: string)
    | InsertInvite(invite: InviteId, draft: Draft)
    | InsertUser(user: UserId, contact: Contact, at: Time)
    | InsertSignupUser(user: UserId, signup: Signup, at: Time)
    | ReissueUser(email: string, password: Digest, displayName: string)
    | VerifyUser(at: Time)
    | EmitUserCreated
    | EmitOrgCreated(org: OrgId, name: string)
    | EmitAdded(org: OrgId, status: MembershipStatus)
    | EmitSuspended(org: OrgId, status: MembershipStatus)
    | EmitRemoved(org: OrgId)

  /** The caller's local variables: the user acted on and the membership status read. */
  datatype Regs = Regs(user: UserId, current: Option<MembershipStatus>)

  /** One uncommitted change. */
  datatype Change =
    | Nothing
    | PutOrg(org: OrgId, name: string)
    | PutMember(key: (OrgId, UserId), status: Option<MembershipStatus>)
    | PutInvites(rows: map<InviteId, Invite>)
    | PutUser(user: UserId, row: User)
    | PutContact(user: UserId, row: User, contact: Contact)

  datatype Reply =
    | Go(change: Change, events: seq<Event>, regs: Regs)
    | Stop(keep: bool, outcome: Outcome)               // COMMIT or ROLLBACK, and what the caller is told

  /** The uncommitted changes of a transaction. A membership mapped to None is deleted. */
  datatype Writes = Writes(
    orgs: map<OrgId, string>,
    members: map<(OrgId, UserId), Option<MembershipStatus>>,
    invites: map<InviteId, Invite>,
    users: map<UserId, User>,
    index: map<Contact, UserId>,
    events: seq<Event>)

  const NO_WRITES := Writes(map[], map[], map[], map[], map[], [])

  function OverlayMembers(m: Members, w: map<(OrgId, UserId), Option<MembershipStatus>>): Members {
    map k | k in m.Keys + w.Keys && (k in w ==> w[k].Some?) :: if k in w then w[k].value else m[k]
  }

  /** What a transaction sees: the committed rows under its own writes. */
  function Overlay(db: Db, w: Writes): Db {
    Db(db.orgs + w.orgs, OverlayMembers(db.members, w.members), db.invites + w.invites,
       db.users + w.users, db.index + w.index)
  }

  function Record(w: Writes, c: Change, events: seq<Event>): Writes {
    var w := w.(events := w.events + events);
    match c
    case Nothing => w
    case PutOrg(o, n) => w.(orgs := w.orgs[o := n])
    case PutMember(k, s) => w.(members := w.members[k := s])
    case PutInvites(rows) => w.(invites := w.invites + rows)
    case PutUser(u, row) => w.(users := w.users[u := row])
    case PutContact(u, row, contact) => w.(users := w.users[u := row], index := w.index[contact := u])
  }

  function Perform(db: Db, c: Change): Db {
    match c
    case Nothing => db
    case PutOrg(o, n) => db.(orgs := db.orgs[o := n])
    case PutMember(k, s) =>
      db.(members := if s.Some? then db.members[k := s.value] else db.members - {k})
    case PutInvites(rows) => db.(invites := db.invites + rows)
    case PutUser(u, row) => db.(users := db.users[u := row])
    case PutContact(u, row, contact) => db.(users := db.users[u := row], index := db.index[contact := u])
  }

  lemma OverlayPut<K, V>(m: map<K, V>, w: map<K, V>, k: K, v: V)
    ensures m + w[k := v] == (m + w)[k := v]
  {
  }

  lemma OverlayMerge<K, V>(m: map<K, V>, w: map<K, V>, rows: map<K, V>)
    ensures m + (w + rows) == m + w + rows
  {
  }

  lemma OverlayMember(m: Members, w: map<(OrgId, UserId), Option<MembershipStatus>>, k: (OrgId, UserId),
                      s: Option<MembershipStatus>)
    ensures OverlayMembers(m, w[k := s])
         == if s.Some? then OverlayMembers(m, w)[k := s.value] else OverlayMembers(m, w) - {k}
  {
  }

  /** A transaction sees its own changes as if they had been made in place. */
  lemma OverlayRecord(db: Db, w: Writes, c: Change, events: seq<Event>)
    ensures Overlay(db, Record(w, c, events)) == Perform(Overlay(db, w), c)
  {
    hide OverlayMembers;
    match c
    case Nothing =>
    case PutOrg(o, n) => OverlayPut(db.orgs, w.orgs, o, n);
    case PutMember(k, s) => OverlayMember(db.members, w.members, k, s);
    case PutInvites(rows) => OverlayMerge(db.invites, w.invites, rows);
    case PutUser(u, row) => OverlayPut(db.users, w.users, u, row);
    case PutContact(u, row, contact) =>
      OverlayPut(db.users, w.users, u, row);
      OverlayPut(db.index, w.index, contact, u);
  }

  lemma OverlayNothing(db: Db)
    ensures Overlay(db, NO_WRITES) == db
  {
    assert OverlayMembers(db.members, map[]) == db.members;
  }

  // ---- one statement --------------------------------------------------------

  /** The answer of one statement on what the transaction sees. */
  function Exec(s: Stmt, v: Db, r: Regs): Reply {
    match s
    case LockOrganization(o) => OnLock(v, r, o)
    case InsertOrganization(o, n) => OnInsertOrganization(v, r, o, n)
    case StopIfMember(o) => OnStopIfMember(v, r, o)
    case RequireMember(o) => OnRequireMember(v, r, o)
    case RefuseSuspended(o) => OnRefuseSuspended(v, r, o)
    case GuardLastActive(o, next) => OnGuard(v, r, o, next)
    case InsertMembership(o, st) => OnInsertMembership(v, r, o, st)
    case UpdateMembership(o, st) => OnUpdateMembership(v, r, o, st)
    case DeleteMembership(o) => Go(PutMember((o, r.user), None), [], r)
    case ActivateMembership(o) => OnActivate(v, r, o)
    case ConsumeInvite(i, o, at) => OnConsume(v, r, i, o, at)
    case RevokeOneInvite(i, o) => OnRevokeOne(v, r, i, o)
    case RevokePendingInvites(o, e) => OnRevokePending(v, r, o, e)
    case InsertInvite(i, d) => OnInsertInvite(v, r, i, d)
    case InsertUser(u, c, at) => OnInsertUser(v, r, u, c, at)
    case InsertSignupUser(u, p, at) => OnInsertSignupUser(v, r, u, p, at)
    case ReissueUser(e, p, n) => OnReissue(v, r, e, p, n)
    case VerifyUser(at) => OnVerify(v, r)
    case EmitUserCreated => Go(Nothing, [UserCreated(r.user)], r)
    case EmitOrgCreated(o, n) => Go(Nothing, [OrgCreated(o, n)], r)
    case EmitAdded(o, st) => Go(Nothing, [MembershipAdded(o, r.user, st)], r)
    case EmitSuspended(o, st) =>
      Go(Nothing, if st == Suspended && r.current != Some(Suspended) then [MembershipSuspended(o, r.user)] else [], r)
    case EmitRemoved(o) =>
      Go(Nothing, if r.current.Some? then [MembershipRemoved(o, r.user, r.current.value)] else [], r)
  }

  function OnLock(v: Db, r: Regs, o: OrgId): Reply {
    if o in v.orgs then Go(Nothing, [], r) else Stop(false, OrgNotFound)
  }

  function OnInsertOrganization(v: Db, r: Regs, o: OrgId, n: string): Reply {
    if o in v.orgs then Stop(false, Violation) else Go(PutOrg(o, n), [], r)
  }

  function OnStopIfMember(v: Db, r: Regs, o: OrgId): Reply {
    if (o, r.user) in v.members then Stop(true, Done) else Go(Nothing, [], r)
  }

  function OnRequireMember(v: Db, r: Regs, o: OrgId): Reply {
    if (o, r.user) !in v.members then Stop(false, NotMember)
    else Go(Nothing, [], r.(current := Some(v.members[(o, r.user)])))
  }

  function OnRefuseSuspended(v: Db, r: Regs, o: OrgId): Reply {
    if v.StatusOf(o, r.user) == Some(Suspended) then Stop(false, SuspendedMember) else Go(Nothing, [], r)
  }

  function OnGuard(v: Db, r: Regs, o: OrgId, next: Option<MembershipStatus>): Reply {
    if next != Some(Active) && r.current == Some(Active) && |v.ActiveMembers(o)| <= 1
    then Stop(false, LastActiveMember) else Go(Nothing, [], r)
  }

  function OnInsertMembership(v: Db, r: Regs, o: OrgId, st: MembershipStatus): Reply {
    if (o, r.user) in v.members then Go(Nothing, [], r)
    else if r.user !in v.users || o !in v.orgs then Stop(false, Violation)
    else Go(PutMember((o, r.user), Some(st)), [], r)
  }

  function OnUpdateMembership(v: Db, r: Regs, o: OrgId, st: MembershipStatus): Reply {
    if (o, r.user) in v.members then Go(PutMember((o, r.user), Some(st)), [], r) else Go(Nothing, [], r)
  }

  function OnActivate(v: Db, r: Regs, o: OrgId): Reply {
    if (o, r.user) in v.members
    then (if v.members[(o, r.user)] == Invited then Go(PutMember((o, r.user), Some(Active)), [], r)
          else Go(Nothing, [], r))
    else if r.user !in v.users || o !in v.orgs then Stop(false, Violation)
    else Go(PutMember((o, r.user), Some(Active)), [], r)
  }

  function OnConsume(v: Db, r: Regs, i: InviteId, o: OrgId, at: Time): Reply {
    if !v.Pending(i, o) then Stop(false, InviteNotFound)
    else Go(PutInvites(map[i := v.invites[i].(status := Accepted, acceptedAt := Some(at))]), [], r)
  }

  function OnRevokeOne(v: Db, r: Regs, i: InviteId, o: OrgId): Reply {
    if !v.Pending(i, o) then Stop(false, InviteNotFound)
    else Go(PutInvites(map[i := v.invites[i].(status := Revoked)]), [], r)
  }

  function OnRevokePending(v: Db, r: Regs, o: OrgId, e: string): Reply {
    Go(PutInvites(RevokedRows(v, o, e)), [], r)
  }

  function OnInsertInvite(v: Db, r: Regs, i: InviteId, d: Draft): Reply {
    if i in v.invites || TokenTaken(v, d.tokenHash) || v.PendingFor(d.org, d.email) != {}
       || d.inviter !in v.users || d.org !in v.orgs
    then Stop(false, Violation)
    else Go(PutInvites(map[i := d.Row()]), [], r)
  }

  function OnInsertUser(v: Db, r: Regs, u: UserId, c: Contact, at: Time): Reply {
    if u in v.users || c in v.index then Stop(false, Violation)
    else Go(PutContact(u, NewAccount(c, at), c), [], r)
  }

  function OnInsertSignupUser(v: Db, r: Regs, u: UserId, p: Signup, at: Time): Reply {
    if ByEmail(p.email) in v.index then Stop(true, Duplicate)
    else if u in v.users then Stop(false, Violation)
    else Go(PutContact(u, p.Row(at), ByEmail(p.email)), [], r)
  }

  function OnReissue(v: Db, r: Regs, e: string, p: Digest, n: string): Reply {
    if !Reissuable(v, e) then Stop(false, NotPending)
    else
      var u := v.index[ByEmail(e)];
      Go(PutUser(u, v.users[u].(password := Some(p), displayName := n)), [], r.(user := u))
  }

  function OnVerify(v: Db, r: Regs): Reply {
    if r.user !in v.users || !v.users[r.user].Unverified() then Stop(false, NotPending)
    else Go(PutUser(r.user, v.users[r.user].(status := UserActive, emailVerified := true)), [], r)
  }

  predicate Reissuable(v: Db, email: string) {
    && ByEmail(email) in v.index && v.index[ByEmail(email)] in v.users
    && v.users[v.index[ByEmail(email)]].Unverified()
  }

  // ---- whole transactions ---------------------------------------------------

  function AdmitStmts(id: InviteId, org: OrgId, at: Time): seq<Stmt> {
    [ConsumeInvite(id, org, at), ActivateMembership(org), EmitAdded(org, Active)]
  }

  function JoinStmts(id: InviteId, org: OrgId, at: Time): seq<Stmt> {
    [LockOrganization(org)] + AdmitStmts(id, org, at)
  }

  function NewOrgStmts(org: OrgId, name: string): seq<Stmt> {
    [InsertOrganization(org, name), InsertMembership(org, Active), EmitOrgCreated(org, name),
     EmitAdded(org, Active)]
  }

  function JoinPart(accepting: Option<(InviteId, OrgId)>, at: Time): seq<Stmt> {
    if accepting.Some? then JoinStmts(accepting.value.0, accepting.value.1, at) else []
  }

  function NewOrgPart(newOrg: Option<(OrgId, string)>): seq<Stmt> {
    if newOrg.Some? then NewOrgStmts(newOrg.value.0, newOrg.value.1) else []
  }

  function Script(req: Request): seq<Stmt> {
    match req
    case CreateOrg(o, n, _) => NewOrgStmts(o, n)
    case AddMember(o, _, st) =>
      [LockOrganization(o), StopIfMember(o), InsertMembership(o, st), EmitAdded(o, st)]
    case UpdateMemberStatus(o, _, st) =>
      [LockOrganization(o), RequireMember(o), GuardLastActive(o, Some(st)), UpdateMembership(o, st),
       EmitSuspended(o, st)]
    case RemoveMember(o, _) =>
      [LockOrganization(o), RequireMember(o), GuardLastActive(o, None), DeleteMembership(o), EmitRemoved(o)]
    case CreateInvite(i, d) => [LockOrganization(d.org), RevokePendingInvites(d.org, d.email), InsertInvite(i, d)]
    case AcceptInvite(i, o, _, at) => [LockOrganization(o), RefuseSuspended(o)] + AdmitStmts(i, o, at)
    case RevokeInvite(o, i) => [RevokeOneInvite(i, o)]
    case CreateUser(u, c, at) => [InsertUser(u, c, at), EmitUserCreated]
    case CreateSignupUser(u, p, newOrg, accepting, at) =>
      [InsertSignupUser(u, p, at)] + ([EmitUserCreated] + (JoinPart(accepting, at) + NewOrgPart(newOrg)))
    case ReissueSignup(e, p, n, accepting, at) =>
      [ReissueUser(e, p, n)] + (if accepting.Some? then [VerifyUser(at)] + JoinPart(accepting, at) else [])
    case VerifySignup(_, at) => [VerifyUser(at)]
  }

  function Start(req: Request): Regs {
    Regs(match req
         case CreateOrg(_, _, u) => u
         case AddMember(_, u, _) => u
         case UpdateMemberStatus(_, u, _) => u
         case RemoveMember(_, u) => u
         case AcceptInvite(_, _, u, _) => u
         case CreateUser(u, _, _) => u
         case CreateSignupUser(u, _, _, _, _) => u
         case VerifySignup(u, _) => u
         case _ => "",
         None)
  }

  datatype Progress =
    | Running(w: Writes, regs: Regs)
    | Stopped(keep: bool, outcome: Outcome, w: Writes)

  /** One more statement over the committed rows `db`. */
  function Advance(s: Stmt, db: Db, w: Writes, r: Regs): Progress {
    match Exec(s, Overlay(db, w), r)
    case Go(c, events, r') => Running(Record(w, c, events), r')
    case Stop(keep, outcome) => Stopped(keep, outcome, w)
  }

  /** The first `k` statements, all over the same committed rows. */
  function Run(script: seq<Stmt>, k: nat, db: Db, r: Regs): Progress
    requires k <= |script|
  {
    if k == 0 then Running(NO_WRITES, r)
    else
      match Run(script, k - 1, db, r)
      case Stopped(keep, outcome, w) => Stopped(keep, outcome, w)
      case Running(w, r') => Advance(script[k - 1], db, w, r')
  }

  /** The tables and answer a finished run leaves. */
  function Finish(db: Db, p: Progress): Result {
    match p
    case Running(w, _) => Result(Overlay(db, w), Done, w.events)
    case Stopped(keep, outcome, w) =>
      if keep then Result(Overlay(db, w), outcome, w.events) else Result(db, outcome, [])
  }

  function Alone(db: Db, req: Request): Result {
    Finish(db, Run(Script(req), |Script(req)|, db, Start(req)))
  }
}
