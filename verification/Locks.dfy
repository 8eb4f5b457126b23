/** Which row locks a statement takes, and why holding them makes its answer stable: while a
    transaction holds its locks, no commit of another transaction changes what it has read. */
module Locks {
  import opened Tables
  import opened Transactions
  import opened Statements

  /** A lockable row or unique-index entry. */
  datatype Key =
    | OrgRow(org: OrgId)
    | InviteRow(invite: InviteId)
    | TokenKey(token: Digest)
    | UserRow(user: UserId)
    | ContactKey(contact: Contact)

  function RowsOf(ids: set<InviteId>): set<Key> {
    set i | i in ids :: InviteRow(i)
  }

  /** The rows a statement locks when it goes through. A statement that stops needs none. */
  function Needs(s: Stmt, v: Db, r: Regs): set<Key> {
    if Exec(s, v, r).Stop? then {}
    else
      match s
      case LockOrganization(o) => {OrgRow(o)}
      case InsertOrganization(o, _) => {OrgRow(o)}
      case ConsumeInvite(i, _, _) => {InviteRow(i)}
      case RevokeOneInvite(i, _) => {InviteRow(i)}
      case RevokePendingInvites(o, e) => RowsOf(v.PendingFor(o, e))
      case InsertInvite(i, d) => {InviteRow(i), TokenKey(d.tokenHash)}
      case InsertUser(u, c, _) => {UserRow(u), ContactKey(c)}
      case InsertSignupUser(u, p, _) => {UserRow(u), ContactKey(ByEmail(p.email))}
      case ReissueUser(e, _, _) => if ByEmail(e) in v.index then {UserRow(v.index[ByEmail(e)])} else {}
      case VerifyUser(_) => {UserRow(r.user)}
      case _ => {}
  }

  // ---- the locking discipline of the scripts --------------------------------

  /** The organization whose memberships, pending invitations or events a statement depends on. */
  function Touches(s: Stmt): Option<OrgId> {
    match s
    case StopIfMember(o) => Some(o)
    case RequireMember(o) => Some(o)
    case RefuseSuspended(o) => Some(o)
    case GuardLastActive(o, _) => Some(o)
    case InsertMembership(o, _) => Some(o)
    case UpdateMembership(o, _) => Some(o)
    case DeleteMembership(o) => Some(o)
    case ActivateMembership(o) => Some(o)
    case RevokePendingInvites(o, _) => Some(o)
    case InsertInvite(_, d) => Some(d.org)
    case EmitOrgCreated(o, _) => Some(o)
    case EmitAdded(o, _) => Some(o)
    case EmitSuspended(o, _) => Some(o)
    case EmitRemoved(o) => Some(o)
    case _ => None
  }

  predicate Takes(s: Stmt, o: OrgId) {
    (s.LockOrganization? || s.InsertOrganization?) && s.org == o
  }

  /** Every statement that touches an organization comes after the one that locks it. */
  ghost predicate Disciplined(script: seq<Stmt>) {
    forall k | 0 <= k < |script| && Touches(script[k]).Some? ::
      exists j :: 0 <= j < k && Takes(script[j], Touches(script[k]).value)
  }

  lemma DisciplinedAppend(a: seq<Stmt>, b: seq<Stmt>)
    requires Disciplined(a) && Disciplined(b)
    ensures Disciplined(a + b)
  {
    hide Touches, Takes;
    var s := a + b;
    forall k | 0 <= k < |s| && Touches(s[k]).Some?
      ensures exists j :: 0 <= j < k && Takes(s[j], Touches(s[k]).value)
    {
      if k < |a| {
        var j :| 0 <= j < k && Takes(a[j], Touches(a[k]).value);
        assert Takes(s[j], Touches(s[k]).value);
      } else {
        var j :| 0 <= j < k - |a| && Takes(b[j], Touches(b[k - |a|]).value);
        assert s[|a| + j] == b[j];
        assert Takes(s[|a| + j], Touches(s[k]).value);
      }
    }
  }

  /** A script that touches at most the organization its first statement takes. */
  lemma DisciplinedFrom(script: seq<Stmt>, o: OrgId)
    requires |script| > 0 && Takes(script[0], o)
    requires forall s <- script :: Touches(s).Some? ==> Touches(s) == Some(o)
    ensures Disciplined(script)
  {
    forall k | 0 <= k < |script| && Touches(script[k]).Some?
      ensures exists j :: 0 <= j < k && Takes(script[j], Touches(script[k]).value)
    {
      assert script[k] in script;
      assert k > 0 && Takes(script[0], Touches(script[k]).value);
    }
  }

  lemma MembershipScripts(req: Request)
    requires req.AddMember? || req.UpdateMemberStatus? || req.RemoveMember?
    ensures Disciplined(Script(req))
  {
    hide Disciplined;
    DisciplinedFrom(Script(req), req.org);
  }

  lemma InviteScripts(req: Request)
    requires req.CreateInvite? || req.AcceptInvite?
    ensures Disciplined(Script(req))
  {
    hide Disciplined;
    DisciplinedFrom(Script(req), if req.CreateInvite? then req.draft.org else req.org);
  }

  lemma OrgScript(req: Request)
    requires req.CreateOrg?
    ensures Disciplined(Script(req))
  {
    hide Disciplined;
    DisciplinedFrom(Script(req), req.org);
  }

  /** Scripts that touch no organization. */
  lemma AccountScripts(req: Request)
    requires req.RevokeInvite? || req.CreateUser? || req.VerifySignup?
    ensures Disciplined(Script(req))
  {
  }

  lemma SignupDisciplined(req: Request)
    requires req.CreateSignupUser?
    ensures Disciplined(Script(req))
  {
    assert Disciplined([EmitUserCreated]) && Disciplined([InsertSignupUser(req.user, req.signup, req.at)]);
    hide Disciplined, JoinPart, NewOrgPart;
    var parts := JoinPart(req.accepting, req.at) + NewOrgPart(req.newOrg);
    PartsDisciplined(req.newOrg, req.accepting, req.at);
    DisciplinedAppend(JoinPart(req.accepting, req.at), NewOrgPart(req.newOrg));
    DisciplinedAppend([EmitUserCreated], parts);
    DisciplinedAppend([InsertSignupUser(req.user, req.signup, req.at)], [EmitUserCreated] + parts);
  }

  lemma ReissueDisciplined(req: Request)
    requires req.ReissueSignup?
    ensures Disciplined(Script(req))
  {
    var first := [ReissueUser(req.email, req.password, req.displayName)];
    assert Disciplined(first) && Disciplined([VerifyUser(req.at)]);
    hide Disciplined, JoinPart;
    PartsDisciplined(None, req.accepting, req.at);
    DisciplinedAppend([VerifyUser(req.at)], JoinPart(req.accepting, req.at));
    DisciplinedAppend(first, [VerifyUser(req.at)] + JoinPart(req.accepting, req.at));
    assert first + [] == first;
  }

  /** Every store transaction locks an organization before it touches it. */
  lemma ScriptsDisciplined(req: Request)
    ensures Disciplined(Script(req))
  {
    hide Disciplined, Script;
    match req
    case CreateOrg(_, _, _) => OrgScript(req);
    case CreateInvite(_, _) => InviteScripts(req);
    case AcceptInvite(_, _, _, _) => InviteScripts(req);
    case CreateSignupUser(_, _, _, _, _) => SignupDisciplined(req);
    case ReissueSignup(_, _, _, _, _) => ReissueDisciplined(req);
    case AddMember(_, _, _) => MembershipScripts(req);
    case UpdateMemberStatus(_, _, _) => MembershipScripts(req);
    case RemoveMember(_, _) => MembershipScripts(req);
    case _ => AccountScripts(req);
  }

  lemma PartsDisciplined(newOrg: Option<(OrgId, string)>, accepting: Option<(InviteId, OrgId)>, at: Time)
    ensures Disciplined(JoinPart(accepting, at)) && Disciplined(NewOrgPart(newOrg))
  {
    if accepting.Some? { DisciplinedFrom(JoinPart(accepting, at), accepting.value.1); }
    if newOrg.Some? { DisciplinedFrom(NewOrgPart(newOrg), newOrg.value.0); }
  }

  // ---- what a set of locks protects -----------------------------------------

  ghost predicate SameAt<K, V>(m: map<K, V>, m': map<K, V>, k: K) {
    (k in m <==> k in m') && (k in m ==> m[k] == m'[k])
  }

  /** The parts of an organization its row lock protects. */
  ghost predicate SameOrg(db: Db, db': Db, o: OrgId) {
    && SameAt(db.orgs, db'.orgs, o)
    && (forall u :: SameAt(db.members, db'.members, (o, u)))
    && (forall i | i in db'.invites && db'.Pending(i, o) :: i in db.invites && db.invites[i] == db'.invites[i])
  }

  /** `db'` may replace `db` under a transaction holding `K`. */
  ghost predicate Agree(db: Db, db': Db, K: set<Key>) {
    && (forall o | OrgRow(o) in K :: SameOrg(db, db', o))
    && (forall i | InviteRow(i) in K :: SameAt(db.invites, db'.invites, i))
    && (forall h | TokenKey(h) in K :: TokenTaken(db, h) == TokenTaken(db', h))
    && (forall u | UserRow(u) in K :: SameAt(db.users, db'.users, u))
    && (forall c | ContactKey(c) in K :: SameAt(db.index, db'.index, c))
    && db.users.Keys <= db'.users.Keys
    && (forall c <- db.index :: c in db'.index && db'.index[c] == db.index[c])
  }

  function EventOrg(e: Event): Option<OrgId> {
    match e
    case UserCreated(_) => None
    case OrgCreated(o, _) => Some(o)
    case MembershipAdded(o, _, _) => Some(o)
    case MembershipSuspended(o, _) => Some(o)
    case MembershipRemoved(o, _, _) => Some(o)
  }

  /** An invitation row written over the stored one keeps its address and only leaves pending. */
  predicate Settles(was: Invite, row: Invite) {
    was.org == row.org && was.email == row.email && was.tokenHash == row.tokenHash && row.status != Pending
  }

  ghost predicate InviteGuarded(i: InviteId, row: Invite, db: Db, K: set<Key>) {
    && InviteRow(i) in K
    && (i in db.invites ==> Settles(db.invites[i], row))
    && (i !in db.invites ==> OrgRow(row.org) in K && TokenKey(row.tokenHash) in K)
  }

  /** Everything a transaction has written is behind a lock it holds. */
  ghost predicate Guarded(w: Writes, db: Db, K: set<Key>) {
    && (forall o <- w.orgs :: OrgRow(o) in K)
    && (forall k <- w.members :: OrgRow(k.0) in K)
    && (forall i <- w.invites :: InviteGuarded(i, w.invites[i], db, K))
    && (forall u <- w.users :: UserRow(u) in K)
    && (forall c <- w.index :: ContactKey(c) in K && c !in db.index)
    && (forall e <- w.events :: EventOrg(e).Some? ==> OrgRow(EventOrg(e).value) in K)
  }
}
