/** Every organization keeps an active member, and a suspension lasts until the member is removed. */
module Organizations {
  import opened Tables
  import opened Transactions
  import opened Interleaving
  import Constraints

  ghost predicate Staffed(db: Db) {
    forall o <- db.orgs :: HasActive(db, o)
  }

  ghost predicate HasActive(db: Db, o: OrgId) {
    exists u :: db.IsActive(o, u)
  }

  /** Two active members: one of them can go. */
  lemma AnotherActive(db: Db, o: OrgId, u: UserId)
    requires |db.ActiveMembers(o)| > 1
    ensures exists u' :: u' != u && db.IsActive(o, u')
  {
    var rest := db.ActiveMembers(o) - {(o, u)};
    assert rest != {} by {
      if rest == {} {
        assert db.ActiveMembers(o) <= {(o, u)};
        Subset(db.ActiveMembers(o), {(o, u)});
      }
    }
    var k :| k in rest;
    assert k == (o, k.1) && db.IsActive(o, k.1);
  }

  lemma Subset<T>(a: set<T>, b: set<T>)
    requires a <= b
    ensures |a| <= |b|
  {
    if a != {} {
      var x :| x in a;
      Subset(a - {x}, b - {x});
    }
  }

  /** A change of one row keeps an active member unless it takes the last one. */
  lemma RowChangeKeeps(db: Db, o: OrgId, u: UserId, next: Option<MembershipStatus>)
    requires Staffed(db) && !LeavesNoActive(db, o, u, next)
    ensures Staffed(db.(members := if next.Some? then db.members[(o, u) := next.value] else db.members - {(o, u)}))
  {
    hide Db.ActiveMembers;
    var db' := db.(members := if next.Some? then db.members[(o, u) := next.value] else db.members - {(o, u)});
    forall p | p in db'.orgs ensures HasActive(db', p) {
      var w :| db.IsActive(p, w);
      if (p, w) == (o, u) && next != Some(Active) {
        AnotherActive(db, o, u);
        var w' :| w' != u && db.IsActive(o, w');
        assert db'.IsActive(p, w');
      } else {
        assert db'.IsActive(p, w);
      }
    }
  }

  lemma ActivatedKeeps(db: Db, o: OrgId, u: UserId, invites: map<InviteId, Invite>)
    requires Staffed(db)
    ensures Staffed(db.(members := Activated(db.members, o, u), invites := invites))
  {
    var db' := db.(members := Activated(db.members, o, u), invites := invites);
    forall p | p in db'.orgs ensures HasActive(db', p) {
      var w :| db.IsActive(p, w);
      assert db'.IsActive(p, w);
    }
  }

  lemma CreatedKeeps(db: Db, o: OrgId, name: string, u: UserId)
    requires References(db) && Staffed(db)
    ensures Staffed(DoCreateOrg(db, o, name, u).db)
  {
    var r := DoCreateOrg(db, o, name, u);
    forall p | p in r.db.orgs ensures HasActive(r.db, p) {
      if r.outcome == Done && p == o {
        assert r.db.IsActive(o, u);
      } else {
        var w :| db.IsActive(p, w);
        assert r.db.IsActive(p, w);
      }
    }
  }

  /** Only organizations and memberships matter. */
  lemma StaffedFrame(db: Db, db': Db)
    requires Staffed(db) && db'.orgs == db.orgs && db'.members == db.members
    ensures Staffed(db')
  {
    forall p | p in db'.orgs ensures HasActive(db', p) {
      var w :| db.IsActive(p, w);
      assert db'.IsActive(p, w);
    }
  }

  lemma AdmitKeeps(db: Db, user: UserId, id: InviteId, org: OrgId, at: Time)
    requires Staffed(db)
    ensures Staffed(Admit(db, user, id, org, at).db)
  {
    var r := Admit(db, user, id, org, at);
    if r.outcome == Done { ActivatedKeeps(db, org, user, r.db.invites); }
  }

  lemma SignupKeeps(db: Db, user: UserId, signup: Signup, newOrg: Option<(OrgId, string)>,
                    accepting: Option<(InviteId, OrgId)>, at: Time)
    requires WellFormed(db) && Staffed(db)
    ensures Staffed(DoCreateSignupUser(db, user, signup, newOrg, accepting, at).db)
  {
    hide WellFormed, Admit, DoCreateOrg, Staffed;
    if ByEmail(signup.email) !in db.index && user !in db.users {
      var first := InsertAccount(db, user, signup, at);
      StaffedFrame(db, first.db);
      Constraints.InsertAccountKeeps(db, user, signup, at);
      var mid := first;
      if accepting.Some? {
        AdmitKeeps(first.db, user, accepting.value.0, accepting.value.1, at);
        Constraints.AdmitKeeps(first.db, user, accepting.value.0, accepting.value.1, at);
        mid := Then(db, first, JoinByInvite(first.db, user, accepting.value.0, accepting.value.1, at));
      }
      WellFormedRefers(mid.db);
      if newOrg.Some? { CreatedKeeps(mid.db, newOrg.value.0, newOrg.value.1, user); }
    }
  }

  lemma ReissueKeeps(db: Db, email: string, password: Digest, name: string,
                     accepting: Option<(InviteId, OrgId)>, at: Time)
    requires Staffed(db)
    ensures Staffed(DoReissueSignup(db, email, password, name, accepting, at).db)
  {
    hide Admit, Staffed;
    if ByEmail(email) in db.index && db.index[ByEmail(email)] in db.users {
      var user := db.index[ByEmail(email)];
      var row := db.users[user].(password := Some(password), displayName := name);
      var v := db.(users := db.users[user := row.(status := UserActive, emailVerified := true)]);
      StaffedFrame(db, v);
      StaffedFrame(db, db.(users := db.users[user := row]));
      if accepting.Some? { AdmitKeeps(v, user, accepting.value.0, accepting.value.1, at); }
    }
  }

  lemma ExecuteKeepsStaffed(db: Db, req: Request)
    requires WellFormed(db) && Staffed(db)
    ensures Staffed(Execute(db, req).db)
  {
    hide Admit, DoCreateOrg, DoCreateSignupUser, DoReissueSignup, Staffed, LeavesNoActive;
    match req
    case CreateOrg(o, n, u) => CreatedKeeps(db, o, n, u);
    case AddMember(o, u, st) =>
      if (o, u) !in db.members { NotActive(db, o, u, st); RowChangeKeeps(db, o, u, Some(st)); }
    case UpdateMemberStatus(o, u, st) =>
      if !LeavesNoActive(db, o, u, Some(st)) { RowChangeKeeps(db, o, u, Some(st)); }
    case RemoveMember(o, u) =>
      if !LeavesNoActive(db, o, u, None) { RowChangeKeeps(db, o, u, None); }
    case CreateInvite(i, d) => StaffedFrame(db, Execute(db, req).db);
    case AcceptInvite(i, o, u, at) => AdmitKeeps(db, u, i, o, at);
    case RevokeInvite(o, i) => StaffedFrame(db, Execute(db, req).db);
    case CreateUser(u, c, at) => StaffedFrame(db, Execute(db, req).db);
    case CreateSignupUser(u, p, newOrg, accepting, at) => SignupKeeps(db, u, p, newOrg, accepting, at);
    case ReissueSignup(e, p, n, accepting, at) => ReissueKeeps(db, e, p, n, accepting, at);
    case VerifySignup(u, at) => StaffedFrame(db, Execute(db, req).db);
  }

  lemma NotActive(db: Db, o: OrgId, u: UserId, st: MembershipStatus)
    requires (o, u) !in db.members
    ensures !LeavesNoActive(db, o, u, Some(st))
  {
  }

  lemma {:induction false} SeriallyKeeps(db: Db, history: seq<Finished>)
    requires WellFormed(db) && Staffed(db)
    ensures WellFormed(Serially(db, history).db) && Staffed(Serially(db, history).db)
  {
    hide WellFormed, Staffed, Execute;
    if history != [] {
      var n := |history| - 1;
      SeriallyKeeps(db, history[..n]);
      var before := Serially(db, history[..n]).db;
      Constraints.ExecuteKeepsWellFormed(before, history[n].req);
      ExecuteKeepsStaffed(before, history[n].req);
    }
  }

  /** At every moment of every interleaving, every committed organization has an active member. */
  lemma AlwaysStaffed(db: Db, labels: seq<Label>, s: Sys)
    requires WellFormed(db) && Staffed(db) && Reach(Fresh(db), labels) == Some(s)
    ensures Staffed(s.db)
  {
    hide WellFormed, Staffed, Reach, Inv;
    Serializable(db, labels, s);
    SeriallyKeeps(db, s.history);
  }

  // ---- suspension ---------------------------------------------------------------

  /** The two transactions that may end a suspension. */
  predicate Lifts(req: Request, o: OrgId, u: UserId) {
    || req == RemoveMember(o, u)
    || (req.UpdateMemberStatus? && req.org == o && req.user == u && req.status != Suspended)
  }

  lemma AdmitKeepsSuspended(db: Db, user: UserId, id: InviteId, org: OrgId, at: Time, o: OrgId, u: UserId)
    requires db.StatusOf(o, u) == Some(Suspended)
    ensures Admit(db, user, id, org, at).db.StatusOf(o, u) == Some(Suspended)
  {
  }

  lemma SuspensionLasts(db: Db, req: Request, o: OrgId, u: UserId)
    requires References(db) && db.StatusOf(o, u) == Some(Suspended) && !Lifts(req, o, u)
    ensures Execute(db, req).db.StatusOf(o, u) == Some(Suspended)
  {
    hide Admit, DoCreateSignupUser, DoReissueSignup, RevokedFor, TokenTaken, LeavesNoActive, Consumed;
    match req
    case AcceptInvite(i, org, user, at) => AdmitKeepsSuspended(db, user, i, org, at, o, u);
    case CreateSignupUser(user, p, newOrg, accepting, at) =>
      SignupKeepsSuspended(db, user, p, newOrg, accepting, at, o, u);
    case ReissueSignup(e, p, n, accepting, at) => ReissueKeepsSuspended(db, e, p, n, accepting, at, o, u);
    case _ =>
  }

  lemma SignupKeepsSuspended(db: Db, user: UserId, p: Signup, newOrg: Option<(OrgId, string)>,
                             accepting: Option<(InviteId, OrgId)>, at: Time, o: OrgId, u: UserId)
    requires References(db) && db.StatusOf(o, u) == Some(Suspended)
    ensures DoCreateSignupUser(db, user, p, newOrg, accepting, at).db.StatusOf(o, u) == Some(Suspended)
  {
    hide Admit;
    var first := InsertAccount(db, user, p, at);
    if accepting.Some? {
      AdmitKeepsSuspended(first.db, user, accepting.value.0, accepting.value.1, at, o, u);
    }
  }

  lemma ReissueKeepsSuspended(db: Db, e: string, p: Digest, n: string,
                              accepting: Option<(InviteId, OrgId)>, at: Time, o: OrgId, u: UserId)
    requires db.StatusOf(o, u) == Some(Suspended)
    ensures DoReissueSignup(db, e, p, n, accepting, at).db.StatusOf(o, u) == Some(Suspended)
  {
    hide Admit;
    if accepting.Some? && ByEmail(e) in db.index && db.index[ByEmail(e)] in db.users {
      var user := db.index[ByEmail(e)];
      var row := db.users[user].(password := Some(p), displayName := n);
      var v := db.(users := db.users[user := row.(status := UserActive, emailVerified := true)]);
      AdmitKeepsSuspended(v, user, accepting.value.0, accepting.value.1, at, o, u);
    }
  }

  /** From any point of any interleaving: a member whose suspension has committed, with whatever other
      transactions already under way, stays suspended until a lifting transaction commits after it. */
  lemma SuspendedThroughout(db: Db, labels: seq<Label>, s: Sys, k: nat, o: OrgId, u: UserId)
    requires WellFormed(db) && Reach(Fresh(db), labels) == Some(s) && k <= |s.history|
    requires Serially(db, s.history[..k]).db.StatusOf(o, u) == Some(Suspended)
    requires forall j | k <= j < |s.history| :: !Lifts(s.history[j].req, o, u)
    ensures s.db.StatusOf(o, u) == Some(Suspended)
  {
    hide WellFormed, Reach, Inv, Db.StatusOf, Lifts;
    Serializable(db, labels, s);
    SuspendedFrom(db, s.history, k, o, u);
  }

  lemma {:induction false} SuspendedFrom(db: Db, history: seq<Finished>, k: nat, o: OrgId, u: UserId)
    requires WellFormed(db) && k <= |history|
    requires Serially(db, history[..k]).db.StatusOf(o, u) == Some(Suspended)
    requires forall j | k <= j < |history| :: !Lifts(history[j].req, o, u)
    ensures Serially(db, history).db.StatusOf(o, u) == Some(Suspended)
  {
    hide WellFormed, Execute, Db.StatusOf, Lifts;
    if k == |history| {
      assert history[..k] == history;
    } else {
      var n := |history| - 1;
      assert history[..n][..k] == history[..k];
      SuspendedFrom(db, history[..n], k, o, u);
      SeriallyWellFormed(db, history[..n]);
      WellFormedRefers(Serially(db, history[..n]).db);
      SuspensionLasts(Serially(db, history[..n]).db, history[n].req, o, u);
    }
  }

  lemma {:induction false} SeriallyWellFormed(db: Db, history: seq<Finished>)
    requires WellFormed(db)
    ensures WellFormed(Serially(db, history).db)
  {
    hide WellFormed, Execute;
    if history != [] {
      var n := |history| - 1;
      SeriallyWellFormed(db, history[..n]);
      Constraints.ExecuteKeepsWellFormed(Serially(db, history[..n]).db, history[n].req);
    }
  }
}
