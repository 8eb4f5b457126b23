/** The declared constraints of the schema hold after every transaction. */
module Constraints {
  import opened Tables
  import opened Transactions

  lemma SameInvitesKeep(db: Db, db': Db)
    requires db'.invites == db.invites && OnePending(db) && UniqueTokens(db)
    ensures OnePending(db') && UniqueTokens(db')
  {
  }

  /** Settling one invitation in place. */
  lemma SettleKeeps(db: Db, id: InviteId, row: Invite)
    requires OnePending(db) && UniqueTokens(db) && id in db.invites && row.status != Pending
    requires row.tokenHash == db.invites[id].tokenHash
    ensures var db' := db.(invites := db.invites[id := row]); OnePending(db') && UniqueTokens(db')
  {
  }

  lemma InsertContactKeeps(db: Db, u: UserId, row: User, c: Contact)
    requires Indexed(db) && u !in db.users && c !in db.index
    requires forall c' :: HasContact(row, c') <==> c' == c
    ensures Indexed(db.(users := db.users[u := row], index := db.index[c := u]))
  {
    var db' := db.(users := db.users[u := row], index := db.index[c := u]);
    forall u', c' | u' in db'.users && HasContact(db'.users[u'], c')
      ensures c' in db'.index && db'.index[c'] == u'
    {
      if u' != u { assert HasContact(db.users[u'], c'); }
    }
    forall c' | c' in db'.index ensures db'.index[c'] in db'.users && HasContact(db'.users[db'.index[c']], c') {
      if c' != c { assert db.index[c'] in db.users; }
    }
  }

  /** Changing a user without touching their contacts. */
  lemma UpdateUserKeeps(db: Db, u: UserId, row: User)
    requires Indexed(db) && u in db.users && row.email == db.users[u].email && row.mobile == db.users[u].mobile
    ensures Indexed(db.(users := db.users[u := row]))
  {
    var db' := db.(users := db.users[u := row]);
    forall u', c | u' in db'.users && HasContact(db'.users[u'], c)
      ensures c in db'.index && db'.index[c] == u'
    {
      assert HasContact(db.users[u'], c);
    }
    forall c | c in db'.index ensures db'.index[c] in db'.users && HasContact(db'.users[db'.index[c]], c) {
      assert HasContact(db.users[db.index[c]], c);
    }
  }

  lemma AdmitKeeps(db: Db, user: UserId, id: InviteId, org: OrgId, at: Time)
    requires WellFormed(db)
    ensures WellFormed(Admit(db, user, id, org, at).db)
  {
    var r := Admit(db, user, id, org, at);
    if r.outcome == Done {
      SettleKeeps(db, id, r.db.invites[id]);
      assert Indexed(r.db);
    }
  }

  lemma CreateOrgKeeps(db: Db, org: OrgId, name: string, creator: UserId)
    requires WellFormed(db)
    ensures WellFormed(DoCreateOrg(db, org, name, creator).db)
  {
    SameInvitesKeep(db, DoCreateOrg(db, org, name, creator).db);
  }

  /** Revoking the pending invitations of an address changes nothing else. */
  lemma RevokedForKeeps(db: Db, org: OrgId, email: string)
    ensures var mid := RevokedFor(db, org, email);
      && mid.Keys == db.invites.Keys
      && (forall i <- mid ::
            && mid[i].tokenHash == db.invites[i].tokenHash && mid[i].org == db.invites[i].org
            && mid[i].email == db.invites[i].email && mid[i].inviter == db.invites[i].inviter
            && (mid[i].status == Pending ==> mid[i] == db.invites[i]))
      && (forall i <- mid | mid[i].status == Pending && mid[i].org == org :: Lower(mid[i].email) != Lower(email))
  {
    hide Lower;
    var mid := RevokedFor(db, org, email);
    forall i | i in mid && mid[i].status == Pending && mid[i].org == org ensures Lower(mid[i].email) != Lower(email) {
      assert db.Pending(i, org);
      assert i !in db.PendingFor(org, email);
    }
  }

  lemma CreateInviteKeeps(db: Db, id: InviteId, d: Draft)
    requires WellFormed(db)
    ensures WellFormed(DoCreateInvite(db, id, d).db)
  {
    hide Lower, RevokedFor;
    var r := DoCreateInvite(db, id, d);
    if r.outcome == Done {
      RevokedForKeeps(db, d.org, d.email);
      assert OnePending(r.db);
      assert !TokenTaken(db, d.tokenHash);
      assert UniqueTokens(r.db);
    }
  }

  lemma InsertAccountKeeps(db: Db, user: UserId, signup: Signup, at: Time)
    requires WellFormed(db) && user !in db.users && ByEmail(signup.email) !in db.index
    ensures WellFormed(InsertAccount(db, user, signup, at).db)
  {
    InsertContactKeeps(db, user, signup.Row(at), ByEmail(signup.email));
    SameInvitesKeep(db, InsertAccount(db, user, signup, at).db);
  }

  lemma SignupKeeps(db: Db, user: UserId, signup: Signup, newOrg: Option<(OrgId, string)>,
                    accepting: Option<(InviteId, OrgId)>, at: Time)
    requires WellFormed(db)
    ensures WellFormed(DoCreateSignupUser(db, user, signup, newOrg, accepting, at).db)
  {
    hide WellFormed, Admit, DoCreateOrg;
    if ByEmail(signup.email) !in db.index && user !in db.users {
      var first := InsertAccount(db, user, signup, at);
      InsertAccountKeeps(db, user, signup, at);
      var mid := first;
      if accepting.Some? {
        AdmitKeeps(first.db, user, accepting.value.0, accepting.value.1, at);
        mid := Then(db, first, JoinByInvite(first.db, user, accepting.value.0, accepting.value.1, at));
      }
      if newOrg.Some? { CreateOrgKeeps(mid.db, newOrg.value.0, newOrg.value.1, user); }
    }
  }

  lemma ReissueKeeps(db: Db, email: string, password: Digest, name: string,
                     accepting: Option<(InviteId, OrgId)>, at: Time)
    requires WellFormed(db)
    ensures WellFormed(DoReissueSignup(db, email, password, name, accepting, at).db)
  {
    hide Admit;
    if ByEmail(email) in db.index && db.users[db.index[ByEmail(email)]].Unverified() {
      var user := db.index[ByEmail(email)];
      var row := db.users[user].(password := Some(password), displayName := name);
      var row' := row.(status := UserActive, emailVerified := true);
      ChangeUserKeeps(db, user, row);
      ChangeUserKeeps(db, user, row');
      if accepting.Some? {
        AdmitKeeps(db.(users := db.users[user := row']), user, accepting.value.0, accepting.value.1, at);
      }
    }
  }

  lemma ChangeUserKeeps(db: Db, u: UserId, row: User)
    requires WellFormed(db) && u in db.users && row.email == db.users[u].email && row.mobile == db.users[u].mobile
    ensures WellFormed(db.(users := db.users[u := row]))
  {
    UpdateUserKeeps(db, u, row);
    SameInvitesKeep(db, db.(users := db.users[u := row]));
  }

  lemma CreateUserKeeps(db: Db, user: UserId, contact: Contact, at: Time)
    requires WellFormed(db)
    ensures WellFormed(DoCreateUser(db, user, contact, at).db)
  {
    var r := DoCreateUser(db, user, contact, at);
    if r.outcome == Done {
      InsertContactKeeps(db, user, NewAccount(contact, at), contact);
      SameInvitesKeep(db, r.db);
    }
  }

  lemma RevokeInviteKeeps(db: Db, org: OrgId, id: InviteId)
    requires WellFormed(db)
    ensures WellFormed(DoRevokeInvite(db, org, id).db)
  {
    var r := DoRevokeInvite(db, org, id);
    if r.outcome == Done {
      SettleKeeps(db, id, r.db.invites[id]);
      assert Indexed(r.db);
    }
  }

  /** Membership changes within the foreign keys. */
  lemma MembersKeep(db: Db, req: Request)
    requires WellFormed(db) && (req.AddMember? || req.UpdateMemberStatus? || req.RemoveMember?)
    ensures WellFormed(Execute(db, req).db)
  {
    var db' := Execute(db, req).db;
    assert db' == db.(members := db'.members) && forall k <- db'.members :: k.0 in db.orgs && k.1 in db.users;
    hide Execute;
    SameInvitesKeep(db, db');
    SameIndexKeeps(db, db');
  }

  lemma SameIndexKeeps(db: Db, db': Db)
    requires Indexed(db) && db'.users == db.users && db'.index == db.index
    ensures Indexed(db')
  {
  }

  /** Foreign keys, unique columns and the one-pending-invitation index survive every transaction. */
  lemma ExecuteKeepsWellFormed(db: Db, req: Request)
    requires WellFormed(db)
    ensures WellFormed(Execute(db, req).db)
  {
    hide WellFormed, Admit, DoCreateOrg, DoCreateInvite, DoRevokeInvite, DoCreateUser, DoCreateSignupUser, DoReissueSignup;
    match req
    case CreateOrg(o, n, u) => CreateOrgKeeps(db, o, n, u);
    case AddMember(_, _, _) => MembersKeep(db, req);
    case UpdateMemberStatus(_, _, _) => MembersKeep(db, req);
    case RemoveMember(_, _) => MembersKeep(db, req);
    case CreateInvite(i, d) => CreateInviteKeeps(db, i, d);
    case AcceptInvite(i, o, u, at) => AdmitKeeps(db, u, i, o, at);
    case RevokeInvite(o, i) => RevokeInviteKeeps(db, o, i);
    case CreateUser(u, c, at) => CreateUserKeeps(db, u, c, at);
    case CreateSignupUser(u, p, newOrg, accepting, at) => SignupKeeps(db, u, p, newOrg, accepting, at);
    case ReissueSignup(e, p, n, accepting, at) => ReissueKeeps(db, e, p, n, accepting, at);
    case VerifySignup(u, at) =>
      if u in db.users {
        ChangeUserKeeps(db, u, db.users[u].(status := UserActive, emailVerified := true));
      }
  }
}
