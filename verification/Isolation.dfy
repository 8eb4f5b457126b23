/** The locks of a running transaction isolate it: its statements so far would answer the same on
    whatever the other transactions commit. */
module Isolation {
  import opened Tables
  import opened Transactions
  import opened Statements
  import opened Locks

  // ---- a commit leaves other transactions' rows alone -----------------------

  lemma CommitKeepsOrg(db: Db, w: Writes, K: set<Key>, o: OrgId)
    requires Guarded(w, db, K) && OrgRow(o) !in K
    ensures SameOrg(db, Overlay(db, w), o)
  {
    var db' := Overlay(db, w);
    forall u ensures SameAt(db.members, db'.members, (o, u)) {
      assert (o, u) !in w.members;
    }
    forall i | i in db'.invites && db'.Pending(i, o)
      ensures i in db.invites && db.invites[i] == db'.invites[i]
    {
      assert i in w.invites ==> InviteGuarded(i, w.invites[i], db, K);
    }
  }

  lemma CommitKeepsToken(db: Db, w: Writes, K: set<Key>, h: Digest)
    requires Guarded(w, db, K) && TokenKey(h) !in K
    ensures TokenTaken(db, h) == TokenTaken(Overlay(db, w), h)
  {
    var db' := Overlay(db, w);
    if TokenTaken(db, h) {
      var i :| i in db.invites && db.invites[i].tokenHash == h;
      assert i in w.invites ==> InviteGuarded(i, w.invites[i], db, K);
      assert i in db'.invites && db'.invites[i].tokenHash == h;
    }
    if TokenTaken(db', h) {
      var i :| i in db'.invites && db'.invites[i].tokenHash == h;
      assert i in w.invites ==> InviteGuarded(i, w.invites[i], db, K);
      assert i in db.invites && db.invites[i].tokenHash == h;
    }
  }

  /** What a transaction holding `K` commits is invisible to one holding only other locks. */
  lemma CommitAgrees(db: Db, w: Writes, K: set<Key>, L: set<Key>)
    requires Guarded(w, db, K) && K !! L
    ensures Agree(db, Overlay(db, w), L)
  {
    hide Overlay, OverlayMembers, SameOrg, TokenTaken;
    var db' := Overlay(db, w);
    forall o | OrgRow(o) in L ensures SameOrg(db, db', o) { CommitKeepsOrg(db, w, K, o); }
    forall h | TokenKey(h) in L ensures TokenTaken(db, h) == TokenTaken(db', h) { CommitKeepsToken(db, w, K, h); }
    OverlayRows(db, w);
  }

  lemma OverlayRows(db: Db, w: Writes)
    ensures Overlay(db, w).users == db.users + w.users && Overlay(db, w).index == db.index + w.index
    ensures Overlay(db, w).invites == db.invites + w.invites && Overlay(db, w).orgs == db.orgs + w.orgs
    ensures forall k :: k in Overlay(db, w).members <==> (if k in w.members then w.members[k].Some? else k in db.members)
    ensures forall k <- Overlay(db, w).members ::
              Overlay(db, w).members[k] == if k in w.members then w.members[k].value else db.members[k]
  {
  }

  // ---- a statement answers the same on agreeing rows ------------------------

  lemma SameMember(db: Db, db': Db, w: Writes, o: OrgId, u: UserId)
    requires SameOrg(db, db', o)
    ensures SameAt(Overlay(db, w).members, Overlay(db', w).members, (o, u))
    ensures SameAt(Overlay(db, w).orgs, Overlay(db', w).orgs, o)
  {
    assert SameAt(db.members, db'.members, (o, u));
  }

  lemma SameActive(db: Db, db': Db, w: Writes, o: OrgId)
    requires SameOrg(db, db', o)
    ensures Overlay(db, w).ActiveMembers(o) == Overlay(db', w).ActiveMembers(o)
  {
    var v, v' := Overlay(db, w), Overlay(db', w);
    forall k: (OrgId, UserId) | k.0 == o ensures SameAt(v.members, v'.members, k) {
      SameMember(db, db', w, o, k.1);
      assert k == (o, k.1);
    }
  }

  /** The pending invitations of a locked organization stay as they are once their rows are locked too. */
  lemma SamePending(db: Db, db': Db, w: Writes, o: OrgId, e: string, K: set<Key>)
    requires Agree(db, db', K) && OrgRow(o) in K && RowsOf(Overlay(db, w).PendingFor(o, e)) <= K
    ensures Overlay(db, w).PendingFor(o, e) == Overlay(db', w).PendingFor(o, e)
    ensures forall i <- Overlay(db, w).PendingFor(o, e) ::
              i in Overlay(db', w).invites && Overlay(db, w).invites[i] == Overlay(db', w).invites[i]
  {
    hide Lower, OverlayMembers;
    var v, v' := Overlay(db, w), Overlay(db', w);
    assert SameOrg(db, db', o);
    forall i | i in v.PendingFor(o, e) ensures i in v'.invites && v.invites[i] == v'.invites[i] {
      assert InviteRow(i) in RowsOf(v.PendingFor(o, e));
      assert SameAt(db.invites, db'.invites, i);
    }
    forall i | i in v'.PendingFor(o, e) ensures i in v.PendingFor(o, e) {
      if i !in w.invites { assert db'.Pending(i, o); }
    }
  }

  lemma SameToken(db: Db, db': Db, w: Writes, h: Digest, K: set<Key>)
    requires Agree(db, db', K) && Guarded(w, db, K) && TokenKey(h) in K && TokenTaken(Overlay(db', w), h)
    ensures TokenTaken(Overlay(db, w), h)
  {
    var v, v' := Overlay(db, w), Overlay(db', w);
    var i :| i in v'.invites && v'.invites[i].tokenHash == h;
    if i in w.invites {
      assert v.invites[i].tokenHash == h;
    } else {
      assert TokenTaken(db', h);
      var j :| j in db.invites && db.invites[j].tokenHash == h;
      assert j in w.invites ==> InviteGuarded(j, w.invites[j], db, K);
      assert j in v.invites && v.invites[j].tokenHash == h;
    }
  }

  /** The condition under which a statement that went through is repeatable. */
  ghost predicate Protected(s: Stmt, db: Db, w: Writes, r: Regs, K: set<Key>) {
    && Exec(s, Overlay(db, w), r).Go?
    && Needs(s, Overlay(db, w), r) <= K
    && (Touches(s).Some? ==> OrgRow(Touches(s).value) in K)
  }

  lemma MemberStmtLocal(s: Stmt, db: Db, db': Db, w: Writes, r: Regs, K: set<Key>)
    requires Agree(db, db', K) && Protected(s, db, w, r, K)
    requires s.StopIfMember? || s.RequireMember? || s.RefuseSuspended? || s.GuardLastActive? || s.InsertMembership?
             || s.UpdateMembership? || s.DeleteMembership? || s.ActivateMembership?
    ensures Exec(s, Overlay(db', w), r) == Exec(s, Overlay(db, w), r)
  {
    assert SameOrg(db, db', s.org);
    SameMember(db, db', w, s.org, r.user);
    SameActive(db, db', w, s.org);
    hide OverlayMembers, SameOrg, Db.ActiveMembers;
    assert r.user in Overlay(db, w).users ==> r.user in Overlay(db', w).users;
  }

  lemma OrgStmtLocal(s: Stmt, db: Db, db': Db, w: Writes, r: Regs, K: set<Key>)
    requires Agree(db, db', K) && Protected(s, db, w, r, K)
    requires s.LockOrganization? || s.InsertOrganization?
    ensures Exec(s, Overlay(db', w), r) == Exec(s, Overlay(db, w), r)
  {
    assert OrgRow(s.org) in K;
    assert SameOrg(db, db', s.org);
  }

  lemma InviteRowLocal(s: Stmt, db: Db, db': Db, w: Writes, r: Regs, K: set<Key>)
    requires Agree(db, db', K) && Protected(s, db, w, r, K) && (s.ConsumeInvite? || s.RevokeOneInvite?)
    ensures Exec(s, Overlay(db', w), r) == Exec(s, Overlay(db, w), r)
    ensures Needs(s, Overlay(db', w), r) == Needs(s, Overlay(db, w), r)
  {
    hide OverlayMembers, Db.PendingFor, TokenTaken, SameOrg;
    assert InviteRow(s.invite) in K;
    assert SameAt(Overlay(db, w).invites, Overlay(db', w).invites, s.invite);
  }

  lemma RevokePendingLocal(s: Stmt, db: Db, db': Db, w: Writes, r: Regs, K: set<Key>)
    requires Agree(db, db', K) && Protected(s, db, w, r, K) && s.RevokePendingInvites?
    ensures Exec(s, Overlay(db', w), r) == Exec(s, Overlay(db, w), r)
    ensures Needs(s, Overlay(db', w), r) == Needs(s, Overlay(db, w), r)
  {
    hide Agree, Overlay, Db.PendingFor;
    var v, v' := Overlay(db, w), Overlay(db', w);
    SamePending(db, db', w, s.org, s.email, K);
    assert RevokedRows(v, s.org, s.email) == RevokedRows(v', s.org, s.email);
  }

  lemma InsertInviteLocal(s: Stmt, db: Db, db': Db, w: Writes, r: Regs, K: set<Key>)
    requires Agree(db, db', K) && Protected(s, db, w, r, K) && Guarded(w, db, K) && s.InsertInvite?
    ensures Exec(s, Overlay(db', w), r) == Exec(s, Overlay(db, w), r)
    ensures Needs(s, Overlay(db', w), r) == Needs(s, Overlay(db, w), r)
  {
    hide OverlayMembers, Db.PendingFor, TokenTaken, Guarded;
    var v, v', d := Overlay(db, w), Overlay(db', w), s.draft;
    assert InviteRow(s.invite) in K && TokenKey(d.tokenHash) in K;
    if TokenTaken(v', d.tokenHash) { SameToken(db, db', w, d.tokenHash, K); }
    assert RowsOf(v.PendingFor(d.org, d.email)) == {};
    SamePending(db, db', w, d.org, d.email, K);
    assert SameAt(v.orgs, v'.orgs, d.org) by { SameMember(db, db', w, d.org, ""); }
    assert SameAt(v.invites, v'.invites, s.invite);
  }

  lemma InsertUserLocal(s: Stmt, db: Db, db': Db, w: Writes, r: Regs, K: set<Key>)
    requires Agree(db, db', K) && Protected(s, db, w, r, K) && (s.InsertUser? || s.InsertSignupUser?)
    ensures Exec(s, Overlay(db', w), r) == Exec(s, Overlay(db, w), r)
    ensures Needs(s, Overlay(db', w), r) == Needs(s, Overlay(db, w), r)
  {
    hide OverlayMembers, SameOrg, TokenTaken;
    var v, v' := Overlay(db, w), Overlay(db', w);
    var c := if s.InsertUser? then s.contact else ByEmail(s.signup.email);
    assert UserRow(s.user) in K && ContactKey(c) in K;
    assert SameAt(v.users, v'.users, s.user) && SameAt(v.index, v'.index, c);
  }

  lemma UpdateUserLocal(s: Stmt, db: Db, db': Db, w: Writes, r: Regs, K: set<Key>)
    requires Agree(db, db', K) && Protected(s, db, w, r, K) && (s.ReissueUser? || s.VerifyUser?)
    ensures Exec(s, Overlay(db', w), r) == Exec(s, Overlay(db, w), r)
    ensures Needs(s, Overlay(db', w), r) == Needs(s, Overlay(db, w), r)
  {
    hide OverlayMembers, SameOrg, TokenTaken;
    var v, v' := Overlay(db, w), Overlay(db', w);
    if s.ReissueUser? {
      assert SameAt(v.index, v'.index, ByEmail(s.email));
    }
    var u := if s.VerifyUser? then r.user else v.index[ByEmail(s.email)];
    assert UserRow(u) in K;
    assert SameAt(v.users, v'.users, u);
  }

  lemma StatementLocal(s: Stmt, db: Db, db': Db, w: Writes, r: Regs, K: set<Key>)
    requires Agree(db, db', K) && Protected(s, db, w, r, K) && Guarded(w, db, K)
    ensures Exec(s, Overlay(db', w), r) == Exec(s, Overlay(db, w), r)
    ensures Needs(s, Overlay(db', w), r) == Needs(s, Overlay(db, w), r)
  {
    hide Agree, Guarded, Protected, Overlay;
    if s.ConsumeInvite? || s.RevokeOneInvite? { InviteRowLocal(s, db, db', w, r, K); }
    else if s.RevokePendingInvites? { RevokePendingLocal(s, db, db', w, r, K); }
    else if s.InsertInvite? { InsertInviteLocal(s, db, db', w, r, K); }
    else if s.InsertUser? || s.InsertSignupUser? { InsertUserLocal(s, db, db', w, r, K); }
    else if s.ReissueUser? || s.VerifyUser? { UpdateUserLocal(s, db, db', w, r, K); }
    else if s.LockOrganization? || s.InsertOrganization? { OrgStmtLocal(s, db, db', w, r, K); }
    else if s.EmitUserCreated? || s.EmitOrgCreated? || s.EmitAdded? || s.EmitSuspended? || s.EmitRemoved? {}
    else { MemberStmtLocal(s, db, db', w, r, K); }
  }

  // ---- what a statement writes is behind its locks --------------------------

  lemma ChangeGuarded(w: Writes, c: Change, events: seq<Event>, db: Db, K: set<Key>)
    requires Guarded(w, db, K)
    requires match c
             case Nothing => true
             case PutOrg(o, _) => OrgRow(o) in K
             case PutMember(k, _) => OrgRow(k.0) in K
             case PutInvites(rows) => forall i <- rows :: InviteGuarded(i, rows[i], db, K)
             case PutUser(u, _) => UserRow(u) in K
             case PutContact(u, _, contact) => UserRow(u) in K && ContactKey(contact) in K && contact !in db.index
    requires forall e <- events :: EventOrg(e).Some? ==> OrgRow(EventOrg(e).value) in K
    ensures Guarded(Record(w, c, events), db, K)
  {
    hide InviteGuarded;
  }

  lemma SettledRow(db: Db, w: Writes, K: set<Key>, i: InviteId, row: Invite)
    requires Guarded(w, db, K) && i in Overlay(db, w).invites && InviteRow(i) in K
    requires Settles(Overlay(db, w).invites[i], row)
    ensures InviteGuarded(i, row, db, K)
  {
    assert i in w.invites ==> InviteGuarded(i, w.invites[i], db, K);
  }

  lemma InviteStmtGuarded(s: Stmt, db: Db, w: Writes, r: Regs, K: set<Key>)
    requires Guarded(w, db, K) && Protected(s, db, w, r, K)
    requires s.ConsumeInvite? || s.RevokeOneInvite? || s.RevokePendingInvites? || s.InsertInvite?
    ensures var g := Exec(s, Overlay(db, w), r); Guarded(Record(w, g.change, g.events), db, K)
  {
    hide Guarded, Record, OverlayMembers, TokenTaken, Lower;
    var v, g := Overlay(db, w), Exec(s, Overlay(db, w), r);
    var rows := g.change.rows;
    forall i | i in rows ensures InviteGuarded(i, rows[i], db, K) {
      if s.InsertInvite? {
        assert InviteRow(s.invite) in K && TokenKey(s.draft.tokenHash) in K;
      } else {
        assert InviteRow(i) in Needs(s, v, r);
        SettledRow(db, w, K, i, rows[i]);
      }
    }
    ChangeGuarded(w, g.change, g.events, db, K);
  }

  lemma OtherStmtGuarded(s: Stmt, db: Db, w: Writes, r: Regs, K: set<Key>)
    requires Guarded(w, db, K) && Protected(s, db, w, r, K)
    requires !(s.ConsumeInvite? || s.RevokeOneInvite? || s.RevokePendingInvites? || s.InsertInvite?)
    ensures var g := Exec(s, Overlay(db, w), r); Guarded(Record(w, g.change, g.events), db, K)
  {
    hide Guarded, Record, OverlayMembers, TokenTaken, Db.ActiveMembers;
    var g := Exec(s, Overlay(db, w), r);
    ChangeGuarded(w, g.change, g.events, db, K);
  }

  // ---- a whole prefix -------------------------------------------------------

  /** The first `k` statements went through on `db` and took only locks in `K`. */
  ghost predicate Covered(script: seq<Stmt>, k: nat, db: Db, r: Regs, K: set<Key>)
    requires k <= |script|
  {
    k == 0 ||
    (&& Covered(script, k - 1, db, r, K)
     && Run(script, k - 1, db, r).Running? && Run(script, k, db, r).Running?
     && var p := Run(script, k - 1, db, r);
        Needs(script[k - 1], Overlay(db, p.w), p.regs) <= K)
  }

  lemma {:induction false} CoveredGrows(script: seq<Stmt>, k: nat, db: Db, r: Regs, K: set<Key>, L: set<Key>)
    requires k <= |script| && Covered(script, k, db, r, K) && K <= L
    ensures Covered(script, k, db, r, L)
  {
    hide Run, Needs, Overlay;
    if k > 0 { CoveredGrows(script, k - 1, db, r, K, L); }
  }

  lemma {:induction false} CoveredHolds(script: seq<Stmt>, j: nat, k: nat, db: Db, r: Regs, K: set<Key>, o: OrgId)
    requires j < k <= |script| && Covered(script, k, db, r, K) && Takes(script[j], o)
    ensures OrgRow(o) in K
  {
    hide Overlay;
    if j < k - 1 {
      CoveredHolds(script, j, k - 1, db, r, K, o);
    } else {
      var p := Run(script, j, db, r);
      assert Exec(script[j], Overlay(db, p.w), p.regs).Go?;
      assert OrgRow(o) in Needs(script[j], Overlay(db, p.w), p.regs);
    }
  }

  lemma CoveredProtects(script: seq<Stmt>, k: nat, db: Db, r: Regs, K: set<Key>)
    requires k < |script| && Disciplined(script) && Covered(script, k + 1, db, r, K)
    ensures var p := Run(script, k, db, r); Protected(script[k], db, p.w, p.regs, K)
  {
    hide Overlay, Exec, Needs, Touches;
    var s := script[k];
    if Touches(s).Some? {
      var j :| 0 <= j < k && Takes(script[j], Touches(s).value);
      CoveredHolds(script, j, k + 1, db, r, K, Touches(s).value);
    }
  }

  lemma {:induction false} CoveredGuards(script: seq<Stmt>, k: nat, db: Db, r: Regs, K: set<Key>)
    requires k <= |script| && Disciplined(script) && Covered(script, k, db, r, K)
    ensures Run(script, k, db, r).Running? && Guarded(Run(script, k, db, r).w, db, K)
  {
    hide Overlay, Exec, Needs, Protected, Guarded, Disciplined;
    if k == 0 {
      NothingGuarded(db, K);
    } else {
      CoveredGuards(script, k - 1, db, r, K);
      CoveredProtects(script, k - 1, db, r, K);
      var p, s := Run(script, k - 1, db, r), script[k - 1];
      if s.ConsumeInvite? || s.RevokeOneInvite? || s.RevokePendingInvites? || s.InsertInvite? {
        InviteStmtGuarded(s, db, p.w, p.regs, K);
      } else {
        OtherStmtGuarded(s, db, p.w, p.regs, K);
      }
    }
  }

  lemma NothingGuarded(db: Db, K: set<Key>)
    ensures Guarded(NO_WRITES, db, K)
  {
  }

  /** Repeatable reads by locking: what ran on `db` runs the same on every agreeing `db'`. */
  lemma {:induction false} PrefixStable(script: seq<Stmt>, k: nat, db: Db, db': Db, r: Regs, K: set<Key>)
    requires k <= |script| && Disciplined(script) && Covered(script, k, db, r, K) && Agree(db, db', K)
    ensures Run(script, k, db', r) == Run(script, k, db, r)
    ensures Covered(script, k, db', r, K)
  {
    hide Overlay, Exec, Needs, Protected, Guarded, Disciplined, Agree;
    if k > 0 {
      PrefixStable(script, k - 1, db, db', r, K);
      CoveredProtects(script, k - 1, db, r, K);
      CoveredGuards(script, k - 1, db, r, K);
      var p := Run(script, k - 1, db, r);
      StatementLocal(script[k - 1], db, db', p.w, p.regs, K);
    }
  }
}
