/** Purging abandoned sign-ups: which rows go, and what that does to organizations and to the log. */
module Purge {
  import opened Tables
  import opened Organizations
  import opened EventLog
  import opened Outbox

  /** The unverified sign-ups older than the cutoff. */
  function Abandoned(db: Db, before: Time): set<UserId> {
    set u | u in db.users && db.users[u].Unverified() && db.users[u].createdAt < before
  }

  lemma AbandonedExactly(db: Db, before: Time)
    ensures forall u :: u in Abandoned(db, before) <==>
      && u in db.users && db.users[u].status == SignupPending && !db.users[u].emailVerified
      && db.users[u].createdAt < before
  {
  }

  /** The first statement, with its cascades to memberships and to the invitations the users sent. */
  function WithoutUsers(db: Db, gone: set<UserId>): Db {
    db.(users := db.users - gone,
        index := map c | c in db.index && db.index[c] !in gone :: db.index[c],
        members := map k | k in db.members && k.1 !in gone :: db.members[k],
        invites := map i | i in db.invites && db.invites[i].inviter !in gone :: db.invites[i])
  }

  predicate HasMember(db: Db, o: OrgId) {
    exists k :: k in db.members && k.0 == o
  }

  /** The second statement, with its cascades. */
  function WithoutEmptyOrgs(db: Db): Db {
    var empty := set o | o in db.orgs && !HasMember(db, o);
    db.(orgs := db.orgs - empty,
        members := map k | k in db.members && k.0 !in empty :: db.members[k],
        invites := map i | i in db.invites && db.invites[i].org !in empty :: db.invites[i])
  }

  function Purged(db: Db, before: Time): Db {
    WithoutEmptyOrgs(WithoutUsers(db, Abandoned(db, before)))
  }

  ghost predicate Peopled(db: Db) {
    forall o <- db.orgs :: HasMember(db, o)
  }

  /** All members of the organization were abandoned sign-ups. */
  ghost predicate Deserted(db: Db, before: Time, o: OrgId) {
    forall k | k in db.members && k.0 == o :: k.1 in Abandoned(db, before)
  }

  lemma EmptyIffDeserted(db: Db, before: Time, o: OrgId)
    ensures HasMember(WithoutUsers(db, Abandoned(db, before)), o) <==> !Deserted(db, before, o)
  {
    hide Abandoned;
    var mid := WithoutUsers(db, Abandoned(db, before));
    if !Deserted(db, before, o) {
      var k :| k in db.members && k.0 == o && k.1 !in Abandoned(db, before);
      assert k in mid.members;
    }
  }

  /** Exactly the abandoned accounts go, with their memberships and the invitations they sent; exactly the
      organizations all of whose members went go, with their invitations. Everything else stays. */
  lemma PurgeRemovesExactly(db: Db, before: Time)
    requires References(db)
    ensures var p := Purged(db, before); var gone := Abandoned(db, before);
      && (forall u :: u in gone <==>
            && u in db.users && db.users[u].status == SignupPending && !db.users[u].emailVerified
            && db.users[u].createdAt < before)
      && p.users == db.users - gone
      && (forall c :: c in p.index <==> c in db.index && db.index[c] !in gone)
      && (forall c <- p.index :: p.index[c] == db.index[c])
      && (forall o :: o in p.orgs <==> o in db.orgs && !Deserted(db, before, o))
      && (forall o <- p.orgs :: p.orgs[o] == db.orgs[o])
      && (forall k :: k in p.members <==> k in db.members && k.1 !in gone)
      && (forall k <- p.members :: p.members[k] == db.members[k])
      && (forall i :: i in p.invites <==>
            i in db.invites && db.invites[i].inviter !in gone && !Deserted(db, before, db.invites[i].org))
      && (forall i <- p.invites :: p.invites[i] == db.invites[i])
  {
    hide Abandoned, Deserted, HasMember;
    var gone := Abandoned(db, before);
    AbandonedExactly(db, before);
    var mid := WithoutUsers(db, gone);
    forall o ensures HasMember(mid, o) <==> !Deserted(db, before, o) { EmptyIffDeserted(db, before, o); }
    forall k | k in mid.members ensures HasMember(mid, k.0) { MemberHas(mid, k); }
  }

  lemma MemberHas(db: Db, k: (OrgId, UserId))
    requires k in db.members
    ensures HasMember(db, k.0)
  {
  }

  lemma PurgeKeepsWellFormed(db: Db, before: Time)
    requires WellFormed(db)
    ensures WellFormed(Purged(db, before)) && Peopled(Purged(db, before))
  {
    hide Abandoned, Lower, Deserted, Purged;
    PurgeRemovesExactly(db, before);
    var p, gone := Purged(db, before), Abandoned(db, before);
    forall o | o in p.orgs ensures HasMember(p, o) {
      KeepsOne(db, before, o);
    }
    assert p.index == WithoutUsers(db, gone).index by { PurgedIndex(db, before); }
    assert forall k <- p.members :: k.0 in p.orgs by {
      forall k | k in p.members ensures !Deserted(db, before, k.0) { Remaining(db, before, k); }
    }
    assert References(p);
    assert OnePending(p) && UniqueTokens(p);
    hide References, OnePending, UniqueTokens, HasMember;
    assert Indexed(p);
  }

  lemma PurgedIndex(db: Db, before: Time)
    ensures Purged(db, before).index == WithoutUsers(db, Abandoned(db, before)).index
  {
  }

  lemma Remaining(db: Db, before: Time, k: (OrgId, UserId))
    requires k in db.members && k.1 !in Abandoned(db, before)
    ensures !Deserted(db, before, k.0)
  {
  }

  lemma KeepsOne(db: Db, before: Time, o: OrgId)
    requires References(db) && o in Purged(db, before).orgs
    ensures HasMember(Purged(db, before), o)
  {
    hide Purged, Abandoned;
    PurgeRemovesExactly(db, before);
    var k :| k in db.members && k.0 == o && k.1 !in Abandoned(db, before);
    assert k in Purged(db, before).members;
  }

  /** When purging leaves every remaining organization an active member: exactly when each organization
      is deserted altogether or has an active member who is not an abandoned sign-up. */
  ghost predicate KeepsActive(db: Db, before: Time, o: OrgId) {
    exists u :: db.IsActive(o, u) && u !in Abandoned(db, before)
  }

  lemma PurgeStaffedExactly(db: Db, before: Time)
    requires References(db)
    ensures Staffed(Purged(db, before))
       <==> forall o <- db.orgs :: Deserted(db, before, o) || KeepsActive(db, before, o)
  {
    hide Purged, Abandoned, Deserted;
    PurgeRemovesExactly(db, before);
    var p := Purged(db, before);
    forall o ensures HasActive(p, o) <==> KeepsActive(db, before, o) {
      if HasActive(p, o) {
        var u :| p.IsActive(o, u);
        assert (o, u) in db.members && db.IsActive(o, u);
      }
      if KeepsActive(db, before, o) {
        var u :| db.IsActive(o, u) && u !in Abandoned(db, before);
        assert (o, u) in p.members && p.IsActive(o, u);
      }
    }
  }

  /** Purging writes no event, so the log stays in step exactly when no membership went. */
  lemma PurgeFaithfulExactly(base: Members, db: Db, before: Time, log: seq<Event>)
    requires References(db) && Faithful(base, db.members, log)
    ensures Faithful(base, Purged(db, before).members, log)
       <==> forall k <- db.members :: k.1 !in Abandoned(db, before)
  {
    hide Purged, Abandoned, Told, Only, Rows;
    PurgeRemovesExactly(db, before);
    var p := Purged(db, before);
    if k :| k in db.members && k.1 in Abandoned(db, before) {
      assert Agrees(base, db.members, log, k.0);
      RowsAt(db.members, k.0);
      RowsAt(p.members, k.0);
      assert k == (k.0, k.1);
      assert !Agrees(base, p.members, log, k.0);
    } else {
      assert p.members == db.members;
    }
  }
}
