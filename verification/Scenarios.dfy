/** Reachable states in which a promise fails. In the first the event log and the rows part: an unverified
    account that was added to an organization and suspended there signs up again through an invitation. In
    the second a purge leaves an organization without an active member. */
module Scenarios {
  import opened Tables
  import opened Transactions
  import opened EventLog
  import opened Organizations
  import opened Purge
  import Constraints

  const ADMIN := "admin"
  const NEWCOMER := "newcomer"
  const ORG := "org"
  const ADDRESS := "new@example.com"

  function Rejoin(): Request {
    ReissueSignup(ADDRESS, Digest("again"), "New", Some(("invite", ORG)), 5)
  }

  /** An administrator adds a still unverified account to their organization, suspends it and invites its
      address; the account then signs up again with the invitation. */
  function Path(): seq<Request> {
    [CreateUser(ADMIN, ByEmail("admin@example.com"), 0),
     CreateOrg(ORG, "Org", ADMIN),
     SignUp(),
     AddMember(ORG, NEWCOMER, Active),
     UpdateMemberStatus(ORG, NEWCOMER, Suspended),
     CreateInvite("invite", Draft(ORG, ADDRESS, Digest("token"), ADMIN, 100, 4))]
  }

  function Follow(db: Db, path: seq<Request>): Db
    decreases |path|
  {
    if path == [] then db else Follow(Execute(db, path[0]).db, path[1..])
  }

  lemma {:induction false} FollowKeeps(db: Db, path: seq<Request>)
    requires WellFormed(db) && Staffed(db)
    ensures WellFormed(Follow(db, path)) && Staffed(Follow(db, path))
    decreases |path|
  {
    hide WellFormed, Staffed, Execute;
    if path != [] {
      Constraints.ExecuteKeepsWellFormed(db, path[0]);
      ExecuteKeepsStaffed(db, path[0]);
      FollowKeeps(Execute(db, path[0]).db, path[1..]);
    }
  }

  lemma FollowCons(db: Db, req: Request, rest: seq<Request>)
    ensures Follow(db, [req] + rest) == Follow(Execute(db, req).db, rest)
  {
    hide Execute;
    assert ([req] + rest)[1..] == rest;
  }

  lemma FollowPath(db: Db, p: seq<Request>)
    requires |p| == 6
    ensures Follow(db, p) == Execute(Execute(Execute(Follow(db, p[..3]), p[3]).db, p[4]).db, p[5]).db
    ensures Follow(db, p[..3]) == Execute(Execute(Execute(db, p[0]).db, p[1]).db, p[2]).db
  {
    hide Execute, Follow;
    var d1 := Execute(db, p[0]).db;
    var d2 := Execute(d1, p[1]).db;
    var d3 := Execute(d2, p[2]).db;
    var d4 := Execute(d3, p[3]).db;
    var d5 := Execute(d4, p[4]).db;
    FollowNothing(d3);
    FollowNothing(Execute(d5, p[5]).db);
    assert p[..3] == [p[0]] + ([p[1]] + ([p[2]] + []));
    FollowCons(db, p[0], [p[1]] + ([p[2]] + []));
    FollowCons(d1, p[1], [p[2]] + []);
    FollowCons(d2, p[2], []);
    var tail := [p[3]] + ([p[4]] + ([p[5]] + []));
    assert p == [p[0]] + ([p[1]] + ([p[2]] + tail));
    FollowCons(db, p[0], [p[1]] + ([p[2]] + tail));
    FollowCons(d1, p[1], [p[2]] + tail);
    FollowCons(d2, p[2], tail);
    FollowCons(d3, p[3], [p[4]] + ([p[5]] + []));
    FollowCons(d4, p[4], [p[5]] + []);
    FollowCons(d5, p[5], []);
  }

  lemma FollowNothing(db: Db)
    ensures Follow(db, []) == db
  {
  }

  function Unverified(): User { User(Some(ADDRESS), None, Some(Digest("first")), "New", SignupPending, false, 1) }

  lemma Founded()
    ensures var db := Execute(Execute(EMPTY_DB, Path()[0]).db, Path()[1]).db;
      && db.orgs == map[ORG := "Org"] && db.members == map[(ORG, ADMIN) := Active] && db.invites == map[]
      && db.users.Keys == {ADMIN} && !db.users[ADMIN].Unverified() && db.index.Keys == {ByEmail("admin@example.com")}
  {
    var db := Execute(EMPTY_DB, Path()[0]).db;
    assert db.users.Keys == {ADMIN} && db.index.Keys == {ByEmail("admin@example.com")};
  }

  function SignUp(): Request {
    CreateSignupUser(NEWCOMER, Signup(ADDRESS, Digest("first"), "New", SignupPending, false), None, None, 1)
  }

  lemma SignedUp(db: Db)
    requires db.users.Keys == {ADMIN} && db.index.Keys == {ByEmail("admin@example.com")}
    ensures var db' := Execute(db, SignUp()).db;
      && db'.orgs == db.orgs && db'.members == db.members && db'.invites == db.invites
      && ADMIN in db'.users && db'.users[ADMIN] == db.users[ADMIN]
      && NEWCOMER in db'.users && db'.users[NEWCOMER] == Unverified()
      && ByEmail(ADDRESS) in db'.index && db'.index[ByEmail(ADDRESS)] == NEWCOMER
  {
    assert ADDRESS != "admin@example.com" by { assert ADDRESS[0] != "admin@example.com"[0]; }
    assert NEWCOMER != ADMIN by { assert NEWCOMER[0] != ADMIN[0]; }
  }

  /** The first half: an organization with its administrator, and an unverified account. */
  lemma HalfWay()
    ensures var db := Follow(EMPTY_DB, Path()[..3]);
      && db.orgs == map[ORG := "Org"] && db.members == map[(ORG, ADMIN) := Active] && db.invites == map[]
      && ADMIN in db.users && !db.users[ADMIN].Unverified() && NEWCOMER in db.users && db.users[NEWCOMER] == Unverified()
      && ByEmail(ADDRESS) in db.index && db.index[ByEmail(ADDRESS)] == NEWCOMER
  {
    hide Follow, Execute;
    FollowPath(EMPTY_DB, Path());
    Founded();
    assert Path()[2] == SignUp();
    SignedUp(Execute(Execute(EMPTY_DB, Path()[0]).db, Path()[1]).db);
  }

  lemma Arrived()
    ensures var db := Follow(EMPTY_DB, Path());
      && db.orgs == map[ORG := "Org"] && db.StatusOf(ORG, NEWCOMER) == Some(Suspended)
      && db.Pending("invite", ORG)
      && NEWCOMER in db.users && db.users[NEWCOMER] == Unverified()
      && ByEmail(ADDRESS) in db.index && db.index[ByEmail(ADDRESS)] == NEWCOMER
  {
    FollowPath(EMPTY_DB, Path());
    HalfWay();
    hide Follow;
    var d3 := Follow(EMPTY_DB, Path()[..3]);
    assert NEWCOMER != ADMIN by { assert NEWCOMER[0] != ADMIN[0]; }
    var d4 := Execute(d3, Path()[3]).db;
    assert d4.members == map[(ORG, ADMIN) := Active, (ORG, NEWCOMER) := Active];
    assert d4.ActiveMembers(ORG) == {(ORG, ADMIN), (ORG, NEWCOMER)};
    assert (ORG, ADMIN) != (ORG, NEWCOMER) && |d4.ActiveMembers(ORG)| == 2;
    var d5 := Execute(d4, Path()[4]).db;
    assert d5.StatusOf(ORG, NEWCOMER) == Some(Suspended);
    assert !TokenTaken(d5, Digest("token"));
  }

  /** The account is announced as active and stays suspended. */
  lemma MisreportHappens()
    ensures var db := Follow(EMPTY_DB, Path());
      && Misreports(db, Rejoin()) && Execute(db, Rejoin()).outcome == Done
      && Execute(db, Rejoin()).db.StatusOf(ORG, NEWCOMER) == Some(Suspended)
      && Execute(db, Rejoin()).events == [MembershipAdded(ORG, NEWCOMER, Active)]
  {
    Arrived();
    hide Follow, Path;
  }

  // ---- a purge that strands an organization -----------------------------------------------

  /** The administrator adds the unverified account to the organization and is then suspended. */
  function Stranding(): seq<Request> {
    Path()[..4] + [UpdateMemberStatus(ORG, ADMIN, Suspended)]
  }

  lemma Stranded()
    ensures var db := Follow(EMPTY_DB, Stranding());
      && db.orgs == map[ORG := "Org"]
      && db.members == map[(ORG, ADMIN) := Suspended, (ORG, NEWCOMER) := Active]
      && db.invites == map[] && ADMIN in db.users && NEWCOMER in db.users
      && !db.users[ADMIN].Unverified() && db.users[NEWCOMER] == Unverified()
  {
    var p := Stranding();
    assert p == Path()[..3] + [Path()[3], p[4]];
    FollowThen(EMPTY_DB, Path()[..3], Path()[3], p[4]);
    HalfWay();
    hide Follow;
    var d3 := Follow(EMPTY_DB, Path()[..3]);
    assert NEWCOMER != ADMIN by { assert NEWCOMER[0] != ADMIN[0]; }
    var d4 := Execute(d3, Path()[3]).db;
    assert d4.members == map[(ORG, ADMIN) := Active, (ORG, NEWCOMER) := Active];
    assert d4.ActiveMembers(ORG) == {(ORG, ADMIN), (ORG, NEWCOMER)};
    assert (ORG, ADMIN) != (ORG, NEWCOMER) && |d4.ActiveMembers(ORG)| == 2;
    assert Execute(d4, p[4]).db.members == map[(ORG, ADMIN) := Suspended, (ORG, NEWCOMER) := Active];
  }

  lemma {:induction false} FollowThen(db: Db, first: seq<Request>, req: Request, last: Request)
    ensures Follow(db, first + [req, last]) == Execute(Execute(Follow(db, first), req).db, last).db
    decreases |first|
  {
    hide Execute;
    if first == [] {
      assert first + [req, last] == [req] + ([last] + []);
      FollowCons(db, req, [last] + []);
      FollowCons(Execute(db, req).db, last, []);
    } else {
      assert (first + [req, last])[1..] == first[1..] + [req, last];
      FollowThen(Execute(db, first[0]).db, first[1..], req, last);
    }
  }

  /** The purge takes the only active member and leaves the suspended one. */
  lemma PurgeCanUnstaff()
    ensures var db := Follow(EMPTY_DB, Stranding());
      Staffed(db) && ORG in Purged(db, 2).orgs && !Staffed(Purged(db, 2))
  {
    Stranded();
    FollowKeeps(EMPTY_DB, Stranding());
    hide Follow, Stranding;
    var db := Follow(EMPTY_DB, Stranding());
    assert (ORG, ADMIN) in db.members && ADMIN !in Abandoned(db, 2);
    assert !Deserted(db, 2, ORG) by {
      var k := (ORG, ADMIN);
      assert k in db.members && k.0 == ORG && k.1 !in Abandoned(db, 2);
    }
    assert NEWCOMER in Abandoned(db, 2);
    assert NEWCOMER != ADMIN by { assert NEWCOMER[0] != ADMIN[0]; }
    assert forall u | db.IsActive(ORG, u) :: u == NEWCOMER;
    assert !KeepsActive(db, 2, ORG);
    hide Purged, Abandoned, Deserted, KeepsActive;
    PurgeStaffedExactly(db, 2);
    PurgeRemovesExactly(db, 2);
  }

  /** The events a path of transactions writes. */
  function FollowLog(db: Db, path: seq<Request>): seq<Event>
    decreases |path|
  {
    if path == [] then [] else Execute(db, path[0]).events + FollowLog(Execute(db, path[0]).db, path[1..])
  }

  lemma {:induction false} FollowFaithful(base: Members, db: Db, path: seq<Request>, log: seq<Event>)
    requires WellFormed(db) && Faithful(base, db.members, log)
    requires forall r <- path :: FromApplication(r) && !r.ReissueSignup?
    ensures Faithful(base, Follow(db, path).members, log + FollowLog(db, path))
    decreases |path|
  {
    hide WellFormed, Faithful, Execute;
    if path == [] {
      assert log + [] == log;
    } else {
      var r := Execute(db, path[0]);
      assert path[0] in path && forall q <- path[1..] :: q in path;
      ApplicationFaithfulExactly(base, db, log, path[0]);
      Constraints.ExecuteKeepsWellFormed(db, path[0]);
      FollowFaithful(base, r.db, path[1..], log + r.events);
      assert log + r.events + FollowLog(r.db, path[1..]) == log + FollowLog(db, path);
    }
  }

  lemma StrandingFaithful()
    ensures Faithful(map[], Follow(EMPTY_DB, Stranding()).members, FollowLog(EMPTY_DB, Stranding()))
    ensures WellFormed(Follow(EMPTY_DB, Stranding()))
  {
    assert forall r <- Stranding() :: FromApplication(r) && !r.ReissueSignup?;
    assert WellFormed(EMPTY_DB) && Staffed(EMPTY_DB);
    hide Follow, FollowLog, Stranding, Faithful, WellFormed, Staffed;
    NothingYet(map[]);
    FollowFaithful(map[], EMPTY_DB, Stranding(), []);
    assert [] + FollowLog(EMPTY_DB, Stranding()) == FollowLog(EMPTY_DB, Stranding());
    FollowKeeps(EMPTY_DB, Stranding());
  }

  /** That purge also parts the event log and the rows, which agreed before it. */
  lemma PurgeUntold()
    ensures var db, log := Follow(EMPTY_DB, Stranding()), FollowLog(EMPTY_DB, Stranding());
      Faithful(map[], db.members, log) && !Faithful(map[], Purged(db, 2).members, log)
  {
    var db, log := Follow(EMPTY_DB, Stranding()), FollowLog(EMPTY_DB, Stranding());
    StrandingFaithful();
    Stranded();
    hide Follow, FollowLog, Stranding, Faithful;
    var k := (ORG, NEWCOMER);
    assert k in db.members && k.1 in Abandoned(db, 2);
    hide Purged, Abandoned;
    PurgeFaithfulExactly(map[], db, 2, log);
  }
}
