/** A consumer that replays one organization's outbox events knows exactly its membership rows, except
    after two transactions that change or claim a status without announcing it. */
module EventLog {
  import opened Tables
  import opened Transactions
  import opened Statements
  import opened Interleaving
  import opened Outbox
  import Constraints
  import Organizations

  type Roster = map<UserId, MembershipStatus>

  /** How a consumer applies one event about an organization. */
  function Apply(roster: Roster, e: Event): Roster {
    match e
    case MembershipAdded(_, u, st) => roster[u := st]
    case MembershipSuspended(_, u) => roster[u := Suspended]
    case MembershipRemoved(_, u, _) => roster - {u}
    case _ => roster
  }

  /** What the events of one organization tell, in order, to a consumer that starts from a roster. */
  function Told(start: Roster, events: seq<Event>): Roster {
    if events == [] then start
    else Apply(Told(start, events[..|events| - 1]), events[|events| - 1])
  }

  ghost predicate Agrees(base: Members, members: Members, log: seq<Event>, o: OrgId) {
    Told(Rows(base, o), Only(log, o)) == Rows(members, o)
  }

  ghost predicate Faithful(base: Members, members: Members, log: seq<Event>) {
    forall o :: Agrees(base, members, log, o)
  }

  lemma ToldOne(base: Members, log: seq<Event>, e: Event, o: OrgId)
    ensures var told := Told(Rows(base, o), Only(log, o));
      Told(Rows(base, o), Only(log + [e], o)) == if About(e, o) then Apply(told, e) else told
  {
    hide Apply, About;
    assert (log + [e])[..|log|] == log;
    var t := Only(log, o);
    assert t + [] == t;
    assert (t + [e])[..|t|] == t;
  }

  /** One event changes the roster of its own organization only. */
  lemma OneEvent(base: Members, members: Members, log: seq<Event>, e: Event, members': Members)
    requires Faithful(base, members, log)
    requires forall o :: if About(e, o) then Rows(members', o) == Apply(Rows(members, o), e)
                         else Rows(members', o) == Rows(members, o)
    ensures Faithful(base, members', log + [e])
  {
    hide Apply, About, Told, Only, Rows;
    forall o ensures Agrees(base, members', log + [e], o) {
      assert Agrees(base, members, log, o);
      ToldOne(base, log, e, o);
    }
  }

  lemma PutRow(members: Members, o: OrgId, u: UserId, st: MembershipStatus)
    ensures Rows(members[(o, u) := st], o) == Rows(members, o)[u := st]
    ensures forall p | p != o :: Rows(members[(o, u) := st], p) == Rows(members, p)
  {
    hide Rows;
    var m' := members[(o, u) := st];
    RowsAt(members, o);
    RowsAt(m', o);
    forall p | p != o ensures Rows(m', p) == Rows(members, p) {
      RowsAt(members, p);
      RowsAt(m', p);
    }
  }

  lemma DropRow(members: Members, o: OrgId, u: UserId)
    ensures Rows(members - {(o, u)}, o) == Rows(members, o) - {u}
    ensures forall p | p != o :: Rows(members - {(o, u)}, p) == Rows(members, p)
  {
    hide Rows;
    var m' := members - {(o, u)};
    RowsAt(members, o);
    RowsAt(m', o);
    forall p | p != o ensures Rows(m', p) == Rows(members, p) {
      RowsAt(members, p);
      RowsAt(m', p);
    }
  }

  lemma RowsAt(members: Members, o: OrgId)
    ensures forall u :: u in Rows(members, o) <==> (o, u) in members
    ensures forall u <- Rows(members, o) :: Rows(members, o)[u] == members[(o, u)]
  {
    forall u ensures u in Rows(members, o) <==> (o, u) in members {
      assert (o, u) in members ==> (o, u).0 == o;
    }
  }

  /** A row that is set and announced. */
  lemma Announced(base: Members, members: Members, log: seq<Event>, e: Event, o: OrgId, u: UserId, st: MembershipStatus)
    requires Faithful(base, members, log)
    requires e == MembershipAdded(o, u, st) || (e == MembershipSuspended(o, u) && st == Suspended)
    ensures Faithful(base, members[(o, u) := st], log + [e])
  {
    PutRow(members, o, u, st);
    hide Rows;
    OneEvent(base, members, log, e, members[(o, u) := st]);
  }

  /** An event that says nothing about memberships. */
  lemma Unrelated(base: Members, members: Members, log: seq<Event>, e: Event)
    requires Faithful(base, members, log) && (e.UserCreated? || e.OrgCreated?)
    ensures Faithful(base, members, log + [e])
  {
    hide Rows, Told, Only;
    OneEvent(base, members, log, e, members);
  }

  // ---- the two silent cases ---------------------------------------------------------

  /** A status set to something other than suspended is not announced. */
  predicate Unannounced(db: Db, req: Request) {
    && req.UpdateMemberStatus? && req.status != Suspended
    && req.org in db.orgs && (req.org, req.user) in db.members && db.members[(req.org, req.user)] != req.status
    && !LeavesNoActive(db, req.org, req.user, Some(req.status))
  }

  /** A suspended member who signs up again through an invitation is announced as active while the row stays
      suspended. */
  predicate Rejoins(db: Db, req: Request) {
    && req.ReissueSignup? && req.accepting.Some? && Reissuable(db, req.email)
    && req.accepting.value.1 in db.orgs && db.Pending(req.accepting.value.0, req.accepting.value.1)
    && db.StatusOf(req.accepting.value.1, db.index[ByEmail(req.email)]) == Some(Suspended)
  }

  predicate Misreports(db: Db, req: Request) {
    Unannounced(db, req) || Rejoins(db, req)
  }

  lemma AdmitFaithful(base: Members, db: Db, log: seq<Event>, user: UserId, id: InviteId, org: OrgId, at: Time)
    requires Faithful(base, db.members, log) && db.StatusOf(org, user) != Some(Suspended)
    ensures var r := Admit(db, user, id, org, at); Faithful(base, r.db.members, log + r.events)
  {
    hide Faithful;
    var r := Admit(db, user, id, org, at);
    if r.outcome == Done {
      Announced(base, db.members, log, MembershipAdded(org, user, Active), org, user, Active);
      assert r.db.members == db.members[(org, user) := Active];
    } else {
      assert log + [] == log;
    }
  }

  lemma CreateOrgFaithful(base: Members, db: Db, log: seq<Event>, org: OrgId, name: string, user: UserId)
    requires References(db) && Faithful(base, db.members, log)
    ensures var r := DoCreateOrg(db, org, name, user); Faithful(base, r.db.members, log + r.events)
  {
    hide Faithful;
    var r := DoCreateOrg(db, org, name, user);
    if r.outcome == Done {
      var e, f := OrgCreated(org, name), MembershipAdded(org, user, Active);
      Unrelated(base, db.members, log, e);
      Announced(base, db.members, log + [e], f, org, user, Active);
      assert log + [e] + [f] == log + [e, f];
    } else {
      assert log + [] == log;
    }
  }

  lemma SignupFaithful(base: Members, db: Db, log: seq<Event>, user: UserId, signup: Signup, newOrg: Option<(OrgId, string)>,
                       accepting: Option<(InviteId, OrgId)>, at: Time)
    requires WellFormed(db) && Faithful(base, db.members, log)
    ensures var r := DoCreateSignupUser(db, user, signup, newOrg, accepting, at); Faithful(base, r.db.members, log + r.events)
  {
    hide WellFormed, Admit, DoCreateOrg, Faithful;
    assert log + [] == log;
    if ByEmail(signup.email) !in db.index && user !in db.users {
      var first := InsertAccount(db, user, signup, at);
      Unrelated(base, db.members, log, UserCreated(user));
      Constraints.InsertAccountKeeps(db, user, signup, at);
      WellFormedRefers(db);
      var mid := first;
      if accepting.Some? {
        var join := JoinByInvite(first.db, user, accepting.value.0, accepting.value.1, at);
        AdmitFaithful(base, first.db, log + first.events, user, accepting.value.0, accepting.value.1, at);
        Constraints.AdmitKeeps(first.db, user, accepting.value.0, accepting.value.1, at);
        mid := Then(db, first, join);
        assert log + first.events + join.events == log + (first.events + join.events);
      }
      WellFormedRefers(mid.db);
      if newOrg.Some? && mid.outcome == Done {
        var create := DoCreateOrg(mid.db, newOrg.value.0, newOrg.value.1, user);
        CreateOrgFaithful(base, mid.db, log + mid.events, newOrg.value.0, newOrg.value.1, user);
        assert log + mid.events + create.events == log + (mid.events + create.events);
      }
    }
  }

  lemma ReissueFaithful(base: Members, db: Db, log: seq<Event>, email: string, password: Digest, name: string,
                        accepting: Option<(InviteId, OrgId)>, at: Time)
    requires Faithful(base, db.members, log) && !Misreports(db, ReissueSignup(email, password, name, accepting, at))
    ensures var r := DoReissueSignup(db, email, password, name, accepting, at); Faithful(base, r.db.members, log + r.events)
  {
    hide Admit, Faithful;
    assert log + [] == log;
    if Reissuable(db, email) {
      var user := db.index[ByEmail(email)];
      var row := db.users[user].(password := Some(password), displayName := name);
      var v := db.(users := db.users[user := row.(status := UserActive, emailVerified := true)]);
      if accepting.Some? && db.StatusOf(accepting.value.1, user) != Some(Suspended) {
        AdmitFaithful(base, v, log, user, accepting.value.0, accepting.value.1, at);
      } else if accepting.Some? {
        AdmitRefused(v, user, accepting.value.0, accepting.value.1, at);
      }
    }
  }

  lemma AdmitRefused(db: Db, user: UserId, id: InviteId, org: OrgId, at: Time)
    ensures !db.Pending(id, org) ==> Admit(db, user, id, org, at) == Refuse(db, InviteNotFound)
  {
  }

  lemma RemoveFaithful(base: Members, db: Db, log: seq<Event>, o: OrgId, u: UserId)
    requires Faithful(base, db.members, log)
    ensures var r := DoRemoveMember(db, o, u); Faithful(base, r.db.members, log + r.events)
  {
    var r := DoRemoveMember(db, o, u);
    if r.outcome == Done {
      DropRow(db.members, o, u);
      hide Rows, Faithful;
      OneEvent(base, db.members, log, r.events[0], r.db.members);
    } else {
      assert log + [] == log;
    }
  }

  lemma UpdateFaithful(base: Members, db: Db, log: seq<Event>, o: OrgId, u: UserId, st: MembershipStatus)
    requires Faithful(base, db.members, log) && !Misreports(db, UpdateMemberStatus(o, u, st))
    ensures var r := DoUpdateMemberStatus(db, o, u, st); Faithful(base, r.db.members, log + r.events)
  {
    hide Faithful, LeavesNoActive;
    var r := DoUpdateMemberStatus(db, o, u, st);
    assert log + [] == log;
    if r.outcome == Done {
      if db.members[(o, u)] == st {
        assert r.db.members == db.members;
      } else {
        Announced(base, db.members, log, MembershipSuspended(o, u), o, u, Suspended);
      }
    }
  }

  /** Every other transaction keeps the replayed roster equal to the rows. */
  lemma ExecuteFaithful(base: Members, db: Db, log: seq<Event>, req: Request)
    requires WellFormed(db) && Faithful(base, db.members, log) && !Misreports(db, req)
    ensures var r := Execute(db, req); Faithful(base, r.db.members, log + r.events)
  {
    hide Faithful, WellFormed, Admit, DoCreateOrg, DoCreateSignupUser, DoReissueSignup, DoRemoveMember, DoUpdateMemberStatus;
    var r := Execute(db, req);
    assert log + [] == log;
    match req
    case CreateOrg(o, n, u) => WellFormedRefers(db); CreateOrgFaithful(base, db, log, o, n, u);
    case AddMember(o, u, st) => Announced(base, db.members, log, MembershipAdded(o, u, st), o, u, st);
    case UpdateMemberStatus(o, u, st) => UpdateFaithful(base, db, log, o, u, st);
    case RemoveMember(o, u) => RemoveFaithful(base, db, log, o, u);
    case AcceptInvite(i, o, u, at) =>
      if db.StatusOf(o, u) != Some(Suspended) { AdmitFaithful(base, db, log, u, i, o, at); }
    case CreateSignupUser(u, p, newOrg, accepting, at) => SignupFaithful(base, db, log, u, p, newOrg, accepting, at);
    case ReissueSignup(e, p, n, accepting, at) => ReissueFaithful(base, db, log, e, p, n, accepting, at);
    case CreateUser(u, c, at) => Unrelated(base, db.members, log, UserCreated(u));
    case _ =>
  }

  lemma RosterKnows(base: Members, members: Members, log: seq<Event>, o: OrgId, u: UserId)
    requires Agrees(base, members, log, o) && (o, u) in members
    ensures u in Told(Rows(base, o), Only(log, o)) && Told(Rows(base, o), Only(log, o))[u] == members[(o, u)]
  {
    hide Told, Only, Rows;
    RowsAt(members, o);
  }

  /** And each of the two cases does break the agreement. */
  lemma MisreportBreaks(base: Members, db: Db, log: seq<Event>, req: Request)
    requires WellFormed(db) && Faithful(base, db.members, log) && Misreports(db, req)
    ensures var r := Execute(db, req); !Faithful(base, r.db.members, log + r.events)
  {
    hide Rows, Told, Only, WellFormed, LeavesNoActive;
    var r := Execute(db, req);
    var o := if req.UpdateMemberStatus? then req.org else req.accepting.value.1;
    var u := if req.UpdateMemberStatus? then req.user else db.index[ByEmail(req.email)];
    assert Agrees(base, db.members, log, o);
    RosterKnows(base, db.members, log, o, u);
    if req.UpdateMemberStatus? {
      assert log + r.events == log;
    } else {
      assert r.events == [MembershipAdded(o, u, Active)] && r.db.members == db.members;
      ToldOne(base, log, r.events[0], o);
    }
    if Agrees(base, r.db.members, log + r.events, o) {
      RosterKnows(base, r.db.members, log + r.events, o, u);
      assert false;
    }
  }

  /** The exact condition under which a transaction leaves the event log in step with the rows. */
  lemma FaithfulExactly(base: Members, db: Db, log: seq<Event>, req: Request)
    requires WellFormed(db) && Faithful(base, db.members, log)
    ensures var r := Execute(db, req); Faithful(base, r.db.members, log + r.events) <==> !Misreports(db, req)
  {
    hide WellFormed, Faithful, Execute, Misreports;
    if Misreports(db, req) { MisreportBreaks(base, db, log, req); } else { ExecuteFaithful(base, db, log, req); }
  }

  /** What the application asks of the store: its only change of a status is a suspension. */
  predicate FromApplication(req: Request) {
    req.UpdateMemberStatus? ==> req.status == Suspended
  }

  /** For the application's requests the sign-up again is the only exception. */
  lemma ApplicationFaithfulExactly(base: Members, db: Db, log: seq<Event>, req: Request)
    requires WellFormed(db) && Faithful(base, db.members, log) && FromApplication(req)
    ensures var r := Execute(db, req); Faithful(base, r.db.members, log + r.events) <==> !Rejoins(db, req)
  {
    hide WellFormed, Faithful, Execute, Rejoins;
    FaithfulExactly(base, db, log, req);
  }

  // ---- whole executions ---------------------------------------------------------------

  ghost predicate Announcing(db: Db, history: seq<Finished>) {
    forall k | 0 <= k < |history| :: !Misreports(Serially(db, history[..k]).db, history[k].req)
  }

  lemma {:induction false} SeriallyFaithful(db: Db, history: seq<Finished>)
    requires WellFormed(db) && Announcing(db, history)
    ensures var r := Serially(db, history); WellFormed(r.db) && Faithful(db.members, r.db.members, r.log)
  {
    hide WellFormed, Faithful, Execute, Misreports;
    if history == [] {
      NothingYet(db.members);
    } else {
      var n := |history| - 1;
      var before := history[..n];
      forall k | 0 <= k < n ensures !Misreports(Serially(db, before[..k]).db, before[k].req) {
        assert before[..k] == history[..k];
      }
      SeriallyFaithful(db, before);
      var b := Serially(db, before);
      ExecuteFaithful(db.members, b.db, b.log, history[n].req);
      Constraints.ExecuteKeepsWellFormed(b.db, history[n].req);
    }
  }

  /** The log told the rows at the start and after every transaction. */
  ghost predicate FaithfulThroughout(db: Db, history: seq<Finished>) {
    forall k: nat | k <= |history| ::
      Faithful(db.members, Serially(db, history[..k]).db.members, Serially(db, history[..k]).log)
  }

  /** Over a whole history: the log tells the rows after every transaction exactly when none of them
      misreports. */
  lemma AnnouncingExactly(db: Db, history: seq<Finished>)
    requires WellFormed(db)
    ensures FaithfulThroughout(db, history) <==> Announcing(db, history)
  {
    hide WellFormed, Faithful, Execute, Misreports, Serially;
    if Announcing(db, history) {
      forall k: nat | k <= |history|
        ensures Faithful(db.members, Serially(db, history[..k]).db.members, Serially(db, history[..k]).log)
      {
        AnnouncingPrefix(db, history, k);
        SeriallyFaithful(db, history[..k]);
      }
    }
    if FaithfulThroughout(db, history) {
      forall k | 0 <= k < |history| ensures !Misreports(Serially(db, history[..k]).db, history[k].req) {
        SeriallyNext(db, history, k);
        Organizations.SeriallyWellFormed(db, history[..k]);
        FaithfulExactly(db.members, Serially(db, history[..k]).db, Serially(db, history[..k]).log, history[k].req);
      }
    }
  }

  lemma AnnouncingPrefix(db: Db, history: seq<Finished>, n: nat)
    requires Announcing(db, history) && n <= |history|
    ensures Announcing(db, history[..n])
  {
    hide Misreports, Serially;
    forall k | 0 <= k < n ensures !Misreports(Serially(db, history[..n][..k]).db, history[..n][k].req) {
      assert history[..n][..k] == history[..k];
    }
  }

  lemma SeriallyNext(db: Db, history: seq<Finished>, k: nat)
    requires k < |history|
    ensures var before := Serially(db, history[..k]); var r := Execute(before.db, history[k].req);
      Serially(db, history[..k + 1]) == Replayed(r.db, before.log + r.events)
  {
    hide Execute;
    assert history[..k + 1][..k] == history[..k];
  }

  /** Before the first event a consumer knows what it started from. */
  lemma NothingYet(base: Members)
    ensures Faithful(base, base, [])
  {
  }

  /** In every interleaving, from any tables, replaying an organization's published events in id order over the rows
      it had at the start gives its committed membership rows, as long as no finished transaction was one of the two silent cases. */
  lemma OutboxTellsRows(db: Db, labels: seq<Label>, s: Sys, o: OrgId)
    requires WellFormed(db) && Reach(Fresh(db), labels) == Some(s)
    requires Announcing(db, s.history)
    ensures Told(Rows(db.members, o), ById(s.slots, o)) == Rows(s.db.members, o)
  {
    hide WellFormed, Reach, Inv, Told, Rows, ById, Only, Announcing;
    Serializable(db, labels, s);
    SeriallyFaithful(db, s.history);
    assert Agrees(db.members, s.db.members, s.log, o);
  }
}
