/** A transaction whose statements run without interruption does what `Transactions.Execute` says. */
module Serial {
  import opened Tables
  import opened Transactions
  import opened Statements

  /** Statements performed in place: how far they got and what they left. */
  datatype Played =
    | Went(v: Db, r: Regs, events: seq<Event>)
    | Halted(keep: bool, outcome: Outcome, v: Db, events: seq<Event>)

  function Play(stmts: seq<Stmt>, v: Db, r: Regs, events: seq<Event>): Played {
    if stmts == [] then Went(v, r, events)
    else
      match Exec(stmts[0], v, r)
      case Go(c, more, r') => Play(stmts[1..], Perform(v, c), r', events + more)
      case Stop(keep, outcome) => Halted(keep, outcome, v, events)
  }

  /** The result of a played script whose rollback returns to `base`. */
  function Settle(base: Db, p: Played): Result {
    match p
    case Went(v, _, events) => Result(v, Done, events)
    case Halted(keep, outcome, v, events) =>
      if keep then Result(v, outcome, events) else Refuse(base, outcome)
  }

  // ---- buffered writes and writes in place agree ------------------------------

  lemma {:induction false} StoppedStays(script: seq<Stmt>, j: nat, k: nat, db: Db, r: Regs)
    requires j <= k <= |script| && Run(script, j, db, r).Stopped?
    ensures Run(script, k, db, r) == Run(script, j, db, r)
  {
    if j < k { StoppedStays(script, j, k - 1, db, r); }
  }

  lemma {:induction false} RunIsPlay(script: seq<Stmt>, k: nat, db: Db, r: Regs, w: Writes, r': Regs)
    requires k <= |script| && Run(script, k, db, r) == Running(w, r')
    ensures Finish(db, Run(script, |script|, db, r)) == Settle(db, Play(script[k..], Overlay(db, w), r', w.events))
    decreases |script| - k
  {
    hide Exec, Overlay, Perform, OverlayMembers;
    if k < |script| {
      assert script[k..][1..] == script[k + 1..];
      match Exec(script[k], Overlay(db, w), r') {
        case Go(c, more, r'') =>
          OverlayRecord(db, w, c, more);
          RecordEvents(w, c, more);
          RunIsPlay(script, k + 1, db, r, Record(w, c, more), r'');
        case Stop(keep, outcome) =>
          StoppedStays(script, k + 1, |script|, db, r);
      }
    }
  }

  lemma RecordEvents(w: Writes, c: Change, events: seq<Event>)
    ensures Record(w, c, events).events == w.events + events
  {
  }

  lemma AloneIsPlay(db: Db, req: Request)
    ensures Alone(db, req) == Settle(db, Play(Script(req), db, Start(req), []))
  {
    hide Play, Script, Start;
    OverlayNothing(db);
    assert Script(req)[0..] == Script(req);
    RunIsPlay(Script(req), 0, db, Start(req), NO_WRITES, Start(req));
  }

  // ---- stepping -------------------------------------------------------------

  lemma Forward(s: Stmt, rest: seq<Stmt>, v: Db, r: Regs, events: seq<Event>, c: Change, more: seq<Event>, r': Regs)
    requires Exec(s, v, r) == Go(c, more, r')
    ensures Play([s] + rest, v, r, events) == Play(rest, Perform(v, c), r', events + more)
    ensures events + [] == events && [] + more == more
  {
    hide Exec, Perform;
    assert ([s] + rest)[1..] == rest;
  }

  lemma Halt(s: Stmt, rest: seq<Stmt>, v: Db, r: Regs, events: seq<Event>, keep: bool, outcome: Outcome)
    requires Exec(s, v, r) == Stop(keep, outcome)
    ensures Play([s] + rest, v, r, events) == Halted(keep, outcome, v, events)
  {
    hide Exec;
  }

  lemma {:induction false} PlayAppend(a: seq<Stmt>, b: seq<Stmt>, v: Db, r: Regs, events: seq<Event>)
    ensures Play(a + b, v, r, events)
         == match Play(a, v, r, events)
            case Went(v', r', events') => Play(b, v', r', events')
            case Halted(_, _, _, _) => Play(a, v, r, events)
  {
    hide Exec, Perform;
    if a == [] {
      assert a + b == b;
    } else {
      assert (a + b)[1..] == a[1..] + b;
      match Exec(a[0], v, r)
      case Go(c, more, r') => PlayAppend(a[1..], b, Perform(v, c), r', events + more);
      case Stop(keep, outcome) =>
    }
  }

  // ---- shared parts -----------------------------------------------------------

  /** A part of a transaction that ends as `part` says. */
  ghost predicate PlaysAs(stmts: seq<Stmt>, v: Db, r: Regs, events: seq<Event>, part: Result) {
    if part.outcome == Done
    then Play(stmts, v, r, events) == Went(part.db, r, events + part.events)
    else Settle(v, Play(stmts, v, r, events)) == Refuse(v, part.outcome)
         && Play(stmts, v, r, events).Halted? && !Play(stmts, v, r, events).keep
  }

  lemma AdmitPlays(v: Db, r: Regs, events: seq<Event>, id: InviteId, org: OrgId, at: Time)
    requires References(v)
    ensures PlaysAs(AdmitStmts(id, org, at), v, r, events, Admit(v, r.user, id, org, at))
  {
    hide Play;
    var s2 := [EmitAdded(org, Active)];
    var s1 := [ActivateMembership(org)] + s2;
    assert AdmitStmts(id, org, at) == [ConsumeInvite(id, org, at)] + s1;
    if !v.Pending(id, org) {
      Halt(ConsumeInvite(id, org, at), s1, v, r, events, false, InviteNotFound);
    } else {
      ConsumePlays(v, r, events, id, org, at, s1);
      hide Exec;
      ActivatePlays(v.(invites := Consumed(v.invites, id, at)), r, events, org);
    }
  }

  lemma ConsumePlays(v: Db, r: Regs, events: seq<Event>, id: InviteId, org: OrgId, at: Time, rest: seq<Stmt>)
    requires v.Pending(id, org)
    ensures Play([ConsumeInvite(id, org, at)] + rest, v, r, events)
         == Play(rest, v.(invites := Consumed(v.invites, id, at)), r, events)
  {
    hide Play;
    var row := v.invites[id].(status := Accepted, acceptedAt := Some(at));
    Forward(ConsumeInvite(id, org, at), rest, v, r, events, PutInvites(map[id := row]), [], r);
    assert v.invites + map[id := row] == Consumed(v.invites, id, at);
  }

  lemma ActivatePlays(v: Db, r: Regs, events: seq<Event>, org: OrgId)
    requires References(v) && org in v.orgs
    ensures PlaysAs([ActivateMembership(org)] + [EmitAdded(org, Active)], v, r, events,
                    if r.user !in v.users then Refuse(v, Violation)
                    else Result(v.(members := Activated(v.members, org, r.user)), Done,
                                [MembershipAdded(org, r.user, Active)]))
  {
    hide Play;
    var s2 := [EmitAdded(org, Active)];
    if r.user !in v.users {
      Halt(ActivateMembership(org), s2, v, r, events, false, Violation);
    } else {
      var v2 := v.(members := Activated(v.members, org, r.user));
      var c := if v2 == v then Nothing else PutMember((org, r.user), Some(Active));
      Forward(ActivateMembership(org), s2, v, r, events, c, [], r);
      LastEvent(EmitAdded(org, Active), v2, r, events, [MembershipAdded(org, r.user, Active)]);
    }
  }

  /** A script ends with its event. */
  lemma LastEvent(s: Stmt, v: Db, r: Regs, events: seq<Event>, more: seq<Event>)
    requires Exec(s, v, r) == Go(Nothing, more, r)
    ensures Play([s], v, r, events) == Went(v, r, events + more)
  {
    hide Exec;
    assert [s][1..] == [];
  }

  lemma JoinPlays(v: Db, r: Regs, events: seq<Event>, id: InviteId, org: OrgId, at: Time)
    requires References(v)
    ensures PlaysAs(JoinStmts(id, org, at), v, r, events, JoinByInvite(v, r.user, id, org, at))
  {
    hide Play, Admit, AdmitStmts;
    if org !in v.orgs {
      Halt(LockOrganization(org), AdmitStmts(id, org, at), v, r, events, false, OrgNotFound);
    } else {
      Forward(LockOrganization(org), AdmitStmts(id, org, at), v, r, events, Nothing, [], r);
      AdmitPlays(v, r, events, id, org, at);
    }
  }

  lemma NewOrgPlays(v: Db, r: Regs, events: seq<Event>, org: OrgId, name: string)
    requires References(v)
    ensures PlaysAs(NewOrgStmts(org, name), v, r, events, DoCreateOrg(v, org, name, r.user))
  {
    hide Play;
    var s1 := OwnerStmts(org, name);
    assert NewOrgStmts(org, name) == [InsertOrganization(org, name)] + s1;
    if org in v.orgs {
      Halt(InsertOrganization(org, name), s1, v, r, events, false, Violation);
    } else {
      assert (org, r.user) !in v.members;
      Forward(InsertOrganization(org, name), s1, v, r, events, PutOrg(org, name), [], r);
      OwnerPlays(v.(orgs := v.orgs[org := name]), r, events, org, name);
    }
  }

  function OwnerStmts(org: OrgId, name: string): seq<Stmt> {
    [InsertMembership(org, Active)] + ([EmitOrgCreated(org, name)] + [EmitAdded(org, Active)])
  }

  lemma OwnerPlays(v: Db, r: Regs, events: seq<Event>, org: OrgId, name: string)
    requires org in v.orgs && (org, r.user) !in v.members
    ensures PlaysAs(OwnerStmts(org, name), v, r, events,
                    if r.user !in v.users then Refuse(v, Violation)
                    else Result(v.(members := v.members[(org, r.user) := Active]), Done,
                                [OrgCreated(org, name), MembershipAdded(org, r.user, Active)]))
  {
    hide Play;
    var s3 := [EmitAdded(org, Active)];
    var s2 := [EmitOrgCreated(org, name)] + s3;
    if r.user !in v.users {
      Halt(InsertMembership(org, Active), s2, v, r, events, false, Violation);
    } else {
      Forward(InsertMembership(org, Active), s2, v, r, events, PutMember((org, r.user), Some(Active)), [], r);
      var v2 := v.(members := v.members[(org, r.user) := Active]);
      var e, f := OrgCreated(org, name), MembershipAdded(org, r.user, Active);
      Forward(EmitOrgCreated(org, name), s3, v2, r, events, Nothing, [e], r);
      LastEvent(EmitAdded(org, Active), v2, r, events + [e], [f]);
      assert events + [e] + [f] == events + [e, f];
    }
  }

  // ---- one lemma per transaction --------------------------------------------

  lemma AddMemberScript(db: Db, o: OrgId, u: UserId, st: MembershipStatus)
    requires References(db)
    ensures Settle(db, Play(Script(AddMember(o, u, st)), db, Regs(u, None), [])) == DoAddMember(db, o, u, st)
  {
    hide Play;
    var r := Regs(u, None);
    var s3 := [EmitAdded(o, st)];
    var s2 := [InsertMembership(o, st)] + s3;
    var s1 := [StopIfMember(o)] + s2;
    assert Script(AddMember(o, u, st)) == [LockOrganization(o)] + s1;
    if o !in db.orgs { Halt(LockOrganization(o), s1, db, r, [], false, OrgNotFound); return; }
    Forward(LockOrganization(o), s1, db, r, [], Nothing, [], r);
    if (o, u) in db.members { Halt(StopIfMember(o), s2, db, r, [], true, Done); return; }
    Forward(StopIfMember(o), s2, db, r, [], Nothing, [], r);
    if u !in db.users { Halt(InsertMembership(o, st), s3, db, r, [], false, Violation); return; }
    Forward(InsertMembership(o, st), s3, db, r, [], PutMember((o, u), Some(st)), [], r);
    var v := db.(members := db.members[(o, u) := st]);
    LastEvent(EmitAdded(o, st), v, r, [], [MembershipAdded(o, u, st)]);
  }

  lemma UpdateScript(db: Db, o: OrgId, u: UserId, st: MembershipStatus)
    ensures Settle(db, Play(Script(UpdateMemberStatus(o, u, st)), db, Regs(u, None), []))
         == DoUpdateMemberStatus(db, o, u, st)
  {
    hide Play;
    var r := Regs(u, None);
    var s4 := [EmitSuspended(o, st)];
    var s3 := [UpdateMembership(o, st)] + s4;
    var s2 := [GuardLastActive(o, Some(st))] + s3;
    var s1 := [RequireMember(o)] + s2;
    assert Script(UpdateMemberStatus(o, u, st)) == [LockOrganization(o)] + s1;
    if o !in db.orgs { Halt(LockOrganization(o), s1, db, r, [], false, OrgNotFound); return; }
    Forward(LockOrganization(o), s1, db, r, [], Nothing, [], r);
    if (o, u) !in db.members { Halt(RequireMember(o), s2, db, r, [], false, NotMember); return; }
    var r1 := Regs(u, Some(db.members[(o, u)]));
    Forward(RequireMember(o), s2, db, r, [], Nothing, [], r1);
    if LeavesNoActive(db, o, u, Some(st)) {
      Halt(GuardLastActive(o, Some(st)), s3, db, r1, [], false, LastActiveMember);
      return;
    }
    Forward(GuardLastActive(o, Some(st)), s3, db, r1, [], Nothing, [], r1);
    Forward(UpdateMembership(o, st), s4, db, r1, [], PutMember((o, u), Some(st)), [], r1);
    var v := db.(members := db.members[(o, u) := st]);
    LastEvent(EmitSuspended(o, st), v, r1, [], DoUpdateMemberStatus(db, o, u, st).events);
  }

  lemma RemoveScript(db: Db, o: OrgId, u: UserId)
    ensures Settle(db, Play(Script(RemoveMember(o, u)), db, Regs(u, None), [])) == DoRemoveMember(db, o, u)
  {
    hide Play;
    var r := Regs(u, None);
    var s4 := [EmitRemoved(o)];
    var s3 := [DeleteMembership(o)] + s4;
    var s2 := [GuardLastActive(o, None)] + s3;
    var s1 := [RequireMember(o)] + s2;
    assert Script(RemoveMember(o, u)) == [LockOrganization(o)] + s1;
    if o !in db.orgs { Halt(LockOrganization(o), s1, db, r, [], false, OrgNotFound); return; }
    Forward(LockOrganization(o), s1, db, r, [], Nothing, [], r);
    if (o, u) !in db.members { Halt(RequireMember(o), s2, db, r, [], false, NotMember); return; }
    var r1 := Regs(u, Some(db.members[(o, u)]));
    Forward(RequireMember(o), s2, db, r, [], Nothing, [], r1);
    if LeavesNoActive(db, o, u, None) {
      Halt(GuardLastActive(o, None), s3, db, r1, [], false, LastActiveMember);
      return;
    }
    Forward(GuardLastActive(o, None), s3, db, r1, [], Nothing, [], r1);
    Forward(DeleteMembership(o), s4, db, r1, [], PutMember((o, u), None), [], r1);
    var v := db.(members := db.members - {(o, u)});
    LastEvent(EmitRemoved(o), v, r1, [], [MembershipRemoved(o, u, db.members[(o, u)])]);
  }

  lemma CreateInviteScript(db: Db, id: InviteId, d: Draft)
    requires References(db)
    ensures Settle(db, Play(Script(CreateInvite(id, d)), db, Regs("", None), [])) == DoCreateInvite(db, id, d)
  {
    hide Play, RevokedRows, TokenTaken, Db.PendingFor;
    var r := Regs("", None);
    var s2 := [InsertInvite(id, d)];
    var s1 := [RevokePendingInvites(d.org, d.email)] + s2;
    assert Script(CreateInvite(id, d)) == [LockOrganization(d.org)] + s1;
    if d.org !in db.orgs { Halt(LockOrganization(d.org), s1, db, r, [], false, OrgNotFound); return; }
    Forward(LockOrganization(d.org), s1, db, r, [], Nothing, [], r);
    RevokePlays(db, d.org, d.email, s2, r);
    hide Exec;
    AfterRevoke(db, d.org, d.email, d.tokenHash);
    InsertInvitePlays(db.(invites := RevokedFor(db, d.org, d.email)), id, d, r);
  }

  lemma RevokePlays(db: Db, org: OrgId, email: string, rest: seq<Stmt>, r: Regs)
    ensures Play([RevokePendingInvites(org, email)] + rest, db, r, [])
         == Play(rest, db.(invites := RevokedFor(db, org, email)), r, [])
  {
    hide Play, RevokedRows, Db.PendingFor;
    Forward(RevokePendingInvites(org, email), rest, db, r, [], PutInvites(RevokedRows(db, org, email)), [], r);
  }

  lemma InsertInvitePlays(v: Db, id: InviteId, d: Draft, r: Regs)
    requires d.org in v.orgs && v.PendingFor(d.org, d.email) == {}
    ensures Play([InsertInvite(id, d)], v, r, []) ==
      if id in v.invites || TokenTaken(v, d.tokenHash) || d.inviter !in v.users then Halted(false, Violation, v, [])
      else Went(v.(invites := v.invites[id := d.Row()]), r, [])
  {
    hide Play, TokenTaken, Db.PendingFor;
    assert [InsertInvite(id, d)] == [InsertInvite(id, d)] + [];
    if id in v.invites || TokenTaken(v, d.tokenHash) || d.inviter !in v.users {
      Halt(InsertInvite(id, d), [], v, r, [], false, Violation);
    } else {
      Forward(InsertInvite(id, d), [], v, r, [], PutInvites(map[id := d.Row()]), [], r);
      assert v.invites + map[id := d.Row()] == v.invites[id := d.Row()];
      PlayNothing(v.(invites := v.invites[id := d.Row()]), r, []);
    }
  }

  lemma PlayNothing(v: Db, r: Regs, events: seq<Event>)
    ensures Play([], v, r, events) == Went(v, r, events)
  {
  }

  lemma AfterRevoke(db: Db, org: OrgId, email: string, token: Digest)
    ensures var v := db.(invites := RevokedFor(db, org, email));
      && v.PendingFor(org, email) == {} && v.invites.Keys == db.invites.Keys
      && TokenTaken(v, token) == TokenTaken(db, token)
  {
    var v := db.(invites := RevokedFor(db, org, email));
    forall i | i in db.invites ensures v.invites[i].tokenHash == db.invites[i].tokenHash {}
    if TokenTaken(db, token) {
      var i :| i in db.invites && db.invites[i].tokenHash == token;
      assert i in v.invites && v.invites[i].tokenHash == token;
    }
  }

  lemma AcceptInviteScript(db: Db, id: InviteId, o: OrgId, u: UserId, at: Time)
    requires References(db)
    ensures Settle(db, Play(Script(AcceptInvite(id, o, u, at)), db, Regs(u, None), []))
         == DoAcceptInvite(db, id, o, u, at)
  {
    hide Play, AdmitStmts, Admit;
    var r := Regs(u, None);
    var s2 := AdmitStmts(id, o, at);
    var s1 := [RefuseSuspended(o)] + s2;
    assert Script(AcceptInvite(id, o, u, at)) == [LockOrganization(o)] + s1;
    if o !in db.orgs { Halt(LockOrganization(o), s1, db, r, [], false, OrgNotFound); return; }
    Forward(LockOrganization(o), s1, db, r, [], Nothing, [], r);
    if db.StatusOf(o, u) == Some(Suspended) {
      Halt(RefuseSuspended(o), s2, db, r, [], false, SuspendedMember);
      return;
    }
    Forward(RefuseSuspended(o), s2, db, r, [], Nothing, [], r);
    AdmitPlays(db, r, [], id, o, at);
    AdmitShape(db, u, id, o, at);
    assert [] + Admit(db, u, id, o, at).events == Admit(db, u, id, o, at).events;
  }

  lemma AdmitShape(db: Db, user: UserId, id: InviteId, org: OrgId, at: Time)
    ensures var j := Admit(db, user, id, org, at); j.outcome != Done ==> j == Refuse(db, j.outcome)
  {
  }

  lemma RevokeInviteScript(db: Db, o: OrgId, id: InviteId)
    ensures Settle(db, Play(Script(RevokeInvite(o, id)), db, Regs("", None), [])) == DoRevokeInvite(db, o, id)
  {
    hide Play;
    var r := Regs("", None);
    assert Script(RevokeInvite(o, id)) == [RevokeOneInvite(id, o)] + [];
    if !db.Pending(id, o) { Halt(RevokeOneInvite(id, o), [], db, r, [], false, InviteNotFound); return; }
    var row := db.invites[id].(status := Revoked);
    Forward(RevokeOneInvite(id, o), [], db, r, [], PutInvites(map[id := row]), [], r);
    assert db.invites + map[id := row] == db.invites[id := row];
    PlayNothing(db.(invites := db.invites[id := row]), r, []);
  }

  lemma CreateUserScript(db: Db, u: UserId, c: Contact, at: Time)
    ensures Settle(db, Play(Script(CreateUser(u, c, at)), db, Regs(u, None), [])) == DoCreateUser(db, u, c, at)
  {
    hide Play;
    var r := Regs(u, None);
    assert Script(CreateUser(u, c, at)) == [InsertUser(u, c, at)] + [EmitUserCreated];
    if u in db.users || c in db.index {
      Halt(InsertUser(u, c, at), [EmitUserCreated], db, r, [], false, Violation);
      return;
    }
    Forward(InsertUser(u, c, at), [EmitUserCreated], db, r, [], PutContact(u, NewAccount(c, at), c), [], r);
    LastEvent(EmitUserCreated, DoCreateUser(db, u, c, at).db, r, [], [UserCreated(u)]);
  }

  lemma VerifySignupScript(db: Db, u: UserId, at: Time)
    ensures Settle(db, Play(Script(VerifySignup(u, at)), db, Regs(u, None), [])) == DoVerifySignup(db, u, at)
  {
    hide Play;
    var r := Regs(u, None);
    assert Script(VerifySignup(u, at)) == [VerifyUser(at)] + [];
    if u !in db.users || !db.users[u].Unverified() {
      Halt(VerifyUser(at), [], db, r, [], false, NotPending);
      return;
    }
    var row := db.users[u].(status := UserActive, emailVerified := true);
    Forward(VerifyUser(at), [], db, r, [], PutUser(u, row), [], r);
    PlayNothing(db.(users := db.users[u := row]), r, []);
  }

  lemma CreateOrgScript(db: Db, o: OrgId, n: string, u: UserId)
    requires References(db)
    ensures Settle(db, Play(Script(CreateOrg(o, n, u)), db, Regs(u, None), [])) == DoCreateOrg(db, o, n, u)
  {
    hide Play, DoCreateOrg, NewOrgStmts;
    NewOrgPlays(db, Regs(u, None), [], o, n);
    CreateOrgShape(db, o, n, u);
    assert [] + DoCreateOrg(db, o, n, u).events == DoCreateOrg(db, o, n, u).events;
  }

  lemma CreateOrgShape(db: Db, org: OrgId, name: string, user: UserId)
    ensures var c := DoCreateOrg(db, org, name, user); c.outcome != Done ==> c == Refuse(db, c.outcome)
  {
  }

  lemma JoinKeepsReferences(db: Db, user: UserId, id: InviteId, org: OrgId, at: Time)
    requires References(db)
    ensures References(JoinByInvite(db, user, id, org, at).db)
  {
  }

  lemma JoinPartPlays(db: Db, first: Result, r: Regs, accepting: Option<(InviteId, OrgId)>, at: Time)
    requires References(first.db) && first.outcome == Done
    ensures var mid := if accepting.None? then first
                       else Then(db, first, JoinByInvite(first.db, r.user, accepting.value.0, accepting.value.1, at));
      var p := Play(JoinPart(accepting, at), first.db, r, first.events);
      && (mid.outcome == Done ==> p == Went(mid.db, r, mid.events) && References(mid.db))
      && (mid.outcome != Done ==> p.Halted? && Settle(db, p) == Refuse(db, mid.outcome))
  {
    hide Play, JoinStmts, JoinByInvite;
    if accepting.Some? {
      JoinPlays(first.db, r, first.events, accepting.value.0, accepting.value.1, at);
      JoinKeepsReferences(first.db, r.user, accepting.value.0, accepting.value.1, at);
    } else {
      PlayNothing(first.db, r, first.events);
    }
  }

  lemma NewOrgPartPlays(db: Db, mid: Result, r: Regs, newOrg: Option<(OrgId, string)>)
    requires References(mid.db) && mid.outcome == Done
    ensures Settle(db, Play(NewOrgPart(newOrg), mid.db, r, mid.events))
         == if newOrg.None? then mid
            else Then(db, mid, DoCreateOrg(mid.db, newOrg.value.0, newOrg.value.1, r.user))
  {
    hide Play, NewOrgStmts, DoCreateOrg;
    if newOrg.Some? {
      NewOrgPlays(mid.db, r, mid.events, newOrg.value.0, newOrg.value.1);
    } else {
      PlayNothing(mid.db, r, mid.events);
    }
  }

  /** The account is written; then the invitation is accepted; then the organization is created. */
  lemma SignupScript(db: Db, u: UserId, p: Signup, newOrg: Option<(OrgId, string)>,
                     accepting: Option<(InviteId, OrgId)>, at: Time)
    requires References(db)
    ensures Settle(db, Play(Script(CreateSignupUser(u, p, newOrg, accepting, at)), db, Regs(u, None), []))
         == DoCreateSignupUser(db, u, p, newOrg, accepting, at)
  {
    hide Play, JoinPart, NewOrgPart, JoinByInvite, DoCreateOrg;
    var r := Regs(u, None);
    var tail := JoinPart(accepting, at) + NewOrgPart(newOrg);
    var s1 := [EmitUserCreated] + tail;
    assert Script(CreateSignupUser(u, p, newOrg, accepting, at)) == [InsertSignupUser(u, p, at)] + s1;
    if ByEmail(p.email) in db.index { Halt(InsertSignupUser(u, p, at), s1, db, r, [], true, Duplicate); return; }
    if u in db.users { Halt(InsertSignupUser(u, p, at), s1, db, r, [], false, Violation); return; }
    InsertPlays(db, u, p, at, tail);
    hide Exec;
    SignupRest(db, InsertAccount(db, u, p, at), r, newOrg, accepting, at);
  }

  lemma InsertPlays(db: Db, u: UserId, p: Signup, at: Time, tail: seq<Stmt>)
    requires ByEmail(p.email) !in db.index && u !in db.users
    ensures var first := InsertAccount(db, u, p, at);
      Play([InsertSignupUser(u, p, at)] + ([EmitUserCreated] + tail), db, Regs(u, None), [])
      == Play(tail, first.db, Regs(u, None), first.events)
  {
    hide Play;
    var r := Regs(u, None);
    Forward(InsertSignupUser(u, p, at), [EmitUserCreated] + tail, db, r, [],
            PutContact(u, p.Row(at), ByEmail(p.email)), [], r);
    Forward(EmitUserCreated, tail, InsertAccount(db, u, p, at).db, r, [], Nothing, [UserCreated(u)], r);
  }

  lemma SignupRest(db: Db, first: Result, r: Regs, newOrg: Option<(OrgId, string)>,
                   accepting: Option<(InviteId, OrgId)>, at: Time)
    requires References(first.db) && first.outcome == Done
    ensures var mid := if accepting.None? then first
                       else Then(db, first, JoinByInvite(first.db, r.user, accepting.value.0, accepting.value.1, at));
      Settle(db, Play(JoinPart(accepting, at) + NewOrgPart(newOrg), first.db, r, first.events))
      == if newOrg.None? || mid.outcome != Done then mid
         else Then(db, mid, DoCreateOrg(mid.db, newOrg.value.0, newOrg.value.1, r.user))
  {
    hide Play, JoinPart, NewOrgPart, JoinByInvite, DoCreateOrg;
    PlayAppend(JoinPart(accepting, at), NewOrgPart(newOrg), first.db, r, first.events);
    JoinPartPlays(db, first, r, accepting, at);
    var mid := if accepting.None? then first
               else Then(db, first, JoinByInvite(first.db, r.user, accepting.value.0, accepting.value.1, at));
    if mid.outcome == Done { NewOrgPartPlays(db, mid, r, newOrg); }
  }

  lemma ReissueScript(db: Db, e: string, p: Digest, n: string, accepting: Option<(InviteId, OrgId)>, at: Time)
    requires References(db)
    ensures Settle(db, Play(Script(ReissueSignup(e, p, n, accepting, at)), db, Regs("", None), []))
         == DoReissueSignup(db, e, p, n, accepting, at)
  {
    hide Play, JoinStmts, JoinByInvite;
    var r := Regs("", None);
    var join := if accepting.Some? then JoinStmts(accepting.value.0, accepting.value.1, at) else [];
    var s1 := if accepting.Some? then [VerifyUser(at)] + join else [];
    assert Script(ReissueSignup(e, p, n, accepting, at)) == [ReissueUser(e, p, n)] + s1;
    if !Reissuable(db, e) { Halt(ReissueUser(e, p, n), s1, db, r, [], false, NotPending); return; }
    var u := db.index[ByEmail(e)];
    var row := db.users[u].(password := Some(p), displayName := n);
    Forward(ReissueUser(e, p, n), s1, db, r, [], PutUser(u, row), [], Regs(u, None));
    var v := db.(users := db.users[u := row]);
    if accepting.None? {
      PlayNothing(v, Regs(u, None), []);
    } else {
      VerifyJoinPlays(db, u, row, accepting.value.0, accepting.value.1, at);
    }
  }

  lemma VerifyJoinPlays(db: Db, u: UserId, row: User, id: InviteId, org: OrgId, at: Time)
    requires References(db) && u in db.users && row.Unverified()
    ensures var join := JoinByInvite(db.(users := db.users[u := row.(status := UserActive, emailVerified := true)]),
                                     u, id, org, at);
      Settle(db, Play([VerifyUser(at)] + JoinStmts(id, org, at), db.(users := db.users[u := row]), Regs(u, None), []))
      == if join.outcome != Done then Refuse(db, join.outcome) else join
  {
    hide Play, JoinStmts, JoinByInvite;
    var r := Regs(u, None);
    var row' := row.(status := UserActive, emailVerified := true);
    var v, v' := db.(users := db.users[u := row]), db.(users := db.users[u := row']);
    Forward(VerifyUser(at), JoinStmts(id, org, at), v, r, [], PutUser(u, row'), [], r);
    assert v.users[u := row'] == v'.users;
    JoinPlays(v', r, [], id, org, at);
    var join := JoinByInvite(v', u, id, org, at);
    assert [] + join.events == join.events;
  }

  /** Statement by statement and in one go are the same transaction. */
  lemma AloneIsExecute(db: Db, req: Request)
    requires References(db)
    ensures Alone(db, req) == Execute(db, req)
  {
    hide Play, Settle, Alone, Script, DoCreateOrg, DoCreateSignupUser, DoReissueSignup, DoCreateUser, DoVerifySignup,
         DoAddMember, DoUpdateMemberStatus, DoRemoveMember, DoCreateInvite, DoAcceptInvite, DoRevokeInvite;
    AloneIsPlay(db, req);
    match req
    case CreateOrg(o, n, u) => CreateOrgScript(db, o, n, u);
    case CreateSignupUser(u, p, newOrg, accepting, at) => SignupScript(db, u, p, newOrg, accepting, at);
    case ReissueSignup(e, p, n, accepting, at) => ReissueScript(db, e, p, n, accepting, at);
    case CreateUser(u, c, at) => CreateUserScript(db, u, c, at);
    case VerifySignup(u, at) => VerifySignupScript(db, u, at);
    case AddMember(o, u, st) => AddMemberScript(db, o, u, st);
    case UpdateMemberStatus(o, u, st) => UpdateScript(db, o, u, st);
    case RemoveMember(o, u) => RemoveScript(db, o, u);
    case CreateInvite(id, d) => CreateInviteScript(db, id, d);
    case AcceptInvite(id, o, u, at) => AcceptInviteScript(db, id, o, u, at);
    case RevokeInvite(o, id) => RevokeInviteScript(db, o, id);
  }
}
