/** How an account leaves sign-up, and what registration may change, over every sequence of complete calls. */
module Activation {
  import opened Tables
  import opened Transactions
  import opened Text
  import opened DemoUsers
  import opened Sessions
  import opened CompleteCalls
  import opened SettledSessions
  import Constraints
  import Purge

  ghost predicate Unconfirmed(db: Db, u: UserId) {
    u in db.users && db.users[u].Unverified()
  }

  /** The account was signing up and now is not, other than by being deleted. */
  ghost predicate Leaves(db: Db, db': Db, u: UserId) {
    Unconfirmed(db, u) && u in db'.users && !Unconfirmed(db', u)
  }

  /** The organization and invitation operations; accounts are made by the handlers only. */
  predicate OrgRequest(req: Request) {
    !(req.CreateUser? || req.CreateSignupUser? || req.ReissueSignup? || req.VerifySignup?)
  }

  predicate Proper(call: Call) { call.Transaction? ==> OrgRequest(call.req) }

  // ---- the rows of unconfirmed accounts -----------------------------------------------------

  /** Unconfirmed rows that are new or changed carry the form's address and password. */
  ghost predicate OnlyBy(form: Form, db: Db, db': Db) {
    forall u | Unconfirmed(db', u) ::
      || (u in db.users && db'.users[u] == db.users[u])
      || (db'.users[u].email == Some(form.email) && db'.users[u].password == Some(Digest(form.password)))
  }

  /** No unconfirmed row is new or changed. */
  ghost predicate Shrinks(db: Db, db': Db) {
    forall u | Unconfirmed(db', u) :: u in db.users && db'.users[u] == db.users[u]
  }

  /** Accounts that are not signing up keep every field. */
  ghost predicate Spares(db: Db, db': Db) {
    forall u | u in db.users && !Unconfirmed(db, u) :: u in db'.users && db'.users[u] == db.users[u]
  }

  /** An unconfirmed account is still unconfirmed, or gone. */
  ghost predicate Waits(db: Db, db': Db) {
    forall u | Unconfirmed(db, u) && u in db'.users :: Unconfirmed(db', u)
  }

  /** No unconfirmed account is deleted. */
  ghost predicate Remain(db: Db, db': Db) {
    forall u | Unconfirmed(db, u) :: u in db'.users
  }

  // ---- transactions ---------------------------------------------------------------------------

  lemma OrgRequestAccounts(db: Db, req: Request)
    requires OrgRequest(req)
    ensures Execute(db, req).db.users == db.users && Execute(db, req).db.index == db.index
  {
    hide Activated, Consumed, InsertMember, RevokedFor, TokenTaken, LeavesNoActive;
  }

  lemma CreateAccounts(db: Db, user: UserId, signup: Signup, newOrg: Option<(OrgId, string)>,
                       accepting: Option<(InviteId, OrgId)>, at: Time)
    ensures var r := DoCreateSignupUser(db, user, signup, newOrg, accepting, at);
      && (r.outcome != Done ==> r.db == db)
      && (r.outcome == Done ==>
            && user !in db.users && ByEmail(signup.email) !in db.index
            && r.db.users == db.users[user := signup.Row(at)]
            && r.db.index == db.index[ByEmail(signup.email) := user])
  {
    hide Activated, Consumed, InsertMember;
  }

  lemma ReissueAccounts(db: Db, email: string, password: Digest, name: string,
                        accepting: Option<(InviteId, OrgId)>, at: Time)
    ensures var r := DoReissueSignup(db, email, password, name, accepting, at);
      && r.db.index == db.index
      && (r.outcome != Done ==> r.db == db)
      && (r.outcome == NotPending ==> ByEmail(email) !in db.index || !Unconfirmed(db, db.index[ByEmail(email)]))
      && (r.outcome == Done ==>
            && ByEmail(email) in db.index && Unconfirmed(db, db.index[ByEmail(email)])
            && var u := db.index[ByEmail(email)];
            var row := db.users[u].(password := Some(password), displayName := name);
            r.db.users == db.users[u := if accepting.None? then row else row.(status := UserActive, emailVerified := true)])
  {
    hide Activated, Consumed;
  }

  lemma SeedAccounts(db: Db, id: UserId, email: string, mobile: string, password: Digest, name: string, at: Time)
    ensures var r := DoSeed(db, id, email, mobile, password, name, at);
      var target := if email != "" then ByEmail(email) else ByMobile(mobile);
      && Shrinks(db, r.db)
      && (forall u | Leaves(db, r.db, u) :: target in db.index && db.index[target] == u)
  {
  }

  // ---- steps outside registration ------------------------------------------------------------------

  /** Handlers from here on do not register anybody. */
  predicate Quiet(pc: Pc) {
    && !(pc.RegInvite? || pc.RegCreate? || pc.RegJoin? || pc.RegFind? || pc.RegCooldown? || pc.RegReissue?)
    && (pc.Transact? ==> OrgRequest(pc.req))
  }

  lemma SameAccounts(db: Db, db': Db)
    requires db.users == db'.users && db.index == db'.index && Indexed(db)
    ensures Shrinks(db, db') && Indexed(db')
  {
  }

  lemma PurgeAccounts(db: Db, before: Time)
    requires Indexed(db)
    ensures Shrinks(db, Purge.Purged(db, before)) && Indexed(Purge.Purged(db, before))
  {
    var db', gone := Purge.Purged(db, before), Purge.Abandoned(db, before);
    hide Purge.Purged, Purge.Abandoned, HasContact;
    assert db'.users == db.users - gone && db'.index == map c | c in db.index && db.index[c] !in gone :: db.index[c] by {
      PurgedAccounts(db, before);
    }
  }

  lemma PurgedAccounts(db: Db, before: Time)
    ensures var db' := Purge.Purged(db, before); var gone := Purge.Abandoned(db, before);
      && db'.users == db.users - gone
      && db'.index == map c | c in db.index && db.index[c] !in gone :: db.index[c]
  {
  }

  lemma NewAccounts(db: Db, user: UserId, contact: Contact, at: Time)
    requires Indexed(db)
    ensures var db' := DoCreateUser(db, user, contact, at).db;
      Shrinks(db, db') && Indexed(db')
  {
    if user !in db.users && contact !in db.index {
      Constraints.InsertContactKeeps(db, user, NewAccount(contact, at), contact);
    }
  }

  lemma ConfirmedAccounts(db: Db, user: UserId, at: Time)
    requires Indexed(db)
    ensures var db' := DoVerifySignup(db, user, at).db;
      Shrinks(db, db') && Indexed(db')
  {
    if Unconfirmed(db, user) {
      Constraints.UpdateUserKeeps(db, user, db.users[user].(status := UserActive, emailVerified := true));
    }
  }

  lemma QuietStep(app: App, pc: Pc, env: Env)
    requires Quiet(pc) && Indexed(app.db)
    ensures var next := Step(app, pc, env);
      Shrinks(app.db, next.app.db) && Indexed(next.app.db) && (next.Go? ==> Quiet(next.pc))
  {
    hide Step, Quiet, Shrinks, Indexed;
    QuietNext(app, pc, env);
    if WritesTables(pc) {
      QuietWrites(app, pc, env);
    } else {
      SameDb(app, pc, env);
      SameAccounts(app.db, app.db);
    }
  }

  lemma QuietNext(app: App, pc: Pc, env: Env)
    requires Quiet(pc)
    ensures Step(app, pc, env).Go? ==> Quiet(Step(app, pc, env).pc)
  {
    hide Execute, Purge.Purged, DoCreateUser, DoVerifySignup, DoSeed, Unexpired, Without, Counted,
      RevokedAll, Find, HasId, Latest, FindValid, SingleOrg, Confirms, OrgRequest;
  }

  lemma QuietWrites(app: App, pc: Pc, env: Env)
    requires Quiet(pc) && Indexed(app.db) && WritesTables(pc)
    ensures var next := Step(app, pc, env);
      Shrinks(app.db, next.app.db) && Indexed(next.app.db)
  {
    hide Shrinks, Indexed, Execute, Purge.Purged, DoCreateUser, DoVerifySignup, DoSeed;
    SameAccounts(app.db, app.db);
    match pc
    case Transact(req) =>
      OrgRequestAccounts(app.db, req);
      SameAccounts(app.db, Execute(app.db, req).db);
    case PurgeRun(before) => PurgeAccounts(app.db, before);
    case OtpCreate(contact) => NewAccounts(app.db, env.user, contact, env.now);
    case SignupActivate(u) => ConfirmedAccounts(app.db, u, env.now);
    case SeedRun(email, mobile, password, name) =>
      SeedAccounts(app.db, env.user, email, mobile, Digest(password), name, env.now);
      SeedIndexed(app.db, env.user, email, mobile, Digest(password), name, env.now);
  }

  lemma {:induction false} QuietFinish(app: App, pc: Pc, env: Env)
    requires Quiet(pc) && Indexed(app.db)
    ensures Shrinks(app.db, Finish(app, pc, env).app.db) && Indexed(Finish(app, pc, env).app.db)
    decreases Rank(pc)
  {
    hide Step, Quiet, Rank, Indexed;
    QuietStep(app, pc, env);
    RankFalls(app, pc, env);
    var next := Step(app, pc, env);
    if next.Go? { QuietFinish(next.app, next.pc, env); }
  }

  // ---- steps that confirm nobody -------------------------------------------------------------------

  /** Handlers from here on confirm nobody. */
  predicate Plain(pc: Pc) {
    Quiet(pc) && !(pc.SignupRead? || pc.SignupFind? || pc.SignupConsume? || pc.SignupActivate? || pc.SeedRun?)
  }

  lemma SameUsers(db: Db, db': Db)
    requires db.users == db'.users
    ensures Waits(db, db') && Remain(db, db')
  {
  }

  lemma PlainStep(app: App, pc: Pc, env: Env)
    requires Plain(pc)
    ensures var next := Step(app, pc, env);
      Waits(app.db, next.app.db) && (next.Go? ==> Plain(next.pc) && Remain(app.db, next.app.db))
  {
    hide Step, Plain, Waits, Remain;
    PlainNext(app, pc, env);
    if WritesTables(pc) {
      PlainWrites(app, pc, env);
    } else {
      SameDb(app, pc, env);
      SameUsers(app.db, app.db);
    }
  }

  lemma PlainNext(app: App, pc: Pc, env: Env)
    requires Plain(pc)
    ensures Step(app, pc, env).Go? ==> Plain(Step(app, pc, env).pc)
  {
    hide Quiet, Execute, Purge.Purged, DoCreateUser, DoVerifySignup, DoSeed, Unexpired, Without, Counted,
      RevokedAll, Find, HasId, Latest, FindValid, SingleOrg, Confirms;
    QuietNext(app, pc, env);
    assert !(pc.RegInvite? || pc.RegCreate? || pc.RegJoin? || pc.RegFind? || pc.RegCooldown? || pc.RegReissue?) by {
      QuietExcludes(pc);
    }
  }

  lemma QuietExcludes(pc: Pc)
    requires Quiet(pc)
    ensures !(pc.RegInvite? || pc.RegCreate? || pc.RegJoin? || pc.RegFind? || pc.RegCooldown? || pc.RegReissue?)
  {
  }

  lemma PlainWrites(app: App, pc: Pc, env: Env)
    requires Plain(pc) && WritesTables(pc)
    ensures var next := Step(app, pc, env);
      Waits(app.db, next.app.db) && (next.Go? ==> Remain(app.db, next.app.db))
  {
    hide Waits, Remain, Execute, Purge.Purged, DoCreateUser;
    SameUsers(app.db, app.db);
    match pc
    case Transact(req) =>
      OrgRequestAccounts(app.db, req);
      SameUsers(app.db, Execute(app.db, req).db);
    case PurgeRun(before) => PurgeWaits(app.db, before);
    case OtpCreate(contact) => CreateWaits(app.db, env.user, contact, env.now);
  }

  lemma PurgeWaits(db: Db, before: Time)
    ensures Waits(db, Purge.Purged(db, before))
  {
    PurgedAccounts(db, before);
  }

  lemma CreateWaits(db: Db, user: UserId, contact: Contact, at: Time)
    ensures var db' := DoCreateUser(db, user, contact, at).db;
      Waits(db, db') && Remain(db, db')
  {
  }

  lemma {:induction false} PlainFinish(app: App, pc: Pc, env: Env)
    requires Plain(pc)
    ensures Waits(app.db, Finish(app, pc, env).app.db)
    decreases Rank(pc)
  {
    hide Step, Plain, Rank, Unconfirmed;
    PlainStep(app, pc, env);
    RankFalls(app, pc, env);
    var next := Step(app, pc, env);
    if next.Go? { PlainFinish(next.app, next.pc, env); }
  }

  // ---- confirming a sign-up ------------------------------------------------------------------------

  lemma ChooseKeepsTables(app: App, u: UserId, env: Env)
    ensures Finish(app, Choose(u), env).app.db == app.db
  {
    hide Finish, SingleOrg;
    FinishStep(app, Choose(u), env);
    var o := if env.autoSelect then SingleOrg(app.db, u) else None;
    FinishStep(app, Issue(u, o, None), env);
  }

  lemma ActivateFinish(app: App, v: UserId, env: Env, u: UserId)
    ensures Leaves(app.db, Finish(app, SignupActivate(v), env).app.db, u) <==> u == v && Unconfirmed(app.db, v)
  {
    hide Finish;
    FinishStep(app, SignupActivate(v), env);
    var next := Step(app, SignupActivate(v), env);
    if next.Go? { ChooseKeepsTables(next.app, v, env); }
  }

  lemma ConsumeFinish(app: App, id: string, v: UserId, env: Env, u: UserId)
    ensures Leaves(app.db, Finish(app, SignupConsume(id, v), env).app.db, u) <==> u == v && Unconfirmed(app.db, v)
  {
    hide Finish, Leaves, Unconfirmed;
    FinishStep(app, SignupConsume(id, v), env);
    ActivateFinish(Step(app, SignupConsume(id, v), env).app, v, env, u);
  }

  lemma CountKeeps(app: App, id: string, env: Env)
    ensures Finish(app, CountWrong(id), env).app.db == app.db
  {
    hide Finish;
    FinishStep(app, CountWrong(id), env);
  }

  /** The account of this address, with this password stored. */
  ghost predicate HoldsPassword(db: Db, email: string, password: string, u: UserId) {
    && ByEmail(email) in db.index && db.index[ByEmail(email)] == u
    && u in db.users && db.users[u].password == Some(Digest(password))
  }

  lemma FindFinish(app: App, email: string, id: string, password: string, env: Env, u: UserId)
    ensures Leaves(app.db, Finish(app, SignupFind(email, id, password), env).app.db, u)
      <==> Unconfirmed(app.db, u) && HoldsPassword(app.db, email, password, u)
  {
    hide Finish;
    FinishStep(app, SignupFind(email, id, password), env);
    CountKeeps(app, id, env);
    var found := Find(app.db, ByEmail(email));
    if found.Some? { ConsumeFinish(app, id, found.value, env, u); }
  }

  /** The newest challenge of the address is alive and has this code. */
  ghost predicate NewestCode(app: App, email: string, code: string, env: Env) {
    var latest := Latest(app.challenges, email, EMAIL, env.choice);
    && latest.Some?
    && var c := app.challenges[latest.value];
    env.now <= c.expiresAt && c.attempts < MAX_OTP_ATTEMPTS && c.code == Digest(code)
  }

  lemma ReadFinish(app: App, email: string, code: string, password: string, env: Env, u: UserId)
    ensures Leaves(app.db, Finish(app, SignupRead(email, code, password), env).app.db, u)
      <==> Unconfirmed(app.db, u) && NewestCode(app, email, code, env) && HoldsPassword(app.db, email, password, u)
  {
    hide Finish, HoldsPassword;
    FinishStep(app, SignupRead(email, code, password), env);
    var latest := Latest(app.challenges, email, EMAIL, env.choice);
    if latest.Some? {
      var c := app.challenges[latest.value];
      CountKeeps(app, c.id, env);
      FindFinish(app, email, c.id, password, env, u);
    }
  }

  /** Confirming a sign-up takes the newest code of the address and the stored password, and nothing else
      stops it. */
  lemma ConfirmExactly(app: App, email: string, code: string, password: string, env: Env, u: UserId)
    ensures Leaves(app.db, Complete(app, ConfirmSignup(email, code, password), env).app.db, u) <==>
      && Unconfirmed(app.db, u) && env.signupOpen && NormalizeEmail(email) != "" && Trim(code) != ""
      && NewestCode(app, NormalizeEmail(email), Trim(code), env)
      && HoldsPassword(app.db, NormalizeEmail(email), password, u)
  {
    hide Finish, NewestCode, HoldsPassword, Trim, NormalizeEmail;
    ReadFinish(app, NormalizeEmail(email), Trim(code), password, env, u);
  }

  // ---- registering -----------------------------------------------------------------------------------

  /** Every unconfirmed account of the address holds the form's password. */
  ghost predicate Replaced(form: Form, db: Db) {
    forall u | Unconfirmed(db, u) && db.users[u].email == Some(form.email) ::
      db.users[u].password == Some(Digest(form.password))
  }

  /** What registration does to accounts. */
  ghost predicate Registers(form: Form, db: Db, end: Next) {
    && end.Halt?
    && Indexed(end.app.db)
    && Spares(db, end.app.db)
    && OnlyBy(form, db, end.app.db)
    && (if end.reply.Refused? then end.app.db == db else Replaced(form, end.app.db))
  }

  lemma RefusedRegisters(form: Form, app: App, why: Reason)
    requires Indexed(app.db)
    ensures Registers(form, app.db, Sessions.Refuse(app, why))
  {
  }

  /** Without an unconfirmed account of the address there is nothing to replace. */
  lemma NobodyWaits(form: Form, db: Db)
    requires Indexed(db) && (ByEmail(form.email) in db.index ==> !Unconfirmed(db, db.index[ByEmail(form.email)]))
    ensures Replaced(form, db)
  {
    forall u | Unconfirmed(db, u) ensures db.users[u].email != Some(form.email) {
      assert db.users[u].email == Some(form.email) ==> HasContact(db.users[u], ByEmail(form.email));
    }
  }

  /** The account the address leads to is changed in place. */
  lemma ReplacedRow(form: Form, db: Db, u: UserId, row: User, db': Db)
    requires Indexed(db) && ByEmail(form.email) in db.index && db.index[ByEmail(form.email)] == u && Unconfirmed(db, u)
    requires row.email == db.users[u].email && row.mobile == db.users[u].mobile && row.password == Some(Digest(form.password))
    requires db'.users == db.users[u := row] && db'.index == db.index
    ensures Indexed(db') && Spares(db, db') && OnlyBy(form, db, db') && Replaced(form, db')
  {
    Constraints.UpdateUserKeeps(db, u, row);
    assert Indexed(db') by { Constraints.SameIndexKeeps(db.(users := db.users[u := row]), db'); }
    assert HasContact(db.users[u], ByEmail(form.email));
    forall v | Unconfirmed(db', v) && db'.users[v].email == Some(form.email) ensures v == u {
      assert HasContact(db'.users[v], ByEmail(form.email));
    }
  }

  lemma ReissueRegisters(app: App, form: Form, rotate: bool, env: Env)
    requires Indexed(app.db)
    ensures Registers(form, app.db, Step(app, RegReissue(form, rotate), env))
    ensures Waits(app.db, Step(app, RegReissue(form, rotate), env).app.db)
  {
    hide DoReissueSignup, WithoutFor, HasId, Replaced, Indexed, OnlyBy, Spares, Waits;
    ReissueAccounts(app.db, form.email, Digest(form.password), form.name, None, env.now);
    ReissueOutcomes(app.db, form, None, env.now);
    var r := DoReissueSignup(app.db, form.email, Digest(form.password), form.name, None, env.now);
    NothingChanged(form, app.db);
    if r.outcome == Done {
      var u := app.db.index[ByEmail(form.email)];
      ReplacedRow(form, app.db, u, r.db.users[u], r.db);
      StillWaits(app.db, u, r.db);
    } else {
      NobodyWaits(form, app.db);
    }
  }

  lemma ReissueOutcomes(db: Db, form: Form, accepting: Option<(InviteId, OrgId)>, at: Time)
    ensures accepting.None? ==>
      DoReissueSignup(db, form.email, Digest(form.password), form.name, accepting, at).outcome in {Done, NotPending}
  {
  }

  lemma NothingChanged(form: Form, db: Db)
    ensures OnlyBy(form, db, db) && Spares(db, db) && Waits(db, db)
  {
  }

  lemma StillWaits(db: Db, u: UserId, db': Db)
    requires u in db.users && u in db'.users && db'.users == db.users[u := db'.users[u]] && Unconfirmed(db', u)
    ensures Waits(db, db')
  {
  }

  lemma JoinRegisters(app: App, form: Form, via: (InviteId, OrgId), env: Env)
    requires Indexed(app.db)
    ensures Registers(form, app.db, Step(app, RegJoin(form, via), env))
    ensures forall u | Leaves(app.db, Step(app, RegJoin(form, via), env).app.db, u) ::
      ByEmail(form.email) in app.db.index && app.db.index[ByEmail(form.email)] == u
  {
    hide DoReissueSignup, Replaced, Indexed, OnlyBy, Spares;
    ReissueAccounts(app.db, form.email, Digest(form.password), form.name, Some(via), env.now);
    var r := DoReissueSignup(app.db, form.email, Digest(form.password), form.name, Some(via), env.now);
    NothingChanged(form, app.db);
    if r.outcome == Done {
      var u := app.db.index[ByEmail(form.email)];
      ReplacedRow(form, app.db, u, r.db.users[u], r.db);
    } else if r.outcome == NotPending {
      NobodyWaits(form, app.db);
    }
  }

  lemma FindRegisters(app: App, form: Form, env: Env)
    requires Indexed(app.db)
    ensures Registers(form, app.db, Finish(app, RegFind(form), env))
    ensures Waits(app.db, Finish(app, RegFind(form), env).app.db)
  {
    hide Finish, Registers, Waits, CooldownActive, Step, AtRegFind;
    FinishRegFind(app, form, env);
    var rotate := !CooldownActive(app, form.email, env);
    ReissueRegisters(app, form, rotate, env);
    FinishStep(app, RegReissue(form, rotate), env);
    ReissueHalts(app, form, rotate, env);
    FoundRegisters(app, form);
  }

  lemma ReissueHalts(app: App, form: Form, rotate: bool, env: Env)
    ensures Step(app, RegReissue(form, rotate), env).Halt?
    ensures AtRegFind(app, form).app == app
  {
    hide DoReissueSignup, WithoutFor, HasId, Find;
  }

  lemma FoundRegisters(app: App, form: Form)
    requires Indexed(app.db)
    ensures Waits(app.db, app.db)
    ensures AtRegFind(app, form).Halt? ==> Registers(form, app.db, AtRegFind(app, form))
  {
    NothingChanged(form, app.db);
    if AtRegFind(app, form).Halt? { NobodyWaits(form, app.db); }
  }

  /** Storing and sending the first code leaves the accounts alone. */
  lemma SweepKeeps(app: App, identifier: string, env: Env)
    ensures var end := Finish(app, Sweep(identifier, EMAIL), env);
      end.app.db == app.db && !end.reply.Refused?
  {
    hide Finish, Unexpired, HasId;
    FinishStep(app, Sweep(identifier, EMAIL), env);
    FinishStep(Step(app, Sweep(identifier, EMAIL), env).app, Insert(identifier, EMAIL), env);
  }

  lemma InsertedRegisters(app: App, form: Form, u: UserId, row: User, app': App, reply: Reply)
    requires Indexed(app.db) && u !in app.db.users && ByEmail(form.email) !in app.db.index && !reply.Refused?
    requires row.email == Some(form.email) && row.mobile == None && row.password == Some(Digest(form.password))
    requires app'.db.users == app.db.users[u := row] && app'.db.index == app.db.index[ByEmail(form.email) := u]
    ensures Registers(form, app.db, Halt(app', reply)) && Waits(app.db, app'.db)
  {
    Constraints.InsertContactKeeps(app.db, u, row, ByEmail(form.email));
    Constraints.SameIndexKeeps(app.db.(users := app.db.users[u := row], index := app.db.index[ByEmail(form.email) := u]), app'.db);
    forall v | Unconfirmed(app'.db, v) && app'.db.users[v].email == Some(form.email) ensures v == u {
      assert HasContact(app'.db.users[v], ByEmail(form.email));
    }
  }

  lemma CreateRegisters(app: App, form: Form, invite: Option<(InviteId, OrgId)>, env: Env)
    requires Indexed(app.db)
    ensures Registers(form, app.db, Finish(app, RegCreate(form, invite), env))
    ensures forall u | Leaves(app.db, Finish(app, RegCreate(form, invite), env).app.db, u) ::
      invite.Some? && ByEmail(form.email) in app.db.index && app.db.index[ByEmail(form.email)] == u
  {
    hide Finish, Registers, DoCreateSignupUser, Waits, Leaves, Indexed;
    FinishStep(app, RegCreate(form, invite), env);
    var own := if invite.None? && form.orgName != "" then Some((env.org, form.orgName)) else None;
    var signup := SignupOf(form, invite.Some?);
    CreateAccounts(app.db, env.user, signup, own, invite, env.now);
    var r := DoCreateSignupUser(app.db, env.user, signup, own, invite, env.now);
    if r.outcome == Done {
      var made := app.(db := r.db);
      SweepKeeps(made, form.email, env);
      var end := Finish(app, RegCreate(form, invite), env);
      InsertedRegisters(app, form, env.user, signup.Row(env.now), end.app, end.reply);
      WaitsLeaves(app.db, end.app.db);
    } else if r.outcome == Duplicate {
      if invite.Some? {
        FinishStep(app, RegJoin(form, invite.value), env);
        JoinRegisters(app, form, invite.value, env);
      } else {
        FindRegisters(app, form, env);
        WaitsLeaves(app.db, Finish(app, RegFind(form), env).app.db);
      }
    } else {
      RefusedRegisters(form, app, InviteError(r.outcome));
      WaitsSelf(app.db);
    }
  }

  lemma WaitsLeaves(db: Db, db': Db)
    requires Waits(db, db')
    ensures forall u :: !Leaves(db, db', u)
  {
  }

  lemma WaitsSelf(db: Db)
    ensures forall u :: !Leaves(db, db, u)
  {
  }

  /** Registering changes no field of an account that is not signing up; the only sign-up it creates or changes
      is the address's own, which then holds the new password; a refusal changes nothing. An account leaves
      sign-up by registering only with a usable invitation for its address. */
  lemma RegisterExactly(app: App, call: Call, env: Env)
    requires Indexed(app.db) && call.Register?
    ensures Registers(FormOf(call), app.db, Complete(app, call, env))
    ensures forall u | Leaves(app.db, Complete(app, call, env).app.db, u) ::
      && ByEmail(NormalizeEmail(call.email)) in app.db.index && app.db.index[ByEmail(NormalizeEmail(call.email))] == u
      && exists i :: i in app.db.invites && app.db.invites[i].tokenHash == Digest(Trim(call.inviteToken))
                     && Usable(app.db.invites[i], NormalizeEmail(call.email), env.now)
  {
    hide Finish, Registers, Trim, NormalizeEmail, IsEmail, Leaves, Usable, Indexed;
    var form, token := FormOf(call), Trim(call.inviteToken);
    forall why { RefusedRegisters(form, app, why); }
    WaitsSelf(app.db);
    CreateRegisters(app, form, None, env);
    FinishStep(app, RegInvite(form, token), env);
    var found := FindInvite(app.db, Digest(token));
    if found.Some? {
      CreateRegisters(app, form, Some((found.value, app.db.invites[found.value].org)), env);
    }
  }

  function FormOf(call: Call): Form
    requires call.Register?
  {
    Form(NormalizeEmail(call.email), call.password, Trim(call.name), Trim(call.orgName))
  }

  // ---- every complete call ----------------------------------------------------------------------------

  /** What it takes to leave sign-up in one call. */
  ghost predicate Earned(app: App, call: Call, env: Env, u: UserId) {
    match call
    case ConfirmSignup(email, code, password) =>
      && NewestCode(app, NormalizeEmail(email), Trim(code), env)
      && HoldsPassword(app.db, NormalizeEmail(email), password, u)
    case Register(email, _, _, _, token) =>
      && ByEmail(NormalizeEmail(email)) in app.db.index && app.db.index[ByEmail(NormalizeEmail(email))] == u
      && exists i :: i in app.db.invites && app.db.invites[i].tokenHash == Digest(Trim(token))
                     && Usable(app.db.invites[i], NormalizeEmail(email), env.now)
    case SeedDemo(email, mobile, _, _) =>
      var target := if NormalizeEmail(email) != "" then ByEmail(NormalizeEmail(email)) else ByMobile(Trim(mobile));
      target in app.db.index && app.db.index[target] == u
    case _ => false
  }

  /** An account leaves sign-up only through the newest code and the stored password, a usable invitation for
      its address, or demo seeding. */
  lemma LeavesOnlyEarned(app: App, call: Call, env: Env, u: UserId)
    requires Indexed(app.db) && Proper(call) && Leaves(app.db, Complete(app, call, env).app.db, u)
    ensures Earned(app, call, env, u)
  {
    match call
    case ConfirmSignup(email, code, password) => ConfirmExactly(app, email, code, password, env, u);
    case Register(_, _, _, _, _) => RegisterExactly(app, call, env);
    case SeedDemo(email, mobile, password, name) => SeedLeaves(app, call, env, u);
    case _ => OthersConfirmNobody(app, call, env);
  }

  lemma SeedLeaves(app: App, call: Call, env: Env, u: UserId)
    requires call.SeedDemo? && Leaves(app.db, Complete(app, call, env).app.db, u)
    ensures Earned(app, call, env, u)
  {
    hide Finish, DoSeed, Trim, NormalizeEmail, IsE164;
    var email, mobile := NormalizeEmail(call.email), Trim(call.mobile);
    FinishStep(app, SeedRun(email, mobile, call.password, call.name), env);
    SeedAccounts(app.db, env.user, email, mobile, Digest(call.password), call.name, env.now);
  }

  lemma OthersConfirmNobody(app: App, call: Call, env: Env)
    requires Proper(call) && !call.ConfirmSignup? && !call.Register? && !call.SeedDemo?
    ensures forall u :: !Leaves(app.db, Complete(app, call, env).app.db, u)
  {
    hide Finish, Trim, NormalizeEmail, IsE164, LoginContact, Leaves;
    WaitsSelf(app.db);
    var next := Start(app, call, env);
    if next.Go? {
      PlainFinish(app, next.pc, env);
      WaitsLeaves(app.db, Finish(app, next.pc, env).app.db);
    }
  }

  lemma OthersRegisterNobody(app: App, call: Call, env: Env)
    requires Proper(call) && !call.Register? && Indexed(app.db)
    ensures Shrinks(app.db, Complete(app, call, env).app.db) && Indexed(Complete(app, call, env).app.db)
  {
    hide Finish, Trim, NormalizeEmail, IsE164, LoginContact, Shrinks, Indexed;
    SameAccounts(app.db, app.db);
    var next := Start(app, call, env);
    if next.Go? { QuietFinish(app, next.pc, env); }
  }

  // ---- sequences of complete calls ------------------------------------------------------------------------

  ghost predicate AllProper(calls: seq<(Call, Env)>) {
    forall c <- calls :: Proper(c.0)
  }

  /** The password of the last registration for an address that was not refused. */
  ghost function LastPassword(calls: seq<(Call, Env)>, email: string): Option<Digest> {
    if calls == [] then None
    else
      var n := |calls| - 1;
      var call, env := calls[n].0, calls[n].1;
      if call.Register? && NormalizeEmail(call.email) == email
         && !Complete(AfterCalls(FRESH, calls[..n]), call, env).reply.Refused?
      then Some(Digest(call.password))
      else LastPassword(calls[..n], email)
  }

  ghost predicate PasswordsKnown(calls: seq<(Call, Env)>, db: Db) {
    forall u | Unconfirmed(db, u) ::
      && db.users[u].email.Some? && db.users[u].password.Some?
      && db.users[u].password == LastPassword(calls, db.users[u].email.value)
  }

  lemma RegisterKnown(calls: seq<(Call, Env)>, before: Db, form: Form, end: Next)
    requires calls != [] && calls[|calls| - 1].0.Register? && form == FormOf(calls[|calls| - 1].0)
    requires var n := |calls| - 1;
      && before == AfterCalls(FRESH, calls[..n]).db
      && end == Complete(AfterCalls(FRESH, calls[..n]), calls[n].0, calls[n].1)
      && PasswordsKnown(calls[..n], before)
    requires Registers(form, before, end)
    ensures PasswordsKnown(calls, end.app.db)
  {
    hide Complete, AfterCalls, NormalizeEmail, Trim, Indexed, Spares;
    var n := |calls| - 1;
    forall u | Unconfirmed(end.app.db, u)
      ensures var row := end.app.db.users[u];
        row.email.Some? && row.password.Some? && row.password == LastPassword(calls, row.email.value)
    {
      var row := end.app.db.users[u];
      if end.reply.Refused? || row.email != Some(form.email) {
        assert Unconfirmed(before, u) && before.users[u] == row;
      }
    }
  }

  /** From an empty store, over every sequence of complete calls: the password of an account that is signing up
      is the one last registered for its address. */
  lemma {:induction false} PendingPasswords(calls: seq<(Call, Env)>)
    requires AllProper(calls)
    ensures PasswordsKnown(calls, AfterCalls(FRESH, calls).db) && Indexed(AfterCalls(FRESH, calls).db)
    decreases |calls|
  {
    hide Complete, Registers, Proper;
    if calls != [] {
      var n := |calls| - 1;
      var before, call, env := AfterCalls(FRESH, calls[..n]), calls[n].0, calls[n].1;
      assert calls[n] in calls && forall c <- calls[..n] :: c in calls;
      PendingPasswords(calls[..n]);
      var end := Complete(before, call, env);
      if call.Register? {
        RegisterExactly(before, call, env);
        RegisterKnown(calls, before.db, FormOf(call), end);
        RegistersIndexed(FormOf(call), before.db, end);
      } else {
        OthersRegisterNobody(before, call, env);
        QuietKnown(calls, before.db, end.app.db);
      }
    }
  }

  lemma RegistersIndexed(form: Form, db: Db, end: Next)
    requires Registers(form, db, end)
    ensures Indexed(end.app.db)
  {
  }

  lemma QuietKnown(calls: seq<(Call, Env)>, before: Db, after: Db)
    requires calls != [] && !calls[|calls| - 1].0.Register? && PasswordsKnown(calls[..|calls| - 1], before)
    requires Shrinks(before, after)
    ensures PasswordsKnown(calls, after)
  {
    hide Complete, AfterCalls;
    forall u | Unconfirmed(after, u) ensures Unconfirmed(before, u) && before.users[u] == after.users[u] {}
  }

  /** So whoever confirms a sign-up presents the newest code of the address and the password last registered
      for it. */
  lemma ConfirmedByLastRegistrant(calls: seq<(Call, Env)>, email: string, code: string, password: string, env: Env, u: UserId)
    requires AllProper(calls)
    requires var before := AfterCalls(FRESH, calls);
      Leaves(before.db, Complete(before, ConfirmSignup(email, code, password), env).app.db, u)
    ensures var before := AfterCalls(FRESH, calls);
      && NewestCode(before, NormalizeEmail(email), Trim(code), env)
      && LastPassword(calls, NormalizeEmail(email)) == Some(Digest(password))
  {
    hide AfterCalls, LastPassword, NewestCode, Complete, NormalizeEmail, Trim;
    PendingPasswords(calls);
    var before := AfterCalls(FRESH, calls);
    ConfirmExactly(before, email, code, password, env, u);
    var e := NormalizeEmail(email);
    assert HasContact(before.db.users[u], ByEmail(e));
  }
}
