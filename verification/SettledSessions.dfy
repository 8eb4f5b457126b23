/** No session for an account that is still signing up or was purged, however the store calls of concurrent
    requests interleave. This is what makes a refresh sound although it never looks at the account. */
module SettledSessions {
  import opened Tables
  import opened Transactions
  import opened Sessions
  import opened DemoUsers
  import opened Text
  import Purge

  /** The account exists and has left sign-up. */
  ghost predicate Settled(db: Db, u: UserId) {
    u in db.users && db.users[u].status != SignupPending
  }

  /** Settled accounts stay settled. */
  ghost predicate Progresses(db: Db, db': Db) {
    forall u | Settled(db, u) :: Settled(db', u)
  }

  lemma UsersDecide(db: Db, db': Db)
    requires db.users == db'.users
    ensures Progresses(db, db')
  {
  }

  lemma SignupProgresses(db: Db, user: UserId, signup: Signup, newOrg: Option<(OrgId, string)>,
                         accepting: Option<(InviteId, OrgId)>, at: Time)
    ensures Progresses(db, DoCreateSignupUser(db, user, signup, newOrg, accepting, at).db)
  {
    hide Activated, Consumed, InsertMember;
  }

  lemma ReissueProgresses(db: Db, email: string, password: Digest, name: string,
                          accepting: Option<(InviteId, OrgId)>, at: Time)
    ensures Progresses(db, DoReissueSignup(db, email, password, name, accepting, at).db)
  {
    hide Activated, Consumed;
  }

  /** No store transaction takes an account back into sign-up or deletes a settled one. */
  lemma ExecuteProgresses(db: Db, req: Request)
    ensures Progresses(db, Execute(db, req).db)
  {
    hide DoCreateSignupUser, DoReissueSignup, Activated, Consumed, InsertMember, RevokedFor, TokenTaken, LeavesNoActive;
    match req
    case CreateSignupUser(user, signup, newOrg, accepting, at) =>
      SignupProgresses(db, user, signup, newOrg, accepting, at);
    case ReissueSignup(email, password, name, accepting, at) =>
      ReissueProgresses(db, email, password, name, accepting, at);
    case CreateUser(_, _, _) =>
    case VerifySignup(_, _) =>
    case _ => UsersDecide(db, Execute(db, req).db);
  }

  lemma PurgeProgresses(db: Db, before: Time)
    ensures Progresses(db, Purge.Purged(db, before))
  {
    assert Purge.Purged(db, before).users == db.users - Purge.Abandoned(db, before);
  }

  lemma SeedProgresses(db: Db, id: UserId, email: string, mobile: string, password: Digest, name: string, at: Time)
    ensures Progresses(db, DoSeed(db, id, email, mobile, password, name, at).db)
  {
  }

  // ---- assertions at each store call ------------------------------------------------------

  ghost predicate AllSettled(app: App) {
    forall t <- app.tokens :: Settled(app.db, t.user)
  }

  /** Once a handler is past its account check, the account is settled. */
  ghost predicate Cleared(db: Db, pc: Pc) {
    match pc
    case LoginNote(u) => Settled(db, u)
    case Choose(u) => Settled(db, u)
    case Issue(u, _, _) => Settled(db, u)
    case RefreshRevoke(_, u, _, _) => Settled(db, u)
    case RefreshOrg(u, _, _) => Settled(db, u)
    case SelectRevoke(_, u, _, _) => Settled(db, u)
    case _ => true
  }

  lemma StepProgresses(app: App, pc: Pc, env: Env)
    ensures Progresses(app.db, Step(app, pc, env).app.db)
  {
    if !WritesTables(pc) {
      SameDb(app, pc, env);
      UsersDecide(app.db, Step(app, pc, env).app.db);
    } else if pc.RegCreate? || pc.RegJoin? || pc.RegReissue? {
      RegistrationStep(app, pc, env);
    } else {
      hide Step, Progresses;
      OtherWrites(app, pc, env);
    }
  }

  lemma RegistrationStep(app: App, pc: Pc, env: Env)
    requires pc.RegCreate? || pc.RegJoin? || pc.RegReissue?
    ensures Progresses(app.db, Step(app, pc, env).app.db)
  {
    hide DoReissueSignup, Progresses, HasId, WithoutFor, AtRegCreate;
    UsersDecide(app.db, app.db);
    match pc
    case RegCreate(form, invite) => CreateStep(app, form, invite, env);
    case RegJoin(form, via) =>
      ReissueProgresses(app.db, form.email, Digest(form.password), form.name, Some(via), env.now);
    case RegReissue(form, _) =>
      ReissueProgresses(app.db, form.email, Digest(form.password), form.name, None, env.now);
  }

  lemma OtherWrites(app: App, pc: Pc, env: Env)
    requires pc.PurgeRun? || pc.SeedRun? || pc.Transact? || pc.OtpCreate? || pc.SignupActivate?
    ensures Progresses(app.db, Step(app, pc, env).app.db)
  {
    hide DoSeed, Execute, Purge.Purged, Progresses, DoCreateUser, DoVerifySignup;
    UsersDecide(app.db, app.db);
    match pc
    case PurgeRun(before) => PurgeProgresses(app.db, before);
    case SeedRun(email, mobile, password, name) =>
      SeedProgresses(app.db, env.user, email, mobile, Digest(password), name, env.now);
    case Transact(req) => ExecuteProgresses(app.db, req);
    case OtpCreate(contact) => ExecuteStep(app.db, CreateUser(env.user, contact, env.now));
    case SignupActivate(u) => ExecuteStep(app.db, VerifySignup(u, env.now));
  }

  lemma CreateStep(app: App, form: Form, invite: Option<(InviteId, OrgId)>, env: Env)
    ensures Progresses(app.db, AtRegCreate(app, form, invite, env).app.db)
  {
    hide DoCreateSignupUser;
    var own := if invite.None? && form.orgName != "" then Some((env.org, form.orgName)) else None;
    SignupProgresses(app.db, env.user, SignupOf(form, invite.Some?), own, invite, env.now);
  }

  lemma ExecuteStep(db: Db, req: Request)
    requires req.CreateUser? || req.VerifySignup?
    ensures Progresses(db, db) && Progresses(db, Execute(db, req).db)
    ensures req.CreateUser? ==> Execute(db, req) == DoCreateUser(db, req.user, req.contact, req.at)
    ensures req.VerifySignup? ==> Execute(db, req) == DoVerifySignup(db, req.user, req.at)
  {
    ExecuteProgresses(db, req);
    UsersDecide(db, db);
  }

  /** The handlers' queries, and their writes to challenges and tokens, leave the tables alone. */
  predicate WritesTables(pc: Pc) {
    || pc.RegCreate? || pc.RegJoin? || pc.RegReissue? || pc.PurgeRun? || pc.SeedRun? || pc.Transact?
    || pc.OtpCreate? || pc.SignupActivate?
  }

  lemma SameDb(app: App, pc: Pc, env: Env)
    requires !WritesTables(pc)
    ensures Step(app, pc, env).app.db == app.db
  {
    hide Unexpired, Without, Counted, RevokedAll, CooldownActive, Find, HasId, Latest, FindValid, FindInvite, SingleOrg;
  }

  /** Only issuing a pair adds a token; revoking keeps every token's account. */
  lemma StepTokens(app: App, pc: Pc, env: Env)
    ensures forall t <- Step(app, pc, env).app.tokens ::
      (exists s <- app.tokens :: s.user == t.user) || (pc.Issue? && t.user == pc.user)
  {
    hide DoCreateSignupUser, DoReissueSignup, DoSeed, Execute, Purge.Purged, DoCreateUser, DoVerifySignup,
      Unexpired, Without, Counted, RevokedAll, CooldownActive, Find, HasId, WithoutFor,
      Latest, FindValid, FindInvite, SingleOrg;
    if pc.RefreshRevoke? || pc.SelectRevoke? {
      RevokedUsers(app.tokens, Digest(pc.token));
    }
  }

  lemma RevokedUsers(ts: seq<Token>, hash: Digest)
    ensures forall t <- RevokedAll(ts, hash) :: exists s <- ts :: s.user == t.user
  {
    forall t | t in RevokedAll(ts, hash) ensures exists s <- ts :: s.user == t.user {
      var i :| 0 <= i < |ts| && RevokedAll(ts, hash)[i] == t;
      assert ts[i] in ts;
    }
  }

  lemma StepCleared(app: App, pc: Pc, env: Env)
    requires AllSettled(app) && Cleared(app.db, pc)
    ensures var next := Step(app, pc, env);
      && (next.Go? ==> Cleared(next.app.db, next.pc))
      && (next.Halt? && next.reply.Pair? ==> Settled(next.app.db, next.reply.user))
  {
    hide DoCreateSignupUser, DoReissueSignup, DoSeed, Execute, Purge.Purged,
      Unexpired, Without, Counted, RevokedAll, CooldownActive, HasId, WithoutFor, Latest, SingleOrg, FindInvite;
  }

  // ---- every interleaving -----------------------------------------------------------------

  datatype Sys = Sys(app: App, threads: map<nat, Pc>, replies: seq<Reply>)

  datatype Move = Arrive(thread: nat, call: Call) | Run(thread: nat)

  ghost function Settle(sys: Sys, t: nat, next: Next): Sys {
    match next
    case Go(app, pc) => Sys(app, sys.threads[t := pc], sys.replies)
    case Halt(app, reply) => Sys(app, sys.threads - {t}, sys.replies + [reply])
  }

  /** A request arrives on a free thread, or a thread makes its next store call. */
  ghost function Moved(sys: Sys, move: Move, env: Env): Sys {
    match move
    case Arrive(t, call) => if t in sys.threads then sys else Settle(sys, t, Start(sys.app, call, env))
    case Run(t) => if t !in sys.threads then sys else Settle(sys, t, Step(sys.app, sys.threads[t], env))
  }

  ghost function MovedAll(sys: Sys, moves: seq<(Move, Env)>): Sys {
    if moves == [] then sys
    else
      var n := |moves| - 1;
      Moved(MovedAll(sys, moves[..n]), moves[n].0, moves[n].1)
  }

  /** A request on a free thread, then that thread's store calls with no other move between them, is the
      complete call. */
  lemma AloneIsComplete(sys: Sys, t: nat, call: Call, env: Env) returns (moves: seq<(Move, Env)>)
    requires t !in sys.threads
    ensures var end := Complete(sys.app, call, env);
      MovedAll(sys, moves) == Sys(end.app, sys.threads, sys.replies + [end.reply])
    ensures forall m <- moves :: m.0.thread == t && m.1 == env
  {
    hide Step, Start;
    moves := [(Arrive(t, call), env)];
    var next := Start(sys.app, call, env);
    var sys' := Settle(sys, t, next);
    assert moves[..0] == [];
    assert MovedAll(sys, moves) == sys';
    if next.Go? {
      var rest := FinishAlone(sys', t, env);
      MovedThen(sys, moves, rest);
      moves := moves + rest;
      assert sys'.threads - {t} == sys.threads;
    } else {
      assert sys.threads - {t} == sys.threads;
    }
  }

  lemma {:induction false} FinishAlone(sys: Sys, t: nat, env: Env) returns (moves: seq<(Move, Env)>)
    requires t in sys.threads
    ensures var end := Finish(sys.app, sys.threads[t], env);
      MovedAll(sys, moves) == Sys(end.app, sys.threads - {t}, sys.replies + [end.reply])
    ensures forall m <- moves :: m.0.thread == t && m.1 == env
    decreases Rank(sys.threads[t])
  {
    hide Step, Finish, Rank;
    var pc := sys.threads[t];
    FinishStep(sys.app, pc, env);
    RankFalls(sys.app, pc, env);
    moves := [(Run(t), env)];
    assert moves[..0] == [];
    var next := Step(sys.app, pc, env);
    var sys' := Settle(sys, t, next);
    assert MovedAll(sys, moves) == sys';
    if next.Go? {
      var rest := FinishAlone(sys', t, env);
      MovedThen(sys, moves, rest);
      moves := moves + rest;
      assert sys'.threads - {t} == sys.threads - {t};
    }
  }

  lemma {:induction false} MovedThen(sys: Sys, first: seq<(Move, Env)>, second: seq<(Move, Env)>)
    ensures MovedAll(sys, first + second) == MovedAll(MovedAll(sys, first), second)
    decreases |second|
  {
    hide Moved;
    if second == [] {
      assert first + second == first;
    } else {
      var n := |second| - 1;
      MovedThen(sys, first, second[..n]);
      assert (first + second)[..|first| + n] == first + second[..n];
    }
  }

  ghost predicate Safe(sys: Sys) {
    && AllSettled(sys.app)
    && (forall t <- sys.threads :: Cleared(sys.app.db, sys.threads[t]))
    && (forall r <- sys.replies | r.Pair? :: Settled(sys.app.db, r.user))
  }

  lemma StartCleared(app: App, call: Call, env: Env)
    ensures var next := Start(app, call, env);
      && next.app == app
      && (next.Go? ==> Cleared(app.db, next.pc))
      && (next.Halt? ==> !next.reply.Pair?)
  {
    hide Trim, IsEmail, IsE164, NormalizeEmail, LoginContact;
  }

  lemma ClearedStable(db: Db, db': Db, pc: Pc)
    requires Progresses(db, db') && Cleared(db, pc)
    ensures Cleared(db', pc)
  {
  }

  lemma RunSafe(sys: Sys, t: nat, env: Env)
    requires Safe(sys) && t in sys.threads
    ensures Safe(Settle(sys, t, Step(sys.app, sys.threads[t], env)))
  {
    hide Step, Progresses, Cleared, Settled;
    var pc := sys.threads[t];
    var next := Step(sys.app, pc, env);
    StepProgresses(sys.app, pc, env);
    StepCleared(sys.app, pc, env);
    StepTokens(sys.app, pc, env);
    SettledStable(sys.app.db, next.app.db);
    if pc.Issue? { IssueCleared(sys.app.db, pc); }
    forall r | r in sys.threads && r != t ensures Cleared(next.app.db, sys.threads[r]) {
      ClearedStable(sys.app.db, next.app.db, sys.threads[r]);
    }
    assert AllSettled(next.app);
  }

  lemma SettledStable(db: Db, db': Db)
    requires Progresses(db, db')
    ensures forall u | Settled(db, u) :: Settled(db', u)
  {
  }

  lemma IssueCleared(db: Db, pc: Pc)
    requires pc.Issue? && Cleared(db, pc)
    ensures Settled(db, pc.user)
  {
  }

  lemma MoveSafe(sys: Sys, move: Move, env: Env)
    requires Safe(sys)
    ensures Safe(Moved(sys, move, env))
  {
    hide Step, Start, Cleared;
    match move
    case Arrive(t, call) => StartCleared(sys.app, call, env);
    case Run(t) => if t in sys.threads { RunSafe(sys, t, env); }
  }

  /** Over every interleaving of store calls: each refresh token row, and each pair ever handed out, belongs
      to an account that exists and has left sign-up. */
  lemma {:induction false} SessionsAreSettled(app: App, moves: seq<(Move, Env)>)
    requires AllSettled(app)
    ensures Safe(MovedAll(Sys(app, map[], []), moves))
    decreases |moves|
  {
    hide Moved;
    if moves != [] {
      var n := |moves| - 1;
      SessionsAreSettled(app, moves[..n]);
      MoveSafe(MovedAll(Sys(app, map[], []), moves[..n]), moves[n].0, moves[n].1);
    }
  }

  /** So the account a refresh token leads to needs no second look. */
  lemma RefreshNeedsNoStatus(app: App, moves: seq<(Move, Env)>, token: string, now: Time, choice: nat)
    requires AllSettled(app)
    ensures var after := MovedAll(Sys(app, map[], []), moves).app;
      var found := FindValid(after.tokens, Digest(token), now, choice);
      found.Some? ==> Settled(after.db, after.tokens[found.value].user)
  {
    SessionsAreSettled(app, moves);
  }
}
