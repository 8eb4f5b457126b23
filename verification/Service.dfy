/** The application service as the program runs it: methods that check, call the store and answer. Each is
    proved to leave the tables, challenges and tokens, and to give the answer, of its sequence of store calls
    when nothing runs in between. */
module Service {
  import opened Tables
  import opened Transactions
  import opened Text
  import opened Sessions
  import opened PostgresStore
  import CompleteCalls
  import Statements

  /** Token hashes are unique, so the query has one answer. */
  lemma TheInvite(db: Db, i: InviteId)
    requires WellFormed(db) && i in db.invites
    ensures FindInvite(db, db.invites[i].tokenHash) == Some(i)
  {
    assert TokenTaken(db, db.invites[i].tokenHash);
  }

  lemma FoundIndexed(db: Db, c: Contact)
    requires WellFormed(db)
    ensures c in db.index <==> Find(db, c).Some?
    ensures c in db.index ==> Find(db, c) == Some(db.index[c]) && db.index[c] in db.users
  {
  }

  /** What the store's answer to creating an account is. */
  lemma CreatedAs(db: Db, u: UserId, c: Contact, at: Time)
    ensures Execute(db, CreateUser(u, c, at)) == DoCreateUser(db, u, c, at)
    ensures var r := DoCreateUser(db, u, c, at);
      if r.outcome == Done
      then u in r.db.users && r.db.users[u].status == UserActive && c in r.db.index && r.db.index[c] == u
      else r.db == db
  {
  }

  lemma ExecutedSignup(db: Db, form: Form, invite: Option<(InviteId, OrgId)>, env: Env)
    ensures var req := CreateSignupUser(env.user, SignupOf(form, invite.Some?), Founding(form, invite, env.org), invite, env.now);
      var r := Creation(db, form, invite, env.user, env.org, env.now);
      Execute(db, req) == r && (r.outcome != Done ==> r.db == db)
  {
    hide DoCreateSignupUser;
    RefusedKeeps(db, CreateSignupUser(env.user, SignupOf(form, invite.Some?), Founding(form, invite, env.org), invite, env.now));
  }

  lemma ExecutedReissue(db: Db, e: string, p: Digest, n: string, accepting: Option<(InviteId, OrgId)>, at: Time)
    ensures var r := DoReissueSignup(db, e, p, n, accepting, at);
      && Execute(db, ReissueSignup(e, p, n, accepting, at)) == r
      && (r.outcome != Done ==> r.db == db)
      && (r.outcome == Done ==> Statements.Reissuable(db, e))
      && (accepting.None? ==> r.outcome == if Statements.Reissuable(db, e) then Done else NotPending)
  {
    hide Admit;
    RefusedKeeps(db, ReissueSignup(e, p, n, accepting, at));
  }

  lemma ExecutedVerify(db: Db, u: UserId, at: Time)
    ensures var r := DoVerifySignup(db, u, at);
      Execute(db, Request.VerifySignup(u, at)) == r && (r.outcome != Done ==> r.db == db)
  {
  }

  class Service {
    const store: Store

    function View(): App
      reads store
    {
      App(store.tables, store.challenges, store.tokens)
    }

    constructor ()
      ensures fresh(store) && store.Valid() && View() == App(EMPTY_DB, [], [])
    {
      store := new Store();
    }

    method SingleActiveOrg(user: UserId) returns (r: Option<OrgId>)
      ensures r == SingleOrg(store.tables, user)
    {
      var orgs := OrgsOf(store.tables, user);
      if |orgs| != 1 { return None; }
      var o :| o in orgs;
      Singleton(orgs, o);
      return Some(o);
    }

    // ---- issuing pairs ---------------------------------------------------------------------

    /** The pair names the account and organization asked for; its token is found until it expires; and a line
        of sessions without a live row, or a new one, gets one. */
    method IssueTokensForOrg(user: UserId, org: Option<OrgId>, root: Option<nat>, env: Env) returns (reply: Reply)
      modifies store`tokens
      ensures Halt(View(), reply) == Finish(old(View()), Issue(user, org, root), env)
      ensures reply.Pair? && reply.user == user && reply.org == org && reply.expires == env.now + ACCESS_TTL
      ensures forall at, choice: nat | at < env.now + REFRESH_TTL ::
        FindValid(store.tokens, Digest(reply.refresh), at, choice).Some?
      ensures var before := old(store.tokens);
        CompleteCalls.Descent(before) && CompleteCalls.OneLive(before)
        && (root.Some? ==> CompleteCalls.Vacant(before, root.value, user)) ==>
          CompleteCalls.Descent(store.tokens) && CompleteCalls.OneLive(store.tokens)
    {
      hide Finish, CompleteCalls.Descent, CompleteCalls.OneLive, CompleteCalls.Vacant;
      FinishStep(View(), Issue(user, org, root), env);
      var line := if root.Some? then root.value else |store.tokens|;
      var token := Token(user, org, Digest(env.secret), env.now + REFRESH_TTL, false, line);
      ghost var before := store.tokens;
      store.StoreToken(token);
      assert store.tokens[|before|] == token && token in store.tokens;
      if CompleteCalls.Descent(before) && CompleteCalls.OneLive(before)
         && (root.Some? ==> CompleteCalls.Vacant(before, root.value, user)) {
        CompleteCalls.IssueKeeps(before, token);
      }
      reply := Pair(user, org, env.secret, env.now + ACCESS_TTL);
    }

    method IssueTokens(user: UserId, env: Env) returns (reply: Reply)
      modifies store`tokens
      ensures Halt(View(), reply) == Finish(old(View()), Choose(user), env)
    {
      hide Finish;
      FinishStep(View(), Choose(user), env);
      var org := None;
      if env.autoSelect { org := SingleActiveOrg(user); }
      reply := IssueTokensForOrg(user, org, None, env);
    }

    // ---- one-time codes --------------------------------------------------------------------

    method NewOtpChallenge(identifier: string, channel: string, env: Env) returns (reply: Reply)
      modifies store`challenges
      ensures Halt(View(), reply) == Finish(old(View()), Sweep(identifier, channel), env)
    {
      hide Finish;
      FinishStep(View(), Sweep(identifier, channel), env);
      store.DeleteExpiredChallenges(env.now);
      FinishStep(View(), Insert(identifier, channel), env);
      var stored := store.UpsertChallenge(NewChallenge(identifier, channel, env));
      return if stored && env.sent then Okay else Unsent;
    }

    method RequestOtp(identifier: string, channel: string, env: Env) returns (reply: Reply)
      modifies store`challenges
      ensures Halt(View(), reply) == Complete(old(View()), Call.RequestOtp(identifier, channel), env)
    {
      hide Finish, Trim, IsE164;
      var i, c := Trim(identifier), Trim(channel);
      if i == "" || c == "" { return Refused(BadRequest); }
      if c == EMAIL {
        if !env.emailOtp { return Refused(OtpDisabled); }
      } else if c == SMS {
        if !IsE164(i) { return Refused(BadRequest); }
        if !env.mobileOtp { return Refused(OtpDisabled); }
      } else {
        return Refused(BadRequest);
      }
      reply := NewOtpChallenge(i, c, env);
    }

    method CountAttempt(id: string, env: Env) returns (reply: Reply)
      modifies store`challenges
      ensures Halt(View(), reply) == Finish(old(View()), CountWrong(id), env)
    {
      hide Finish;
      FinishStep(View(), CountWrong(id), env);
      store.IncrementAttempts(id);
      reply := Refused(InvalidCode);
    }

    method VerifyOtp(identifier: string, channel: string, code: string, env: Env)
      returns (reply: Reply, ghost choice: nat)
      requires store.Valid()
      modifies store
      ensures store.Valid()
      ensures Halt(View(), reply)
           == Complete(old(View()), Call.VerifyOtp(identifier, channel, code), env.(choice := choice))
    {
      hide WellFormed, Finish, Trim, Find, Without;
      choice := 0;
      var i, c := Trim(identifier), Trim(channel);
      if i == "" || c == "" || code == "" { return Refused(InvalidCode), 0; }
      var latest := store.GetLatestChallenge(i, c);
      choice := if latest.Some? then latest.value else 0;
      ghost var env' := env.(choice := choice);
      FinishStep(View(), OtpRead(i, c, code), env');
      if latest.None? { return Refused(InvalidCode), choice; }
      var ch := store.challenges[latest.value];
      if env.now > ch.expiresAt { return Refused(InvalidCode), choice; }
      if ch.attempts >= MAX_OTP_ATTEMPTS { return Refused(TooManyAttempts), choice; }
      if !ch.code.Matches(code) {
        reply := CountAttempt(ch.id, env.(choice := latest.value));
        return;
      }
      FinishStep(View(), OtpConsume(ch.id, i, c), env');
      store.ConsumeChallenge(ch.id);
      reply := LoginByContact(i, c, env.(choice := latest.value));
    }

    /** Finds or creates the account of a proven contact, and logs it in unless it is still signing up. */
    method LoginByContact(identifier: string, channel: string, env: Env) returns (reply: Reply)
      requires store.Valid()
      modifies store
      ensures store.Valid()
      ensures Halt(View(), reply) == Finish(old(View()), OtpFind(identifier, channel), env)
    {
      hide WellFormed, Finish, DoCreateUser, Execute, Find;
      FinishStep(View(), OtpFind(identifier, channel), env);
      var contact := ByMobile(identifier);
      if channel == EMAIL { contact := ByEmail(identifier); }
      else if channel != SMS { return Refused(BadRequest); }
      FinishStep(View(), OtpCreate(contact), env);
      FoundIndexed(store.tables, contact);
      CreatedAs(store.tables, env.user, contact, env.now);
      var user, outcome := store.FindOrCreate(contact, env.user, env.now);
      if outcome != Done { return Refused(StoreError(outcome)); }
      FoundIndexed(store.tables, contact);
      if store.tables.users[user].status == SignupPending { return Refused(InvalidCode); }
      reply := IssueTokens(user, env);
    }

    // ---- sessions ----------------------------------------------------------------------------

    method LoginWithPassword(identifier: string, password: string, env: Env) returns (reply: Reply)
      modifies store`tokens
      ensures Halt(View(), reply) == Complete(old(View()), Login(identifier, password), env)
    {
      hide Finish, Trim, IsE164, Lower;
      var i := Trim(identifier);
      if i == "" || password == "" { return Refused(InvalidCredentials); }
      var contact := if IsE164(i) then ByMobile(i) else ByEmail(Lower(i));
      FinishStep(View(), LoginFind(contact, password), env);
      var found := Find(store.tables, contact);
      if found.None? { return Refused(InvalidCredentials); }
      var user := store.tables.users[found.value];
      if user.status == SignupPending { return Refused(InvalidCredentials); }
      if user.status == UserDisabled { return Refused(AccountDisabled); }
      if user.password.None? || !user.password.value.Matches(password) { return Refused(InvalidCredentials); }
      FinishStep(View(), LoginNote(found.value), env);
      reply := IssueTokens(found.value, env);
    }

    method RefreshSession(token: string, env: Env) returns (reply: Reply, ghost choice: nat)
      modifies store`tokens
      ensures Halt(View(), reply) == Complete(old(View()), Refresh(token), env.(choice := choice))
    {
      hide Finish, Step, RevokedAll, FindValid;
      var found := store.FindValidToken(Digest(token), env.now);
      choice := if found.Some? then found.value else 0;
      FinishRefreshFind(View(), token, env.(choice := choice));
      if found.None? { return Refused(InvalidRefresh), choice; }
      var row := store.tokens[found.value];
      store.RevokeToken(Digest(token));
      reply := KeepOrg(row.user, row.org, row.root, env.(choice := found.value));
    }

    /** The remembered organization is kept while the user is an active member. */
    method KeepOrg(user: UserId, org: Option<OrgId>, line: nat, env: Env) returns (reply: Reply)
      modifies store`tokens
      ensures Halt(View(), reply)
           == Finish(old(View()), if org.None? then Issue(user, None, Some(line)) else RefreshOrg(user, org.value, line), env)
    {
      hide Finish;
      var kept := None;
      if org.Some? {
        FinishStep(View(), RefreshOrg(user, org.value, line), env);
        if store.tables.IsActive(org.value, user) { kept := org; }
      }
      reply := IssueTokensForOrg(user, kept, Some(line), env);
    }

    method SwitchOrg(user: UserId, token: string, org: OrgId, env: Env) returns (reply: Reply, ghost choice: nat)
      modifies store`tokens
      ensures Halt(View(), reply) == Complete(old(View()), SelectOrg(user, token, org), env.(choice := choice))
    {
      hide Finish, RevokedAll, Trim;
      choice := 0;
      var u, o := Trim(user), Trim(org);
      if u == "" || o == "" { return Refused(InvalidRefresh), 0; }
      FinishStep(View(), SelectMember(u, token, o), env.(choice := choice));
      if !store.tables.IsActive(o, u) { return Refused(NotAMember), choice; }
      ghost var start := View();
      reply, choice := RotateInto(u, token, o, env);
      FinishStep(start, SelectMember(u, token, o), env.(choice := choice));
    }

    method RotateInto(user: UserId, token: string, org: OrgId, env: Env) returns (reply: Reply, ghost choice: nat)
      modifies store`tokens
      ensures Halt(View(), reply) == Finish(old(View()), SelectFind(user, token, org), env.(choice := choice))
    {
      hide Finish, RevokedAll;
      var found := store.FindValidToken(Digest(token), env.now);
      choice := if found.Some? then found.value else 0;
      ghost var env' := env.(choice := choice);
      FinishStep(View(), SelectFind(user, token, org), env');
      if found.None? || store.tokens[found.value].user != user { return Refused(InvalidRefresh), choice; }
      var line := store.tokens[found.value].root;
      FinishStep(View(), SelectRevoke(token, user, org, line), env');
      store.RevokeToken(Digest(token));
      reply := IssueTokensForOrg(user, Some(org), Some(line), env.(choice := found.value));
    }

    // ---- sign-up -------------------------------------------------------------------------------

    method RegisterWithEmail(email: string, password: string, name: string, orgName: string, inviteToken: string, env: Env)
      returns (reply: Reply, ghost choice: nat)
      requires store.Valid()
      modifies store
      ensures store.Valid()
      ensures Halt(View(), reply)
           == Complete(old(View()), Register(email, password, name, orgName, inviteToken), env.(choice := choice))
    {
      hide WellFormed, Finish, Trim, IsEmail, NormalizeEmail;
      choice := 0;
      if !env.signupOpen { return Refused(SignupClosed), 0; }
      var form := Form(NormalizeEmail(email), password, Trim(name), Trim(orgName));
      if !IsEmail(form.email) { return Refused(InvalidEmail), 0; }
      if Trim(password) == "" { return Refused(PasswordRequired), 0; }
      var token := Trim(inviteToken);
      if token == "" {
        reply, choice := CreateSignup(form, None, env);
        return;
      }
      reply, choice := RegisterInvited(form, token, env);
    }

    method RegisterInvited(form: Form, token: string, env: Env) returns (reply: Reply, ghost choice: nat)
      requires store.Valid()
      modifies store
      ensures store.Valid()
      ensures Halt(View(), reply) == Finish(old(View()), RegInvite(form, token), env.(choice := choice))
    {
      hide WellFormed, Finish, Step, Usable, FindInvite;
      choice := 0;
      ghost var start := View();
      if i :| i in store.tables.invites && store.tables.invites[i].tokenHash == Digest(token) {
        TheInvite(store.tables, i);
        var invite := store.tables.invites[i];
        if Usable(invite, form.email, env.now) {
          reply, choice := CreateSignup(form, Some((i, invite.org)), env);
        } else {
          reply := Refused(InvalidInvite);
        }
      } else {
        reply := Refused(InvalidInvite);
      }
      FinishRegInvite(start, form, token, env.(choice := choice));
    }

    method CreateSignup(form: Form, invite: Option<(InviteId, OrgId)>, env: Env) returns (reply: Reply, ghost choice: nat)
      requires store.Valid()
      modifies store
      ensures store.Valid()
      ensures Halt(View(), reply) == Finish(old(View()), RegCreate(form, invite), env.(choice := choice))
    {
      hide WellFormed, Finish, Step, Creation, Execute, InviteError;
      choice := 0;
      ghost var start := View();
      ExecutedSignup(store.tables, form, invite, env);
      var outcome := store.CreateSignupUser(env.user, SignupOf(form, invite.Some?), Founding(form, invite, env.org), invite, env.now);
      if outcome == Duplicate {
        assert View() == start;
        reply, choice := ExistingSignup(form, invite, env);
      } else if outcome != Done {
        reply := Refused(InviteError(outcome));
      } else if invite.Some? {
        reply := Okay;
      } else {
        reply := NewOtpChallenge(form.email, EMAIL, env.(choice := 0));
      }
      FinishRegCreate(start, form, invite, env.(choice := choice));
    }

    /** The address already has an account. */
    method ExistingSignup(form: Form, invite: Option<(InviteId, OrgId)>, env: Env) returns (reply: Reply, ghost choice: nat)
      requires store.Valid()
      modifies store
      ensures store.Valid()
      ensures Halt(View(), reply)
           == Finish(old(View()), if invite.Some? then RegJoin(form, invite.value) else RegFind(form), env.(choice := choice))
    {
      hide WellFormed, Finish;
      choice := 0;
      if invite.Some? {
        reply := JoinSignup(form, invite.value, env.(choice := 0));
      } else {
        reply, choice := RetryPendingSignup(form, env);
      }
    }

    /** A pending account whose owner now comes with an invitation. */
    method JoinSignup(form: Form, via: (InviteId, OrgId), env: Env) returns (reply: Reply)
      requires store.Valid()
      modifies store
      ensures store.Valid()
      ensures Halt(View(), reply) == Finish(old(View()), RegJoin(form, via), env)
    {
      hide WellFormed, Finish, DoReissueSignup, Execute, Statements.Reissuable;
      FinishStep(View(), RegJoin(form, via), env);
      ExecutedReissue(store.tables, form.email, Digest(form.password), form.name, Some(via), env.now);
      var outcome := store.ReissuePendingSignup(form.email, Digest(form.password), form.name, None, Some(via), env.now);
      if outcome != Done && outcome != NotPending { return Refused(InviteError(outcome)); }
      return Okay;
    }

    /** A registration without an invitation for an address that already exists. */
    method RetryPendingSignup(form: Form, env: Env) returns (reply: Reply, ghost choice: nat)
      requires store.Valid()
      modifies store
      ensures store.Valid()
      ensures Halt(View(), reply) == Finish(old(View()), RegFind(form), env.(choice := choice))
    {
      hide WellFormed, Finish, Step;
      choice := 0;
      var found := Find(store.tables, ByEmail(form.email));
      if found.Some? {
        var user := store.tables.users[found.value];
        if user.status != SignupPending || user.emailVerified {
          FinishRegFind(View(), form, env.(choice := choice));
          return Okay, choice;
        }
      }
      var latest := store.GetLatestChallenge(form.email, EMAIL);
      choice := if latest.Some? then latest.value else 0;
      FinishRegFind(View(), form, env.(choice := choice));
      var cooldown := latest.Some? && env.now - store.challenges[latest.value].createdAt < SIGNUP_COOLDOWN;
      reply := ReissueSignup(form, !cooldown, env.(choice := if latest.Some? then latest.value else 0));
    }

    /** New credentials for a pending account; with `rotate` the old codes go and a new one is stored. */
    method ReissueSignup(form: Form, rotate: bool, env: Env) returns (reply: Reply)
      requires store.Valid()
      modifies store
      ensures store.Valid()
      ensures Halt(View(), reply) == Finish(old(View()), RegReissue(form, rotate), env)
    {
      hide WellFormed, Finish, DoReissueSignup, WithoutFor, Execute, Statements.Reissuable, HasId;
      FinishStep(View(), RegReissue(form, rotate), env);
      ExecutedReissue(store.tables, form.email, Digest(form.password), form.name, None, env.now);
      var challenge := if rotate then Some(NewChallenge(form.email, EMAIL, env)) else None;
      var outcome := store.ReissuePendingSignup(form.email, Digest(form.password), form.name, challenge, None, env.now);
      if outcome == Violation { return Refused(StoreError(Violation)); }
      return if outcome != Done || !rotate || env.sent then Okay else Unsent;
    }

    method VerifySignup(email: string, code: string, password: string, env: Env)
      returns (reply: Reply, ghost choice: nat)
      requires store.Valid()
      modifies store
      ensures store.Valid()
      ensures Halt(View(), reply)
           == Complete(old(View()), ConfirmSignup(email, code, password), env.(choice := choice))
    {
      hide WellFormed, Finish, Trim, NormalizeEmail;
      choice := 0;
      if !env.signupOpen { return Refused(SignupClosed), 0; }
      var e, c := NormalizeEmail(email), Trim(code);
      if e == "" || c == "" { return Refused(InvalidCode), 0; }
      var latest := store.GetLatestChallenge(e, EMAIL);
      choice := if latest.Some? then latest.value else 0;
      ghost var env' := env.(choice := choice);
      FinishStep(View(), SignupRead(e, c, password), env');
      if latest.None? { return Refused(InvalidCode), choice; }
      var ch := store.challenges[latest.value];
      if env.now > ch.expiresAt { return Refused(InvalidCode), choice; }
      if ch.attempts >= MAX_OTP_ATTEMPTS { return Refused(TooManyAttempts), choice; }
      if !ch.code.Matches(c) {
        reply := CountAttempt(ch.id, env.(choice := latest.value));
        return;
      }
      reply := ConfirmAccount(e, ch.id, password, env.(choice := latest.value));
    }

    /** The code is right; the password decides. */
    method ConfirmAccount(email: string, id: string, password: string, env: Env) returns (reply: Reply)
      requires store.Valid()
      modifies store
      ensures store.Valid()
      ensures Halt(View(), reply) == Finish(old(View()), SignupFind(email, id, password), env)
    {
      hide WellFormed, Finish;
      FinishStep(View(), SignupFind(email, id, password), env);
      var found := Find(store.tables, ByEmail(email));
      if found.None? {
        reply := CountAttempt(id, env);
        return;
      }
      var user := store.tables.users[found.value];
      if user.status != SignupPending || user.emailVerified || user.password.None?
         || !user.password.value.Matches(password) {
        reply := CountAttempt(id, env);
        return;
      }
      reply := ActivateAccount(id, found.value, env);
    }

    method ActivateAccount(id: string, user: UserId, env: Env) returns (reply: Reply)
      requires store.Valid()
      modifies store
      ensures store.Valid()
      ensures Halt(View(), reply) == Finish(old(View()), SignupConsume(id, user), env)
    {
      hide WellFormed, Finish, Step, Without, DoVerifySignup, Execute;
      FinishSignupConsume(View(), id, user, env);
      store.ConsumeChallenge(id);
      ExecutedVerify(store.tables, user, env.now);
      var outcome := store.VerifySignup(user, env.now);
      if outcome != Done { return Refused(InvalidCode); }
      reply := IssueTokens(user, env);
    }
  }
}
