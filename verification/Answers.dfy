/** What each complete call answers and leaves behind, for every input: when it gives a pair, for whom and with which
    organization, which rows it writes, and that it writes nothing else. */
module Answers {
  import opened Tables
  import opened Transactions
  import opened Text
  import opened Sessions
  import CompleteCalls
  import Effects

  // ---- issuing ----------------------------------------------------------------------------

  /** The organization is the only one in which the account is an active member. */
  ghost predicate OnlyActiveIn(db: Db, u: UserId, o: OrgId) {
    && o in db.orgs && db.StatusOf(o, u) == Some(Active)
    && forall p | p in db.orgs && db.StatusOf(p, u) == Some(Active) :: p == o
  }

  /** One more token row, for 30 days, and the pair that goes with it, for 15 minutes. */
  ghost predicate Issued(app: App, u: UserId, org: Option<OrgId>, line: nat, env: Env, end: Next) {
    && end == Halt(app.(tokens := app.tokens + [Token(u, org, Digest(env.secret), env.now + 2_592_000, false, line)]),
                   Pair(u, org, env.secret, env.now + 900))
  }

  /** A new session: with automatic selection it carries the account's only active organization. */
  ghost predicate LoggedIn(app: App, u: UserId, env: Env, end: Next) {
    && end.Halt? && end.reply.Pair?
    && Issued(app, u, end.reply.org, |app.tokens|, env, end)
    && forall o :: end.reply.org == Some(o) <==> env.autoSelect && OnlyActiveIn(app.db, u, o)
  }

  lemma SingleMeans(db: Db, u: UserId, o: OrgId)
    ensures SingleOrg(db, u) == Some(o) <==> OnlyActiveIn(db, u, o)
  {
    var orgs := OrgsOf(db, u);
    forall p ensures p in orgs <==> p in db.orgs && db.StatusOf(p, u) == Some(Active) {
      assert (p, u) in db.members ==> (p, u).0 == p && (p, u).1 == u;
    }
    if OnlyActiveIn(db, u, o) {
      assert orgs == {o};
    }
    if SingleOrg(db, u) == Some(o) {
      assert o in orgs;
    }
  }

  lemma IssueExactly(app: App, u: UserId, org: Option<OrgId>, root: Option<nat>, env: Env)
    ensures Issued(app, u, org, if root.Some? then root.value else |app.tokens|, env, Finish(app, Issue(u, org, root), env))
  {
    hide Finish;
    FinishStep(app, Issue(u, org, root), env);
  }

  lemma ChooseExactly(app: App, u: UserId, env: Env)
    ensures LoggedIn(app, u, env, Finish(app, Choose(u), env))
  {
    hide Finish, SingleOrg, OnlyActiveIn;
    FinishStep(app, Choose(u), env);
    var org := if env.autoSelect then SingleOrg(app.db, u) else None;
    IssueExactly(app, u, org, None, env);
    forall o ensures SingleOrg(app.db, u) == Some(o) <==> OnlyActiveIn(app.db, u, o) { SingleMeans(app.db, u, o); }
  }

  // ---- log-in with a password ----------------------------------------------------------------

  /** The account an identifier leads to: by mobile number if it looks like one, by folded email otherwise. */
  predicate LeadsTo(db: Db, identifier: string, u: UserId) {
    var c := if IsE164(identifier) then ByMobile(identifier) else ByEmail(Lower(identifier));
    c in db.index && db.index[c] == u && u in db.users
  }

  /** A password log-in gives a pair exactly for the right password of an active account, and then a new session of
      that account; otherwise it changes nothing and says why. */
  lemma LoginExactly(app: App, identifier: string, password: string, env: Env)
    ensures var end := Complete(app, Login(identifier, password), env);
      var i := Trim(identifier);
      var asked := i != "" && password != "";
      && (end.reply.Pair? <==>
            asked && exists u :: LeadsTo(app.db, i, u) && app.db.users[u].status == UserActive
                                 && app.db.users[u].password == Some(Digest(password)))
      && (end.reply.Pair? ==> LeadsTo(app.db, i, end.reply.user) && LoggedIn(app, end.reply.user, env, end))
      && (!end.reply.Pair? ==>
            && end.app == app
            && end.reply == if asked && exists u :: LeadsTo(app.db, i, u) && app.db.users[u].status == UserDisabled
                            then Refused(AccountDisabled) else Refused(InvalidCredentials))
  {
    hide Finish, Trim, IsE164, Lower, OnlyActiveIn;
    var i := Trim(identifier);
    var contact := LoginContact(i);
    FinishStep(app, LoginFind(contact, password), env);
    if i != "" && password != "" && contact in app.db.index && app.db.index[contact] in app.db.users {
      var u := app.db.index[contact];
      assert LeadsTo(app.db, i, u);
      FinishStep(app, LoginNote(u), env);
      ChooseExactly(app, u, env);
    }
  }

  // ---- refresh and organization switch ----------------------------------------------------------

  predicate Live(t: Token, token: string, now: Time) {
    t.hash == Digest(token) && !t.revoked && t.expiresAt > now
  }

  /** Every row of the token is revoked, every other row stays. */
  ghost predicate RevokedOnly(ts: seq<Token>, token: string, after: seq<Token>) {
    && |after| == |ts|
    && forall i | 0 <= i < |ts| :: after[i] == if ts[i].hash == Digest(token) then ts[i].(revoked := true) else ts[i]
  }

  lemma RevokedAllOnly(ts: seq<Token>, token: string)
    ensures RevokedOnly(ts, token, RevokedAll(ts, Digest(token)))
  {
  }

  /** The presented token is rotated into a row of the same account and line. */
  ghost predicate Rotated(app: App, token: string, row: Token, org: Option<OrgId>, env: Env, end: Next) {
    && Live(row, token, env.now)
    && exists ts :: RevokedOnly(app.tokens, token, ts) && Issued(app.(tokens := ts), row.user, org, row.root, env, end)
  }

  /** A refresh gives a pair exactly for a live token. It revokes the token and issues the next one for the same
      account and line, keeping the organization exactly while the membership is active. */
  lemma RefreshExactly(app: App, token: string, env: Env)
    ensures var end := Complete(app, Refresh(token), env);
      if exists t <- app.tokens :: Live(t, token, env.now) then
        exists t <- app.tokens ::
          Rotated(app, token, t, if t.org.Some? && app.db.StatusOf(t.org.value, t.user) == Some(Active) then t.org else None,
                  env, end)
      else
        end == Halt(app, Refused(InvalidRefresh))
  {
    hide Finish, Step, RevokedAll, Issued;
    FinishRefreshFind(app, token, env);
    var found := FindValid(app.tokens, Digest(token), env.now, env.choice);
    if found.Some? {
      var t := app.tokens[found.value];
      assert t in app.tokens;
      RevokedAllOnly(app.tokens, token);
      var revoked := app.(tokens := RevokedAll(app.tokens, Digest(token)));
      KeepExactly(revoked, t.user, t.org, t.root, env);
    }
  }

  lemma KeepExactly(app: App, u: UserId, org: Option<OrgId>, line: nat, env: Env)
    ensures var kept := if org.Some? && app.db.StatusOf(org.value, u) == Some(Active) then org else None;
      Issued(app, u, kept, line, env,
             Finish(app, if org.None? then Issue(u, None, Some(line)) else RefreshOrg(u, org.value, line), env))
  {
    hide Finish, Issued;
    if org.Some? { FinishStep(app, RefreshOrg(u, org.value, line), env); }
    IssueExactly(app, u, None, Some(line), env);
    IssueExactly(app, u, org, Some(line), env);
  }

  /** Switching gives a pair for the organization exactly to an active member of it who presents a live token of
      their own (the row the query returned); otherwise nothing changes. */
  lemma SelectExactly(app: App, user: UserId, token: string, org: OrgId, env: Env)
    ensures var end := Complete(app, SelectOrg(user, token, org), env);
      var u, o := Trim(user), Trim(org);
      var found := FindValid(app.tokens, Digest(token), env.now, env.choice);
      if u == "" || o == "" then end == Halt(app, Refused(InvalidRefresh))
      else if app.db.StatusOf(o, u) != Some(Active) then end == Halt(app, Refused(NotAMember))
      else if found.None? || app.tokens[found.value].user != u then end == Halt(app, Refused(InvalidRefresh))
      else app.tokens[found.value].user == u && Rotated(app, token, app.tokens[found.value], Some(o), env, end)
  {
    hide Finish, Trim, FindValid, Rotated;
    FinishStep(app, SelectMember(Trim(user), token, Trim(org)), env);
    SelectFound(app, Trim(user), token, Trim(org), env);
  }

  lemma SelectFound(app: App, u: UserId, token: string, o: OrgId, env: Env)
    ensures var end := Finish(app, SelectFind(u, token, o), env);
      var found := FindValid(app.tokens, Digest(token), env.now, env.choice);
      if found.None? || app.tokens[found.value].user != u then end == Halt(app, Refused(InvalidRefresh))
      else Rotated(app, token, app.tokens[found.value], Some(o), env, end)
  {
    hide Finish, RevokedAll, Issued;
    var found := FindValid(app.tokens, Digest(token), env.now, env.choice);
    FinishStep(app, SelectFind(u, token, o), env);
    if found.Some? {
      var line := app.tokens[found.value].root;
      FinishStep(app, SelectRevoke(token, u, o, line), env);
      RevokedAllOnly(app.tokens, token);
      IssueExactly(app.(tokens := RevokedAll(app.tokens, Digest(token))), u, Some(o), Some(line), env);
    }
  }

  lemma FoundLive(app: App, token: string, env: Env)
    ensures var found := FindValid(app.tokens, Digest(token), env.now, env.choice);
      && (found.Some? <==> exists t <- app.tokens :: Live(t, token, env.now))
      && (found.Some? ==> Live(app.tokens[found.value], token, env.now))
  {
    var found := FindValid(app.tokens, Digest(token), env.now, env.choice);
    if found.Some? { assert app.tokens[found.value] in app.tokens; }
  }

  // ---- one-time codes ---------------------------------------------------------------------------

  /** The challenge the code is compared with: a newest one of the address and channel. */
  ghost predicate Newest(cs: seq<Challenge>, identifier: string, channel: string, c: Challenge) {
    && c in cs && c.identifier == identifier && c.channel == channel
    && forall d <- cs | d.identifier == identifier && d.channel == channel :: d.createdAt <= c.createdAt
  }

  lemma LatestNewest(cs: seq<Challenge>, identifier: string, channel: string, choice: nat)
    ensures var latest := Latest(cs, identifier, channel, choice);
      && (latest.Some? ==> Newest(cs, identifier, channel, cs[latest.value]))
      && (latest.None? <==> forall c <- cs :: !(c.identifier == identifier && c.channel == channel))
  {
    var latest := Latest(cs, identifier, channel, choice);
    if latest.Some? {
      forall d | d in cs && d.identifier == identifier && d.channel == channel
        ensures d.createdAt <= cs[latest.value].createdAt
      {
        var j :| 0 <= j < |cs| && cs[j] == d;
        assert For(cs[j], identifier, channel);
      }
    }
  }

  /** One more attempt on the rows of that id, every other row stays. */
  ghost predicate CountedOnly(cs: seq<Challenge>, id: string, after: seq<Challenge>) {
    && |after| == |cs|
    && forall i | 0 <= i < |cs| :: after[i] == if cs[i].id == id then cs[i].(attempts := cs[i].attempts + 1) else cs[i]
  }

  /** The rows of that id are gone, every other row stays. */
  ghost predicate RemovedOnly(cs: seq<Challenge>, id: string, after: seq<Challenge>) {
    && (forall c :: c in after <==> c in cs && c.id != id)
    && |after| <= |cs|
  }

  lemma CountExactly(app: App, id: string, env: Env)
    ensures var end := Finish(app, CountWrong(id), env);
      && end.reply == Refused(InvalidCode) && end.app == app.(challenges := end.app.challenges)
      && CountedOnly(app.challenges, id, end.app.challenges)
  {
    hide Finish;
    FinishStep(app, CountWrong(id), env);
  }

  lemma WithoutOnly(cs: seq<Challenge>, id: string)
    ensures RemovedOnly(cs, id, Without(cs, id))
  {
    CompleteCalls.KeepOrder(cs, (c: Challenge) => c.id != id);
  }

  /** What becomes of a right code: the log-in of the contact's account, found or newly created. */
  ghost predicate ContactLogin(app: App, identifier: string, channel: string, env: Env, end: Next) {
    var contact := if channel == "email" then ByEmail(identifier) else ByMobile(identifier);
    if channel != "email" && channel != "sms" then end == Halt(app, Refused(BadRequest))
    else if contact in app.db.index && app.db.index[contact] in app.db.users then
      if app.db.users[app.db.index[contact]].status == SignupPending then end == Halt(app, Refused(InvalidCode))
      else LoggedIn(app, app.db.index[contact], env, end)
    else if contact in app.db.index || env.user in app.db.users then end == Halt(app, Refused(StoreError(Violation)))
    else
      var row := if channel == "email" then User(Some(identifier), None, None, "", UserActive, true, env.now)
                 else User(None, Some(identifier), None, "", UserActive, false, env.now);
      LoggedIn(app.(db := app.db.(users := app.db.users[env.user := row], index := app.db.index[contact := env.user])),
               env.user, env, end)
  }

  lemma ContactExactly(app: App, identifier: string, channel: string, env: Env)
    ensures ContactLogin(app, identifier, channel, env, Finish(app, OtpFind(identifier, channel), env))
  {
    hide Finish, LoggedIn;
    FinishStep(app, OtpFind(identifier, channel), env);
    var contact := if channel == "email" then ByEmail(identifier) else ByMobile(identifier);
    if contact in app.db.index && app.db.index[contact] in app.db.users {
      ChooseExactly(app, app.db.index[contact], env);
    } else {
      FinishStep(app, OtpCreate(contact), env);
      ChooseExactly(app.(db := DoCreateUser(app.db, env.user, contact, env.now).db), env.user, env);
    }
  }

  /** A log-in by code compares the code with the newest challenge. A dead one is refused, one with five wrong tries is
      refused, another code counts one try against it and changes nothing else, and the right code uses it up and
      logs the contact in. */
  lemma VerifyOtpExactly(app: App, identifier: string, channel: string, code: string, env: Env)
    ensures var end := Complete(app, VerifyOtp(identifier, channel, code), env);
      var i, ch := Trim(identifier), Trim(channel);
      var latest := Latest(app.challenges, i, ch, env.choice);
      if i == "" || ch == "" || code == "" || latest.None? then end == Halt(app, Refused(InvalidCode))
      else
        var c := app.challenges[latest.value];
        if env.now > c.expiresAt then end == Halt(app, Refused(InvalidCode))
        else if c.attempts >= 5 then end == Halt(app, Refused(TooManyAttempts))
        else if c.code != Digest(code) then
          && end.reply == Refused(InvalidCode) && end.app == app.(challenges := end.app.challenges)
          && CountedOnly(app.challenges, c.id, end.app.challenges)
        else
          exists rest :: RemovedOnly(app.challenges, c.id, rest) && ContactLogin(app.(challenges := rest), i, ch, env, end)
  {
    hide Finish, Trim, Without, ContactLogin;
    var i, ch := Trim(identifier), Trim(channel);
    FinishStep(app, OtpRead(i, ch, code), env);
    var latest := Latest(app.challenges, i, ch, env.choice);
    if latest.Some? {
      var c := app.challenges[latest.value];
      CountExactly(app, c.id, env);
      FinishStep(app, OtpConsume(c.id, i, ch), env);
      WithoutOnly(app.challenges, c.id);
      ContactExactly(app.(challenges := Without(app.challenges, c.id)), i, ch, env);
    }
  }

  /** The same as an if-and-only-if: who gets a pair with a code. */
  lemma CodePairExactly(app: App, identifier: string, channel: string, code: string, env: Env)
    ensures var end := Complete(app, VerifyOtp(identifier, channel, code), env);
      var i, ch := Trim(identifier), Trim(channel);
      var latest := Latest(app.challenges, i, ch, env.choice);
      var contact := if ch == "email" then ByEmail(i) else ByMobile(i);
      end.reply.Pair? <==>
        && i != "" && code != "" && (ch == "email" || ch == "sms") && latest.Some?
        && env.now <= app.challenges[latest.value].expiresAt
        && app.challenges[latest.value].attempts < 5 && app.challenges[latest.value].code == Digest(code)
        && (if contact in app.db.index && app.db.index[contact] in app.db.users
            then app.db.users[app.db.index[contact]].status != SignupPending
            else contact !in app.db.index && env.user !in app.db.users)
  {
    hide Complete, Trim, RemovedOnly, CountedOnly, Issued, OnlyActiveIn;
    VerifyOtpExactly(app, identifier, channel, code, env);
  }

  /** A new challenge: ten minutes, no attempts. */
  function Fresh(identifier: string, channel: string, env: Env): Challenge {
    Challenge(env.challenge, identifier, channel, Digest(env.code), env.now + 600, env.now, 0)
  }

  /** Expired rows are gone, the rest stay, and the new challenge is stored unless its id is taken. */
  ghost predicate Stored(cs: seq<Challenge>, c: Challenge, now: Time, sent: bool, after: seq<Challenge>, reply: Reply) {
    exists rest: seq<Challenge> :: (forall d :: d in rest <==> d in cs && d.expiresAt >= now) && |rest| <= |cs|
      && if exists d <- rest :: d.id == c.id then after == rest && reply == Unsent
         else after == rest + [c] && reply == if sent then Okay else Unsent
  }

  lemma StoreExactly(app: App, identifier: string, channel: string, env: Env)
    ensures var end := Finish(app, Sweep(identifier, channel), env);
      && end.app == app.(challenges := end.app.challenges)
      && Stored(app.challenges, Fresh(identifier, channel, env), env.now, env.sent, end.app.challenges, end.reply)
  {
    hide Finish, Unexpired;
    FinishStep(app, Sweep(identifier, channel), env);
    var rest := Unexpired(app.challenges, env.now);
    UnexpiredOnly(app.challenges, env.now);
    FinishStep(app.(challenges := rest), Insert(identifier, channel), env);
  }

  lemma UnexpiredOnly(cs: seq<Challenge>, now: Time)
    ensures var rest := Unexpired(cs, now);
      (forall d :: d in rest <==> d in cs && d.expiresAt >= now) && |rest| <= |cs|
  {
    CompleteCalls.KeepOrder(cs, (c: Challenge) => c.expiresAt >= now);
  }

  lemma RequestExactly(app: App, identifier: string, channel: string, env: Env)
    ensures var end := Complete(app, RequestOtp(identifier, channel), env);
      var i, ch := Trim(identifier), Trim(channel);
      if i == "" || (ch != "email" && ch != "sms") || (ch == "sms" && !IsE164(i)) then end == Halt(app, Refused(BadRequest))
      else if (if ch == "email" then !env.emailOtp else !env.mobileOtp) then end == Halt(app, Refused(OtpDisabled))
      else
        && end.app == app.(challenges := end.app.challenges)
        && Stored(app.challenges, Fresh(i, ch, env), env.now, env.sent, end.app.challenges, end.reply)
  {
    hide Finish, Trim, IsE164, Stored;
    StoreExactly(app, Trim(identifier), Trim(channel), env);
  }

  // ---- sign-up --------------------------------------------------------------------------------------

  /** Confirming compares the code with the newest challenge of the address and the password with the account's. With
      anything wrong it counts one try and changes nothing else; with both right it uses the challenge up, activates
      the account and logs it in. */
  lemma ConfirmAnswers(app: App, email: string, code: string, password: string, env: Env)
    ensures var end := Complete(app, ConfirmSignup(email, code, password), env);
      var e, k := NormalizeEmail(email), Trim(code);
      var latest := Latest(app.challenges, e, "email", env.choice);
      if !env.signupOpen then end == Halt(app, Refused(SignupClosed))
      else if e == "" || k == "" || latest.None? then end == Halt(app, Refused(InvalidCode))
      else
        var c := app.challenges[latest.value];
        if env.now > c.expiresAt then end == Halt(app, Refused(InvalidCode))
        else if c.attempts >= 5 then end == Halt(app, Refused(TooManyAttempts))
        else if c.code == Digest(k) && SigningUpWith(app.db, e, password) then
          var u := app.db.index[ByEmail(e)];
          var db := app.db.(users := app.db.users[u := app.db.users[u].(status := UserActive, emailVerified := true)]);
          exists rest :: RemovedOnly(app.challenges, c.id, rest) && LoggedIn(app.(db := db, challenges := rest), u, env, end)
        else
          && end.reply == Refused(InvalidCode) && end.app == app.(challenges := end.app.challenges)
          && CountedOnly(app.challenges, c.id, end.app.challenges)
  {
    hide Finish, Trim, NormalizeEmail, LoggedIn, RemovedOnly, CountedOnly;
    var e, k := NormalizeEmail(email), Trim(code);
    FinishStep(app, SignupRead(e, k, password), env);
    var latest := Latest(app.challenges, e, EMAIL, env.choice);
    if latest.Some? {
      var c := app.challenges[latest.value];
      CountExactly(app, c.id, env);
      SignupFindExactly(app, e, c.id, password, env);
    }
  }

  /** The address leads to an account that is signing up with this password. */
  predicate SigningUpWith(db: Db, email: string, password: string) {
    && ByEmail(email) in db.index && db.index[ByEmail(email)] in db.users
    && var row := db.users[db.index[ByEmail(email)]];
    row.status == SignupPending && !row.emailVerified && row.password == Some(Digest(password))
  }

  lemma SignupFindExactly(app: App, email: string, id: string, password: string, env: Env)
    ensures var end := Finish(app, SignupFind(email, id, password), env);
      if SigningUpWith(app.db, email, password) then
        var u := app.db.index[ByEmail(email)];
        var db := app.db.(users := app.db.users[u := app.db.users[u].(status := UserActive, emailVerified := true)]);
        exists rest :: RemovedOnly(app.challenges, id, rest) && LoggedIn(app.(db := db, challenges := rest), u, env, end)
      else
        && end.reply == Refused(InvalidCode) && end.app == app.(challenges := end.app.challenges)
        && CountedOnly(app.challenges, id, end.app.challenges)
  {
    hide Finish, LoggedIn, RemovedOnly, CountedOnly, Without;
    FinishStep(app, SignupFind(email, id, password), env);
    CountExactly(app, id, env);
    if SigningUpWith(app.db, email, password) {
      var u := app.db.index[ByEmail(email)];
      FinishSignupConsume(app, id, u, env);
      WithoutOnly(app.challenges, id);
      ChooseExactly(app.(db := DoVerifySignup(app.db, u, env.now).db, challenges := Without(app.challenges, id)), u, env);
    }
  }

  /** The invitation a registration comes with. */
  ghost predicate ComesWith(db: Db, i: InviteId, token: string, email: string, now: Time) {
    && i in db.invites && db.invites[i].tokenHash == Digest(token) && db.invites[i].status == Pending
    && now < db.invites[i].expiresAt && Lower(db.invites[i].email) == Lower(email)
  }

  /** The account a registration writes when the address has none. */
  function NewSignup(email: string, password: string, name: string, invited: bool, at: Time): User {
    User(Some(email), None, Some(Digest(password)), name, if invited then UserActive else SignupPending, invited, at)
  }

  function WithAccount(db: Db, u: UserId, row: User): Db
    requires row.email.Some?
  {
    db.(users := db.users[u := row], index := db.index[ByEmail(row.email.value) := u])
  }

  /** A registration without an invitation for a new address: a pending, unverified account with the form's name and
      password, the organization it asked for with the account as its active member, and a code. */
  lemma NewRegistrationExactly(app: App, form: Form, env: Env)
    requires References(app.db) && ByEmail(form.email) !in app.db.index
    ensures var end := Finish(app, RegCreate(form, None), env);
      if env.user in app.db.users || (form.orgName != "" && env.org in app.db.orgs)
      then end == Halt(app, Refused(StoreError(Violation)))
      else
        var account := WithAccount(app.db, env.user, NewSignup(form.email, form.password, form.name, false, env.now));
        && end.app == app.(db := end.app.db, challenges := end.app.challenges)
        && end.app.db == (if form.orgName == "" then account
                          else account.(orgs := app.db.orgs[env.org := form.orgName],
                                        members := app.db.members[(env.org, env.user) := Active]))
        && Stored(app.challenges, Fresh(form.email, "email", env), env.now, env.sent, end.app.challenges, end.reply)
  {
    hide Finish, Stored, DoCreateSignupUser;
    FinishRegCreate(app, form, None, env);
    Effects.SignupExactly(app.db, env.user, SignupOf(form, false), Founding(form, None, env.org), env.now);
    var r := Creation(app.db, form, None, env.user, env.org, env.now);
    if r.outcome == Done { StoreExactly(app.(db := r.db), form.email, EMAIL, env); }
  }

  /** With a usable invitation: an active, verified account that is an active member of the invitation's organization,
      the invitation used up, and no code. */
  lemma InvitedRegistrationExactly(app: App, form: Form, i: InviteId, env: Env)
    requires References(app.db) && ByEmail(form.email) !in app.db.index
    requires i in app.db.invites && app.db.invites[i].status == Pending
    ensures var end := Finish(app, RegCreate(form, Some((i, app.db.invites[i].org))), env);
      if env.user in app.db.users then end == Halt(app, Refused(StoreError(Violation)))
      else
        var o := app.db.invites[i].org;
        var account := WithAccount(app.db, env.user, NewSignup(form.email, form.password, form.name, true, env.now));
        && end.reply == Okay
        && end.app == app.(db := account.(
             members := app.db.members[(o, env.user) := Active],
             invites := app.db.invites[i := app.db.invites[i].(status := Accepted, acceptedAt := Some(env.now))]))
  {
    hide Finish, DoCreateSignupUser;
    var o := app.db.invites[i].org;
    FinishRegCreate(app, form, Some((i, o)), env);
    Effects.InvitedSignupExactly(app.db, env.user, SignupOf(form, true), i, o, env.now);
  }

  /** An address that has an account and no invitation: an account that is not signing up is left alone, silently. One
      that is gets the new password and name; within a minute of the newest code that is all, and afterwards a new
      code replaces every other of the address. */
  lemma RepeatedRegistrationExactly(app: App, form: Form, env: Env)
    requires References(app.db) && ByEmail(form.email) in app.db.index
    ensures var end := Finish(app, RegCreate(form, None), env);
      var u := app.db.index[ByEmail(form.email)];
      var row := app.db.users[u];
      var latest := Latest(app.challenges, form.email, "email", env.choice);
      var db := app.db.(users := app.db.users[u := row.(password := Some(Digest(form.password)), displayName := form.name)]);
      if row.status != SignupPending || row.emailVerified then end == Halt(app, Okay)
      else if latest.Some? && env.now - app.challenges[latest.value].createdAt < 60 then end == Halt(app.(db := db), Okay)
      else Replaces(app, db, Fresh(form.email, "email", env), env.sent, end)
  {
    hide Finish, Creation, Replaces, CooldownActive;
    FinishRegCreate(app, form, None, env);
    DuplicateCreation(app.db, form, None, env);
    FinishRegFind(app, form, env);
    var u := app.db.index[ByEmail(form.email)];
    if app.db.users[u].Unverified() {
      var rotate := !CooldownActive(app, form.email, env);
      ReissueExactly(app, form, rotate, env);
      CooldownMeans(app, form.email, env);
    }
  }

  lemma CooldownMeans(app: App, email: string, env: Env)
    ensures var latest := Latest(app.challenges, email, "email", env.choice);
      CooldownActive(app, email, env) <==> latest.Some? && env.now - app.challenges[latest.value].createdAt < 60
  {
  }

  lemma DuplicateCreation(db: Db, form: Form, invite: Option<(InviteId, OrgId)>, env: Env)
    requires ByEmail(form.email) in db.index
    ensures Creation(db, form, invite, env.user, env.org, env.now).outcome == Duplicate
  {
  }

  /** The challenges of other addresses and channels. */
  ghost predicate Others(cs: seq<Challenge>, identifier: string, channel: string, rest: seq<Challenge>) {
    && (forall d :: d in rest <==> d in cs && !(d.identifier == identifier && d.channel == channel))
    && |rest| <= |cs|
  }

  /** The tables are these and the challenge is the only one of its address and channel, the others as before; or its id
      is taken and nothing changed. */
  ghost predicate Replaces(app: App, db: Db, c: Challenge, sent: bool, end: Next) {
    exists rest: seq<Challenge> ::
      && Others(app.challenges, c.identifier, c.channel, rest)
      && if exists d <- rest :: d.id == c.id then end == Halt(app, Refused(StoreError(Violation)))
         else end == Halt(app.(db := db, challenges := rest + [c]), if sent then Okay else Unsent)
  }

  lemma ReissueExactly(app: App, form: Form, rotate: bool, env: Env)
    requires Effects.SigningUp(app.db, form.email)
    ensures var end := Finish(app, RegReissue(form, rotate), env);
      var u := app.db.index[ByEmail(form.email)];
      var db := app.db.(users := app.db.users[u := app.db.users[u].(password := Some(Digest(form.password)), displayName := form.name)]);
      if rotate then Replaces(app, db, Fresh(form.email, "email", env), env.sent, end) else end == Halt(app.(db := db), Okay)
  {
    hide Finish, DoReissueSignup, WithoutFor, Replaces, HasId;
    FinishStep(app, RegReissue(form, rotate), env);
    Effects.ReissueExactly(app.db, form.email, Digest(form.password), form.name, env.now);
    var r := DoReissueSignup(app.db, form.email, Digest(form.password), form.name, None, env.now);
    ReplaceExactly(app, r.db, form.email, env);
  }

  lemma ReplaceExactly(app: App, db: Db, email: string, env: Env)
    ensures var rest := WithoutFor(app.challenges, email, EMAIL);
      Replaces(app, db, Fresh(email, "email", env), env.sent,
               if HasId(rest, env.challenge) then Halt(app, Refused(StoreError(Violation)))
               else Halt(app.(db := db, challenges := rest + [NewChallenge(email, EMAIL, env)]),
                         if env.sent then Okay else Unsent))
  {
    hide WithoutFor, Others;
    WithoutForOnly(app.challenges, email);
  }

  lemma WithoutForOnly(cs: seq<Challenge>, email: string)
    ensures Others(cs, email, "email", WithoutFor(cs, email, EMAIL))
  {
    CompleteCalls.KeepOrder(cs, (c: Challenge) => !For(c, email, EMAIL));
  }

  /** An address that has an account, with a usable invitation: an account that is signing up gets the new password and
      name, is activated and joins; any other is left alone, silently. */
  lemma RepeatedInvitedExactly(app: App, form: Form, i: InviteId, env: Env)
    requires References(app.db) && ByEmail(form.email) in app.db.index
    requires i in app.db.invites && app.db.invites[i].status == Pending
    ensures var o := app.db.invites[i].org;
      var end := Finish(app, RegCreate(form, Some((i, o))), env);
      var u := app.db.index[ByEmail(form.email)];
      var row := app.db.users[u];
      if row.status != SignupPending || row.emailVerified then end == Halt(app, Okay)
      else
        && end.reply == Okay && end.app == app.(db := end.app.db)
        && Effects.Joins(app.db.(users := app.db.users[u := row.(password := Some(Digest(form.password)),
                                   displayName := form.name, status := UserActive, emailVerified := true)]),
                         i, o, u, env.now, end.app.db)
  {
    hide Finish, Step, Creation, DoReissueSignup, Effects.Joins;
    var o := app.db.invites[i].org;
    FinishRegCreate(app, form, Some((i, o)), env);
    DuplicateCreation(app.db, form, Some((i, o)), env);
    FinishRegJoin(app, form, (i, o), env);
    Effects.InvitedReissueExactly(app.db, form.email, Digest(form.password), form.name, i, o, env.now);
  }

  lemma FinishRegJoin(app: App, form: Form, via: (InviteId, OrgId), env: Env)
    ensures Finish(app, RegJoin(form, via), env) == AtRegJoin(app, form, via, env)
  {
    hide Finish, DoReissueSignup;
    FinishStep(app, RegJoin(form, via), env);
  }

  /** How a registration starts: it is refused, with nothing changed, or it goes on with the normalized form, with the
      invitation its token leads to if it gave one. */
  lemma RegisterStarts(app: App, call: Call, env: Env)
    requires call.Register? && UniqueTokens(app.db)
    ensures var end := Complete(app, call, env);
      var form := Form(NormalizeEmail(call.email), call.password, Trim(call.name), Trim(call.orgName));
      var token := Trim(call.inviteToken);
      if !env.signupOpen then end == Halt(app, Refused(SignupClosed))
      else if !IsEmail(form.email) then end == Halt(app, Refused(InvalidEmail))
      else if Trim(call.password) == "" then end == Halt(app, Refused(PasswordRequired))
      else if token == "" then end == Finish(app, RegCreate(form, None), env)
      else if i :| ComesWith(app.db, i, token, form.email, env.now)
      then end == Finish(app, RegCreate(form, Some((i, app.db.invites[i].org))), env)
      else end == Halt(app, Refused(InvalidInvite))
  {
    hide Finish, Trim, NormalizeEmail, IsEmail, Lower, AtRegCreate;
    var form := Form(NormalizeEmail(call.email), call.password, Trim(call.name), Trim(call.orgName));
    var token := Trim(call.inviteToken);
    FinishRegInvite(app, form, token, env);
    var found := FindInvite(app.db, Digest(token));
    if found.Some? {
      assert ComesWith(app.db, found.value, token, form.email, env.now) <==> Usable(app.db.invites[found.value], form.email, env.now);
    }
    forall i | ComesWith(app.db, i, token, form.email, env.now) ensures found == Some(i) {
      assert TokenTaken(app.db, Digest(token));
    }
  }

  /** A registration creates an account exactly when sign-up is open, the form is valid, the address is free, the
      invitation (if the form names one) is usable, and the identifiers drawn are fresh. */
  ghost predicate Registers(db: Db, call: Call, env: Env)
    requires call.Register?
  {
    var email, token := NormalizeEmail(call.email), Trim(call.inviteToken);
    && env.signupOpen && IsEmail(email) && Trim(call.password) != ""
    && ByEmail(email) !in db.index && env.user !in db.users
    && (token == "" ==> Trim(call.orgName) == "" || env.org !in db.orgs)
    && (token != "" ==> exists i :: ComesWith(db, i, token, email, env.now))
  }

  /** The account carries the form: its normalized address, name and password. Without an invitation it is pending and
      unverified; with one it is active, verified and an active member of the organization that invited it. */
  ghost predicate CarriesForm(db: Db, call: Call, env: Env, after: Db)
    requires call.Register?
  {
    && env.user in after.users
    && var row, token := after.users[env.user], Trim(call.inviteToken);
    && row.email == Some(NormalizeEmail(call.email)) && row.mobile == None && row.createdAt == env.now
    && row.password == Some(Digest(call.password)) && row.displayName == Trim(call.name)
    && (token == "" ==> row.status == SignupPending && !row.emailVerified)
    && (token != "" ==>
          && row.status == UserActive && row.emailVerified
          && exists i :: ComesWith(db, i, token, NormalizeEmail(call.email), env.now)
                         && after.StatusOf(db.invites[i].org, env.user) == Some(Active)
                         && i in after.invites && after.invites[i].status == Accepted)
  }

  /** Every account that is there after a registration and was not before is the one it was to create. */
  lemma RegisterExactly(app: App, call: Call, env: Env)
    requires call.Register? && References(app.db) && UniqueTokens(app.db)
    ensures var after := Complete(app, call, env).app.db;
      && (forall u | u in after.users && u !in app.db.users :: u == env.user)
      && (env.user in after.users && env.user !in app.db.users <==> Registers(app.db, call, env))
      && (Registers(app.db, call, env) ==> CarriesForm(app.db, call, env, after))
  {
    hide Finish, Complete, Trim, NormalizeEmail, IsEmail, Lower, Stored, Others;
    RegisterStarts(app, call, env);
    var form := Form(NormalizeEmail(call.email), call.password, Trim(call.name), Trim(call.orgName));
    var token := Trim(call.inviteToken);
    if token == "" {
      if ByEmail(form.email) in app.db.index {
        RepeatedRegistrationExactly(app, form, env);
      } else {
        NewRegistrationExactly(app, form, env);
      }
    } else if i :| ComesWith(app.db, i, token, form.email, env.now) {
      if ByEmail(form.email) in app.db.index {
        RepeatedInvitedExactly(app, form, i, env);
      } else {
        InvitedRegistrationExactly(app, form, i, env);
      }
    }
  }
}
