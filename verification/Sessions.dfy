/** The application's handlers as sequences of store calls: one-time codes, log-in, refresh, organization
    selection, registration and its verification. Every store call is atomic; handlers of different
    requests may interleave between them. */
module Sessions {
  import opened Tables
  import opened Transactions
  import opened Text
  import opened DemoUsers
  import Purge

  const EMAIL := "email"
  const SMS := "sms"

  // Seconds.
  const OTP_TTL: int := 10 * 60
  const MAX_OTP_ATTEMPTS: nat := 5
  const ACCESS_TTL: int := 15 * 60
  const REFRESH_TTL: int := 30 * 24 * 60 * 60
  const SIGNUP_COOLDOWN: int := 60

  datatype Challenge = Challenge(
    id: string,
    identifier: string,
    channel: string,
    code: Digest,
    expiresAt: Time,
    createdAt: Time,
    attempts: nat)

  /** A refresh token row. `root` is the row of the log-in it descends from; the table does not store it. */
  datatype Token = Token(
    user: UserId,
    org: Option<OrgId>,
    hash: Digest,
    expiresAt: Time,
    revoked: bool,
    root: nat)

  datatype App = App(db: Db, challenges: seq<Challenge>, tokens: seq<Token>)

  /** What a handler gets from outside: configuration, clock, generated values, the choice a query makes
      among equally good rows, and whether the notification went out. */
  datatype Env = Env(
    autoSelect: bool,
    signupOpen: bool,
    emailOtp: bool,
    mobileOtp: bool,
    now: Time,
    user: UserId,
    org: OrgId,
    challenge: string,
    code: string,
    secret: string,
    choice: nat,
    sent: bool)

  datatype Call =
    | RequestOtp(identifier: string, channel: string)
    | VerifyOtp(identifier: string, channel: string, code: string)
    | Login(identifier: string, password: string)
    | Refresh(token: string)
    | SelectOrg(user: UserId, token: string, org: OrgId)
    | Register(email: string, password: string, name: string, orgName: string, inviteToken: string)
    | ConfirmSignup(email: string, code: string, password: string)
    | PurgeSignups(before: Time)
    | SeedDemo(email: string, mobile: string, password: string, name: string)
    | Transaction(req: Request)

  datatype Reason =
    | BadRequest | OtpDisabled | InvalidCode | TooManyAttempts | InvalidCredentials | AccountDisabled
    | InvalidRefresh | NotAMember | SignupClosed | InvalidEmail | PasswordRequired | InvalidInvite
    | StoreError(outcome: Outcome)

  datatype Reply =
    | Pair(user: UserId, org: Option<OrgId>, refresh: string, expires: Time)
    | Okay
    | Unsent               // written, but the code was not stored or not delivered
    | Refused(reason: Reason)

  /** The registration form, normalized. */
  datatype Form = Form(email: string, password: string, name: string, orgName: string)

  /** Where a handler stands: the next store call it will make. */
  datatype Pc =
    | Sweep(identifier: string, channel: string)
    | Insert(identifier: string, channel: string)
    | OtpRead(identifier: string, channel: string, code: string)
    | CountWrong(id: string)
    | OtpConsume(id: string, identifier: string, channel: string)
    | OtpFind(identifier: string, channel: string)
    | OtpCreate(contact: Contact)
    | LoginFind(contact: Contact, password: string)
    | LoginNote(user: UserId)
    | Choose(user: UserId)
    | Issue(user: UserId, org: Option<OrgId>, root: Option<nat>)
    | RefreshFind(token: string)
    | RefreshRevoke(token: string, user: UserId, org: Option<OrgId>, line: nat)
    | RefreshOrg(user: UserId, member: OrgId, line: nat)
    | SelectMember(user: UserId, token: string, member: OrgId)
    | SelectFind(user: UserId, token: string, member: OrgId)
    | SelectRevoke(token: string, user: UserId, member: OrgId, line: nat)
    | RegInvite(form: Form, token: string)
    | RegCreate(form: Form, invite: Option<(InviteId, OrgId)>)
    | RegJoin(form: Form, via: (InviteId, OrgId))
    | RegFind(form: Form)
    | RegCooldown(form: Form)
    | RegReissue(form: Form, rotate: bool)
    | SignupRead(email: string, code: string, password: string)
    | SignupFind(email: string, id: string, password: string)
    | SignupConsume(id: string, user: UserId)
    | SignupActivate(user: UserId)
    | PurgeRun(before: Time)
    | SeedRun(email: string, mobile: string, password: string, name: string)
    | Transact(req: Request)

  datatype Next = Halt(app: App, reply: Reply) | Go(app: App, pc: Pc)

  function Refuse(app: App, why: Reason): Next { Halt(app, Refused(why)) }

  // ---- challenge rows -----------------------------------------------------------------

  predicate For(c: Challenge, identifier: string, channel: string) {
    c.identifier == identifier && c.channel == channel
  }

  /** ORDER BY created_at DESC LIMIT 1: row `i` may come back. */
  predicate IsLatest(cs: seq<Challenge>, identifier: string, channel: string, i: nat) {
    && i < |cs| && For(cs[i], identifier, channel)
    && forall j | 0 <= j < |cs| && For(cs[j], identifier, channel) :: cs[j].createdAt <= cs[i].createdAt
  }

  ghost function Latest(cs: seq<Challenge>, identifier: string, channel: string, choice: nat): (r: Option<nat>)
    ensures r.Some? ==> IsLatest(cs, identifier, channel, r.value)
    ensures r.None? <==> forall c <- cs :: !For(c, identifier, channel)
    ensures IsLatest(cs, identifier, channel, choice) ==> r == Some(choice)
  {
    if exists i: nat :: IsLatest(cs, identifier, channel, i) then
      var i: nat :| IsLatest(cs, identifier, channel, i);
      Some(if IsLatest(cs, identifier, channel, choice) then choice else i)
    else
      NoLatest(cs, identifier, channel);
      None
  }

  lemma {:induction false} NoLatest(cs: seq<Challenge>, identifier: string, channel: string)
    ensures (forall i: nat :: !IsLatest(cs, identifier, channel, i)) ==> forall c <- cs :: !For(c, identifier, channel)
  {
    if cs != [] {
      var n := |cs| - 1;
      var prefix := cs[..n];
      NoLatest(prefix, identifier, channel);
      assert cs == prefix + [cs[n]];
      if i: nat :| IsLatest(prefix, identifier, channel, i) {
        var best := if For(cs[n], identifier, channel) && cs[n].createdAt > cs[i].createdAt then n else i;
        assert forall j | 0 <= j < n :: cs[j] == prefix[j];
        assert IsLatest(cs, identifier, channel, best);
      } else if For(cs[n], identifier, channel) {
        assert forall j | 0 <= j < n :: cs[j] == prefix[j] && prefix[j] in prefix;
        assert IsLatest(cs, identifier, channel, n);
      }
    }
  }

  function Keep(cs: seq<Challenge>, p: Challenge -> bool): seq<Challenge> {
    if cs == [] then []
    else (if p(cs[0]) then [cs[0]] else []) + Keep(cs[1..], p)
  }

  function Without(cs: seq<Challenge>, id: string): seq<Challenge> { Keep(cs, (c: Challenge) => c.id != id) }

  function Unexpired(cs: seq<Challenge>, now: Time): seq<Challenge> { Keep(cs, (c: Challenge) => c.expiresAt >= now) }

  function WithoutFor(cs: seq<Challenge>, identifier: string, channel: string): seq<Challenge> {
    Keep(cs, (c: Challenge) => !For(c, identifier, channel))
  }

  function Counted(cs: seq<Challenge>, id: string): seq<Challenge> {
    seq(|cs|, i requires 0 <= i < |cs| =>
      if cs[i].id == id then cs[i].(attempts := cs[i].attempts + 1) else cs[i])
  }

  predicate HasId(cs: seq<Challenge>, id: string) { exists c :: c in cs && c.id == id }

  function NewChallenge(identifier: string, channel: string, env: Env): Challenge {
    Challenge(env.challenge, identifier, channel, Digest(env.code), env.now + OTP_TTL, env.now, 0)
  }

  // ---- token rows ---------------------------------------------------------------------

  predicate IsLive(t: Token, hash: Digest, now: Time) {
    t.hash == hash && t.expiresAt > now && !t.revoked
  }

  ghost function FindValid(ts: seq<Token>, hash: Digest, now: Time, choice: nat): (r: Option<nat>)
    ensures r.Some? ==> r.value < |ts| && IsLive(ts[r.value], hash, now)
    ensures r.None? <==> forall t <- ts :: !IsLive(t, hash, now)
    ensures choice < |ts| && IsLive(ts[choice], hash, now) ==> r == Some(choice)
  {
    if choice < |ts| && IsLive(ts[choice], hash, now) then Some(choice)
    else if i: nat :| i < |ts| && IsLive(ts[i], hash, now) then Some(i)
    else None
  }

  function RevokedAll(ts: seq<Token>, hash: Digest): seq<Token> {
    seq(|ts|, i requires 0 <= i < |ts| => if ts[i].hash == hash then ts[i].(revoked := true) else ts[i])
  }

  // ---- account and membership queries ---------------------------------------------------

  function Find(db: Db, c: Contact): Option<UserId> {
    if c in db.index && db.index[c] in db.users then Some(db.index[c]) else None
  }

  /** The organizations listed for a user: active memberships only. */
  function OrgsOf(db: Db, u: UserId): set<OrgId> {
    set k | k in db.members && k.1 == u && k.0 in db.orgs && db.members[k] == Active :: k.0
  }

  ghost function SingleOrg(db: Db, u: UserId): (r: Option<OrgId>)
    ensures r.Some? <==> |OrgsOf(db, u)| == 1
    ensures r.Some? ==> OrgsOf(db, u) == {r.value} && db.IsActive(r.value, u)
  {
    var orgs := OrgsOf(db, u);
    if |orgs| != 1 then None
    else
      var o :| o in orgs;
      Singleton(orgs, o);
      Some(o)
  }

  lemma Singleton(s: set<OrgId>, o: OrgId)
    requires |s| == 1 && o in s
    ensures s == {o}
  {
    assert |s - {o}| == 0;
  }

  ghost function FindInvite(db: Db, hash: Digest): (r: Option<InviteId>)
    ensures r.Some? ==> r.value in db.invites && db.invites[r.value].tokenHash == hash
    ensures r.None? ==> !TokenTaken(db, hash)
  {
    if i :| i in db.invites && db.invites[i].tokenHash == hash then Some(i) else None
  }

  // ---- the start of each handler: checks that need no store ------------------------------

  function Start(app: App, call: Call, env: Env): Next {
    match call
    case RequestOtp(i, c) => StartRequest(app, Trim(i), Trim(c), env)
    case VerifyOtp(i, c, code) =>
      if Trim(i) == "" || Trim(c) == "" || code == "" then Refuse(app, InvalidCode)
      else Go(app, OtpRead(Trim(i), Trim(c), code))
    case Login(i, password) =>
      if Trim(i) == "" || password == "" then Refuse(app, InvalidCredentials)
      else Go(app, LoginFind(LoginContact(Trim(i)), password))
    case Refresh(token) => Go(app, RefreshFind(token))
    case SelectOrg(u, token, o) =>
      if Trim(u) == "" || Trim(o) == "" then Refuse(app, InvalidRefresh)
      else Go(app, SelectMember(Trim(u), token, Trim(o)))
    case Register(email, password, name, orgName, token) =>
      StartRegister(app, Form(NormalizeEmail(email), password, Trim(name), Trim(orgName)), Trim(token), env)
    case ConfirmSignup(email, code, password) =>
      if !env.signupOpen then Refuse(app, SignupClosed)
      else if NormalizeEmail(email) == "" || Trim(code) == "" then Refuse(app, InvalidCode)
      else Go(app, SignupRead(NormalizeEmail(email), Trim(code), password))
    case PurgeSignups(before) => Go(app, PurgeRun(before))
    case SeedDemo(email, mobile, password, name) =>
      if NormalizeEmail(email) == "" && Trim(mobile) == "" then Refuse(app, BadRequest)
      else if Trim(mobile) != "" && !IsE164(Trim(mobile)) then Refuse(app, BadRequest)
      else Go(app, SeedRun(NormalizeEmail(email), Trim(mobile), password, name))
    case Transaction(req) => Go(app, Transact(req))
  }

  function LoginContact(identifier: string): Contact {
    if IsE164(identifier) then ByMobile(identifier) else ByEmail(Lower(identifier))
  }

  function StartRequest(app: App, identifier: string, channel: string, env: Env): Next {
    if identifier == "" || channel == "" then Refuse(app, BadRequest)
    else if channel == EMAIL then
      if env.emailOtp then Go(app, Sweep(identifier, channel)) else Refuse(app, OtpDisabled)
    else if channel == SMS then
      if !IsE164(identifier) then Refuse(app, BadRequest)
      else if env.mobileOtp then Go(app, Sweep(identifier, channel)) else Refuse(app, OtpDisabled)
    else Refuse(app, BadRequest)
  }

  function StartRegister(app: App, form: Form, token: string, env: Env): Next {
    if !env.signupOpen then Refuse(app, SignupClosed)
    else if !IsEmail(form.email) then Refuse(app, InvalidEmail)
    else if Trim(form.password) == "" then Refuse(app, PasswordRequired)
    else if token == "" then Go(app, RegCreate(form, None))
    else Go(app, RegInvite(form, token))
  }

  // ---- one store call -------------------------------------------------------------------

  ghost function Step(app: App, pc: Pc, env: Env): Next {
    match pc
    case Sweep(i, c) => Go(app.(challenges := Unexpired(app.challenges, env.now)), Insert(i, c))
    case Insert(i, c) => AtInsert(app, i, c, env)
    case OtpRead(i, c, code) => AtOtpRead(app, i, c, code, env)
    case CountWrong(id) => Halt(app.(challenges := Counted(app.challenges, id)), Refused(InvalidCode))
    case OtpConsume(id, i, c) => Go(app.(challenges := Without(app.challenges, id)), OtpFind(i, c))
    case OtpFind(i, c) => AtOtpFind(app, i, c)
    case OtpCreate(contact) => AtOtpCreate(app, contact, env)
    case LoginFind(contact, password) => AtLoginFind(app, contact, password)
    case LoginNote(u) => Go(app, Choose(u))
    case Choose(u) => Go(app, Issue(u, if env.autoSelect then SingleOrg(app.db, u) else None, None))
    case Issue(u, o, root) => AtIssue(app, u, o, root, env)
    case RefreshFind(token) => AtRefreshFind(app, token, env)
    case RefreshRevoke(token, u, o, line) => AtRefreshRevoke(app, token, u, o, line)
    case RefreshOrg(u, o, line) => Go(app, Issue(u, if app.db.IsActive(o, u) then Some(o) else None, Some(line)))
    case SelectMember(u, token, o) =>
      if app.db.IsActive(o, u) then Go(app, SelectFind(u, token, o)) else Refuse(app, NotAMember)
    case SelectFind(u, token, o) => AtSelectFind(app, u, token, o, env)
    case SelectRevoke(token, u, o, line) =>
      Go(app.(tokens := RevokedAll(app.tokens, Digest(token))), Issue(u, Some(o), Some(line)))
    case RegInvite(form, token) => AtRegInvite(app, form, token, env)
    case RegCreate(form, invite) => AtRegCreate(app, form, invite, env)
    case RegJoin(form, via) => AtRegJoin(app, form, via, env)
    case RegFind(form) => AtRegFind(app, form)
    case RegCooldown(form) => Go(app, RegReissue(form, !CooldownActive(app, form.email, env)))
    case RegReissue(form, rotate) => AtRegReissue(app, form, rotate, env)
    case SignupRead(email, code, password) => AtSignupRead(app, email, code, password, env)
    case SignupFind(email, id, password) => AtSignupFind(app, email, id, password)
    case SignupConsume(id, u) => Go(app.(challenges := Without(app.challenges, id)), SignupActivate(u))
    case SignupActivate(u) => AtSignupActivate(app, u, env)
    case PurgeRun(before) => Halt(app.(db := Purge.Purged(app.db, before)), Okay)
    case SeedRun(email, mobile, password, name) => AtSeed(app, email, mobile, password, name, env)
    case Transact(req) => AtTransact(app, req)
  }

  function AtInsert(app: App, identifier: string, channel: string, env: Env): Next {
    if HasId(app.challenges, env.challenge) then Halt(app, Unsent)
    else
      Halt(app.(challenges := app.challenges + [NewChallenge(identifier, channel, env)]),
           if env.sent then Okay else Unsent)
  }

  ghost function AtOtpRead(app: App, identifier: string, channel: string, code: string, env: Env): Next {
    match Latest(app.challenges, identifier, channel, env.choice)
    case None => Refuse(app, InvalidCode)
    case Some(i) =>
      var c := app.challenges[i];
      if env.now > c.expiresAt then Refuse(app, InvalidCode)
      else if c.attempts >= MAX_OTP_ATTEMPTS then Refuse(app, TooManyAttempts)
      else if !c.code.Matches(code) then Go(app, CountWrong(c.id))
      else Go(app, OtpConsume(c.id, identifier, channel))
  }

  function AtOtpFind(app: App, identifier: string, channel: string): Next {
    if channel != EMAIL && channel != SMS then Refuse(app, BadRequest)
    else
      var contact := if channel == EMAIL then ByEmail(identifier) else ByMobile(identifier);
      match Find(app.db, contact)
      case None => Go(app, OtpCreate(contact))
      case Some(u) =>
        if app.db.users[u].status == SignupPending then Refuse(app, InvalidCode) else Go(app, Choose(u))
  }

  function AtOtpCreate(app: App, contact: Contact, env: Env): Next {
    var r := DoCreateUser(app.db, env.user, contact, env.now);
    if r.outcome == Done then Go(app.(db := r.db), Choose(env.user)) else Refuse(app, StoreError(r.outcome))
  }

  function AtLoginFind(app: App, contact: Contact, password: string): Next {
    match Find(app.db, contact)
    case None => Refuse(app, InvalidCredentials)
    case Some(u) =>
      var row := app.db.users[u];
      if row.status == SignupPending then Refuse(app, InvalidCredentials)
      else if row.status == UserDisabled then Refuse(app, AccountDisabled)
      else if row.password.None? || !row.password.value.Matches(password) then Refuse(app, InvalidCredentials)
      else Go(app, LoginNote(u))
  }

  function AtIssue(app: App, u: UserId, o: Option<OrgId>, root: Option<nat>, env: Env): Next {
    var line := if root.Some? then root.value else |app.tokens|;
    Halt(app.(tokens := app.tokens + [Token(u, o, Digest(env.secret), env.now + REFRESH_TTL, false, line)]),
         Pair(u, o, env.secret, env.now + ACCESS_TTL))
  }

  ghost function AtRefreshFind(app: App, token: string, env: Env): Next {
    match FindValid(app.tokens, Digest(token), env.now, env.choice)
    case None => Refuse(app, InvalidRefresh)
    case Some(i) =>
      var t := app.tokens[i];
      Go(app, RefreshRevoke(token, t.user, t.org, t.root))
  }

  function AtRefreshRevoke(app: App, token: string, u: UserId, o: Option<OrgId>, line: nat): Next {
    Go(app.(tokens := RevokedAll(app.tokens, Digest(token))),
       if o.None? then Issue(u, None, Some(line)) else RefreshOrg(u, o.value, line))
  }

  ghost function AtSelectFind(app: App, u: UserId, token: string, o: OrgId, env: Env): Next {
    match FindValid(app.tokens, Digest(token), env.now, env.choice)
    case None => Refuse(app, InvalidRefresh)
    case Some(i) =>
      if app.tokens[i].user != u then Refuse(app, InvalidRefresh)
      else Go(app, SelectRevoke(token, u, o, app.tokens[i].root))
  }

  predicate Usable(invite: Invite, email: string, now: Time) {
    invite.status == Pending && now < invite.expiresAt && Lower(invite.email) == Lower(email)
  }

  ghost function AtRegInvite(app: App, form: Form, token: string, env: Env): Next {
    match FindInvite(app.db, Digest(token))
    case None => Refuse(app, InvalidInvite)
    case Some(i) =>
      var invite := app.db.invites[i];
      if Usable(invite, form.email, env.now) then Go(app, RegCreate(form, Some((i, invite.org))))
      else Refuse(app, InvalidInvite)
  }

  function SignupOf(form: Form, invited: bool): Signup {
    Signup(form.email, Digest(form.password), form.name, if invited then UserActive else SignupPending, invited)
  }

  function InviteError(outcome: Outcome): Reason {
    if outcome == InviteNotFound then InvalidInvite else StoreError(outcome)
  }

  /** The organization a registration founds: none with an invitation. */
  function Founding(form: Form, invite: Option<(InviteId, OrgId)>, org: OrgId): Option<(OrgId, string)> {
    if invite.None? && form.orgName != "" then Some((org, form.orgName)) else None
  }

  function Creation(db: Db, form: Form, invite: Option<(InviteId, OrgId)>, user: UserId, org: OrgId, now: Time): Result {
    DoCreateSignupUser(db, user, SignupOf(form, invite.Some?), Founding(form, invite, org), invite, now)
  }

  function AtRegCreate(app: App, form: Form, invite: Option<(InviteId, OrgId)>, env: Env): Next {
    var r := Creation(app.db, form, invite, env.user, env.org, env.now);
    if r.outcome == Done then
      if invite.Some? then Halt(app.(db := r.db), Okay) else Go(app.(db := r.db), Sweep(form.email, EMAIL))
    else if r.outcome == Duplicate then
      Go(app, if invite.Some? then RegJoin(form, invite.value) else RegFind(form))
    else Refuse(app, InviteError(r.outcome))
  }

  function AtRegJoin(app: App, form: Form, via: (InviteId, OrgId), env: Env): Next {
    var r := DoReissueSignup(app.db, form.email, Digest(form.password), form.name, Some(via), env.now);
    if r.outcome == Done || r.outcome == NotPending then Halt(app.(db := r.db), Okay)
    else Refuse(app, InviteError(r.outcome))
  }

  /** An active or verified account is left alone, silently. */
  function AtRegFind(app: App, form: Form): Next {
    match Find(app.db, ByEmail(form.email))
    case None => Go(app, RegCooldown(form))
    case Some(u) => if app.db.users[u].Unverified() then Go(app, RegCooldown(form)) else Halt(app, Okay)
  }

  ghost predicate CooldownActive(app: App, email: string, env: Env) {
    var latest := Latest(app.challenges, email, EMAIL, env.choice);
    latest.Some? && env.now - app.challenges[latest.value].createdAt < SIGNUP_COOLDOWN
  }

  /** Replaces the credentials; outside the cooldown also the code, in the same transaction. */
  function AtRegReissue(app: App, form: Form, rotate: bool, env: Env): Next {
    var r := DoReissueSignup(app.db, form.email, Digest(form.password), form.name, None, env.now);
    var rest := WithoutFor(app.challenges, form.email, EMAIL);
    if r.outcome != Done || !rotate then Halt(app.(db := r.db), Okay)
    else if HasId(rest, env.challenge) then Refuse(app, StoreError(Violation))
    else
      Halt(app.(db := r.db, challenges := rest + [NewChallenge(form.email, EMAIL, env)]),
           if env.sent then Okay else Unsent)
  }

  ghost function AtSignupRead(app: App, email: string, code: string, password: string, env: Env): Next {
    match Latest(app.challenges, email, EMAIL, env.choice)
    case None => Refuse(app, InvalidCode)
    case Some(i) =>
      var c := app.challenges[i];
      if env.now > c.expiresAt then Refuse(app, InvalidCode)
      else if c.attempts >= MAX_OTP_ATTEMPTS then Refuse(app, TooManyAttempts)
      else if !c.code.Matches(code) then Go(app, CountWrong(c.id))
      else Go(app, SignupFind(email, c.id, password))
  }

  predicate Confirms(row: User, password: string) {
    row.Unverified() && row.password.Some? && row.password.value.Matches(password)
  }

  function AtSignupFind(app: App, email: string, id: string, password: string): Next {
    match Find(app.db, ByEmail(email))
    case None => Go(app, CountWrong(id))
    case Some(u) => Go(app, if Confirms(app.db.users[u], password) then SignupConsume(id, u) else CountWrong(id))
  }

  function AtSignupActivate(app: App, u: UserId, env: Env): Next {
    var r := DoVerifySignup(app.db, u, env.now);
    if r.outcome == Done then Go(app.(db := r.db), Choose(u)) else Refuse(app, InvalidCode)
  }

  function AtSeed(app: App, email: string, mobile: string, password: string, name: string, env: Env): Next {
    var r := DoSeed(app.db, env.user, email, mobile, Digest(password), name, env.now);
    if r.outcome == Done then Halt(app.(db := r.db), Okay) else Refuse(app, StoreError(r.outcome))
  }

  function AtTransact(app: App, req: Request): Next {
    var r := Execute(app.db, req);
    if r.outcome == Done then Halt(app.(db := r.db), Okay) else Refuse(app, StoreError(r.outcome))
  }

  // ---- a complete call --------------------------------------------------------------------

  /** Store calls left at most. */
  function Rank(pc: Pc): nat {
    match pc
    case Issue(_, _, _) => 1
    case CountWrong(_) => 1
    case PurgeRun(_) => 1
    case SeedRun(_, _, _, _) => 1
    case Transact(_) => 1
    case Insert(_, _) => 1
    case RegJoin(_, _) => 1
    case RegReissue(_, _) => 1
    case Choose(_) => 2
    case RefreshOrg(_, _, _) => 2
    case SelectRevoke(_, _, _, _) => 2
    case Sweep(_, _) => 2
    case RegCooldown(_) => 2
    case LoginNote(_) => 3
    case OtpCreate(_) => 3
    case SignupActivate(_) => 3
    case RefreshRevoke(_, _, _, _) => 3
    case SelectFind(_, _, _) => 3
    case RegFind(_) => 3
    case OtpFind(_, _) => 4
    case LoginFind(_, _) => 4
    case RefreshFind(_) => 4
    case SelectMember(_, _, _) => 4
    case SignupConsume(_, _) => 4
    case RegCreate(_, _) => 4
    case OtpConsume(_, _, _) => 5
    case SignupFind(_, _, _) => 5
    case RegInvite(_, _) => 5
    case OtpRead(_, _, _) => 6
    case SignupRead(_, _, _) => 6
  }

  lemma RankFalls(app: App, pc: Pc, env: Env)
    ensures Step(app, pc, env).Go? ==> Rank(Step(app, pc, env).pc) < Rank(pc)
  {
    hide Unexpired, Without, Counted, RevokedAll, DoCreateSignupUser, DoReissueSignup, DoCreateUser, DoVerifySignup,
      DoSeed, Execute, Purge.Purged, CooldownActive, Find, HasId, SignupOf, Latest, FindValid, FindInvite, SingleOrg;
  }

  /** The rest of a handler when nothing else runs in between. */
  ghost function Finish(app: App, pc: Pc, env: Env): Next
    ensures Finish(app, pc, env).Halt?
    decreases Rank(pc)
  {
    RankFalls(app, pc, env);
    match Step(app, pc, env)
    case Halt(a, r) => Halt(a, r)
    case Go(a, next) => Finish(a, next, env)
  }

  lemma FinishStep(app: App, pc: Pc, env: Env)
    ensures var next := Step(app, pc, env);
      && (next.Halt? ==> Finish(app, pc, env) == next)
      && (next.Go? ==> Finish(app, pc, env) == Finish(next.app, next.pc, env))
  {
    hide Step, Rank;
    RankFalls(app, pc, env);
  }

  ghost function Onward(next: Next, env: Env): Next {
    if next.Halt? then next else Finish(next.app, next.pc, env)
  }

  lemma FinishRegInvite(app: App, form: Form, token: string, env: Env)
    ensures Finish(app, RegInvite(form, token), env) == Onward(AtRegInvite(app, form, token, env), env)
  {
    hide Finish;
    FinishStep(app, RegInvite(form, token), env);
  }

  lemma FinishRegCreate(app: App, form: Form, invite: Option<(InviteId, OrgId)>, env: Env)
    ensures var r := Creation(app.db, form, invite, env.user, env.org, env.now);
      var end := Finish(app, RegCreate(form, invite), env);
      && (r.outcome == Done && invite.Some? ==> end == Halt(app.(db := r.db), Okay))
      && (r.outcome == Done && invite.None? ==> end == Finish(app.(db := r.db), Sweep(form.email, EMAIL), env))
      && (r.outcome == Duplicate && invite.Some? ==> end == Finish(app, RegJoin(form, invite.value), env))
      && (r.outcome == Duplicate && invite.None? ==> end == Finish(app, RegFind(form), env))
      && (r.outcome != Done && r.outcome != Duplicate ==> end == Refuse(app, InviteError(r.outcome)))
  {
    hide Finish, Creation;
    FinishStep(app, RegCreate(form, invite), env);
  }

  lemma FinishRegFind(app: App, form: Form, env: Env)
    ensures AtRegFind(app, form).Halt? ==> Finish(app, RegFind(form), env) == AtRegFind(app, form)
    ensures AtRegFind(app, form).Go? ==>
      Finish(app, RegFind(form), env) == Finish(app, RegReissue(form, !CooldownActive(app, form.email, env)), env)
  {
    hide Finish, CooldownActive;
    FinishStep(app, RegFind(form), env);
    FinishStep(app, RegCooldown(form), env);
  }

  lemma FinishSignupConsume(app: App, id: string, u: UserId, env: Env)
    ensures var consumed := app.(challenges := Without(app.challenges, id));
      Finish(app, SignupConsume(id, u), env) == Onward(AtSignupActivate(consumed, u, env), env)
  {
    hide Finish, Without, DoVerifySignup;
    FinishStep(app, SignupConsume(id, u), env);
    FinishStep(app.(challenges := Without(app.challenges, id)), SignupActivate(u), env);
  }

  lemma FinishRefreshFind(app: App, token: string, env: Env)
    ensures var found := FindValid(app.tokens, Digest(token), env.now, env.choice);
      if found.None? then Finish(app, RefreshFind(token), env) == Refuse(app, InvalidRefresh)
      else
        var t := app.tokens[found.value];
        Finish(app, RefreshFind(token), env) == Onward(AtRefreshRevoke(app, token, t.user, t.org, t.root), env)
  {
    hide Finish, RevokedAll, FindValid;
    FinishStep(app, RefreshFind(token), env);
    var found := FindValid(app.tokens, Digest(token), env.now, env.choice);
    if found.Some? {
      var t := app.tokens[found.value];
      FinishStep(app, RefreshRevoke(token, t.user, t.org, t.root), env);
    }
  }

  ghost function Complete(app: App, call: Call, env: Env): Next
    ensures Complete(app, call, env).Halt?
  {
    match Start(app, call, env)
    case Halt(a, r) => Halt(a, r)
    case Go(a, pc) => Finish(a, pc, env)
  }
}
