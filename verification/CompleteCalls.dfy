/** What holds over every sequence of complete calls: how often codes can be tried, which sessions descend
    from one log-in, and which organization a pair may carry. */
module CompleteCalls {
  import opened Tables
  import opened Transactions
  import opened Text
  import opened Sessions
  import opened DemoUsers
  import Purge

  // ---- challenges -------------------------------------------------------------------------

  ghost predicate UniqueIds(cs: seq<Challenge>) {
    forall i, j | 0 <= i < j < |cs| :: cs[i].id != cs[j].id
  }

  ghost predicate Within(cs: seq<Challenge>) {
    forall c <- cs :: c.attempts <= MAX_OTP_ATTEMPTS
  }

  /** Wrong tries the stored challenges still allow. */
  function Slack(cs: seq<Challenge>): int {
    if cs == [] then 0 else MAX_OTP_ATTEMPTS - cs[0].attempts + Slack(cs[1..])
  }

  /** The challenge can take one more wrong try. */
  ghost predicate Open(cs: seq<Challenge>, id: string) {
    exists c :: c in cs && c.id == id && c.attempts < MAX_OTP_ATTEMPTS
  }

  lemma {:induction false} SlackNonNegative(cs: seq<Challenge>)
    requires Within(cs)
    ensures Slack(cs) >= 0
  {
    if cs != [] {
      assert cs[0] in cs && forall c <- cs[1..] :: c in cs;
      SlackNonNegative(cs[1..]);
    }
  }

  lemma {:induction false} SlackAppend(cs: seq<Challenge>, c: Challenge)
    ensures Slack(cs + [c]) == Slack(cs) + MAX_OTP_ATTEMPTS - c.attempts
  {
    if cs == [] {
      assert cs + [c] == [c];
    } else {
      SlackAppend(cs[1..], c);
      assert (cs + [c])[1..] == cs[1..] + [c];
    }
  }

  lemma {:induction false} KeepOrder(cs: seq<Challenge>, p: Challenge -> bool)
    ensures forall c :: c in Keep(cs, p) <==> c in cs && p(c)
    ensures |Keep(cs, p)| <= |cs|
    ensures UniqueIds(cs) ==> UniqueIds(Keep(cs, p))
    ensures Within(cs) ==> Within(Keep(cs, p)) && Slack(Keep(cs, p)) <= Slack(cs)
    ensures (exists c :: c in cs && !p(c)) ==> |Keep(cs, p)| < |cs|
  {
    if cs != [] {
      var head, rest := cs[0], Keep(cs[1..], p);
      KeepOrder(cs[1..], p);
      assert cs == [head] + cs[1..];
      if UniqueIds(cs) {
        KeepUnique(cs, p);
      }
      if Within(cs) {
        assert head in cs && forall c <- cs[1..] :: c in cs;
        assert Within(cs[1..]);
        assert ([head] + rest)[1..] == rest && [] + rest == rest;
      }
    }
  }

  lemma KeepUnique(cs: seq<Challenge>, p: Challenge -> bool)
    requires cs != [] && UniqueIds(cs)
    requires UniqueIds(cs[1..]) ==> UniqueIds(Keep(cs[1..], p))
    requires forall c :: c in Keep(cs[1..], p) <==> c in cs[1..] && p(c)
    ensures UniqueIds(Keep(cs, p))
  {
    var rest := Keep(cs[1..], p);
    assert UniqueIds(cs[1..]);
    forall c | c in rest ensures c.id != cs[0].id {
      var i :| 0 <= i < |cs| - 1 && cs[1..][i] == c;
      assert cs[i + 1] == c;
    }
    UniqueCons(cs[0], rest);
    assert [] + rest == rest;
    assert Keep(cs, p) == if p(cs[0]) then [cs[0]] + rest else rest;
  }

  lemma UniqueCons(c: Challenge, cs: seq<Challenge>)
    requires UniqueIds(cs) && forall d <- cs :: d.id != c.id
    ensures UniqueIds([c] + cs)
  {
    var all := [c] + cs;
    forall i, j | 0 <= i < j < |all| ensures all[i].id != all[j].id {
      assert all[j] == cs[j - 1] && cs[j - 1] in cs;
      assert i > 0 ==> all[i] == cs[i - 1];
    }
  }

  lemma {:induction false} CountedSlack(cs: seq<Challenge>, id: string)
    requires UniqueIds(cs)
    ensures Slack(Counted(cs, id)) == Slack(cs) - if HasId(cs, id) then 1 else 0
    ensures UniqueIds(Counted(cs, id))
  {
    if cs != [] {
      assert Counted(cs, id)[1..] == Counted(cs[1..], id);
      assert forall c <- cs[1..] :: c in cs;
      CountedSlack(cs[1..], id);
      if cs[0].id == id {
        assert cs[0] in cs;
        assert !HasId(cs[1..], id) by {
          forall c | c in cs[1..] ensures c.id != id {
            var i :| 0 <= i < |cs| - 1 && cs[1..][i] == c;
            assert cs[i + 1] == c;
          }
        }
      } else {
        assert HasId(cs, id) <==> HasId(cs[1..], id);
      }
    }
  }

  lemma CountedWithin(cs: seq<Challenge>, id: string)
    requires UniqueIds(cs) && Within(cs) && Open(cs, id)
    ensures Within(Counted(cs, id)) && HasId(cs, id)
  {
    var c :| c in cs && c.id == id && c.attempts < MAX_OTP_ATTEMPTS;
    var k :| 0 <= k < |cs| && cs[k] == c;
    forall d | d in Counted(cs, id) ensures d.attempts <= MAX_OTP_ATTEMPTS {
      var i :| 0 <= i < |cs| && Counted(cs, id)[i] == d;
      assert cs[i] in cs;
      assert cs[i].id == id ==> i == k;
    }
  }

  // ---- what a call costs ------------------------------------------------------------------

  /** Challenges created, codes accepted and wrong tries counted. */
  datatype Tally = Tally(created: nat, accepted: nat, wrong: nat)

  function Plus(a: Tally, b: Tally): Tally {
    Tally(a.created + b.created, a.accepted + b.accepted, a.wrong + b.wrong)
  }

  function StepTally(app: App, pc: Pc, env: Env): Tally {
    match pc
    case Insert(_, _) => Tally(if HasId(app.challenges, env.challenge) then 0 else 1, 0, 0)
    case RegReissue(form, rotate) => Tally(if Rotates(app, form, rotate, env) then 1 else 0, 0, 0)
    case OtpConsume(_, _, _) => Tally(0, 1, 0)
    case SignupConsume(_, _) => Tally(0, 1, 0)
    case CountWrong(_) => Tally(0, 0, 1)
    case _ => Tally(0, 0, 0)
  }

  predicate Rotates(app: App, form: Form, rotate: bool, env: Env) {
    && rotate && !HasId(WithoutFor(app.challenges, form.email, EMAIL), env.challenge)
    && DoReissueSignup(app.db, form.email, Digest(form.password), form.name, None, env.now).outcome == Done
  }

  ghost function FinishTally(app: App, pc: Pc, env: Env): Tally
    decreases Rank(pc)
  {
    RankFalls(app, pc, env);
    match Step(app, pc, env)
    case Halt(_, _) => StepTally(app, pc, env)
    case Go(a, next) => Plus(StepTally(app, pc, env), FinishTally(a, next, env))
  }

  ghost function CallTally(app: App, call: Call, env: Env): Tally {
    match Start(app, call, env)
    case Halt(_, _) => Tally(0, 0, 0)
    case Go(a, pc) => FinishTally(a, pc, env)
  }

  // ---- tokens -----------------------------------------------------------------------------

  /** Rows of one line belong to the account that logged in. */
  ghost predicate Descent(ts: seq<Token>) {
    forall i | 0 <= i < |ts| :: ts[i].root < |ts| && ts[ts[i].root].root == ts[i].root && ts[ts[i].root].user == ts[i].user
  }

  /** At most one row of a line is not revoked. */
  ghost predicate OneLive(ts: seq<Token>) {
    forall i, j | 0 <= i < |ts| && 0 <= j < |ts| && !ts[i].revoked && !ts[j].revoked && ts[i].root == ts[j].root :: i == j
  }

  /** The line belongs to the account and has no live row, so one may be added. */
  ghost predicate Vacant(ts: seq<Token>, line: nat, u: UserId) {
    && line < |ts| && ts[line].root == line && ts[line].user == u
    && forall t <- ts | t.root == line :: t.revoked
  }

  /** A live row of the line carries this token. */
  ghost predicate Presented(ts: seq<Token>, token: string, line: nat, u: UserId) {
    exists i :: 0 <= i < |ts| && !ts[i].revoked && ts[i].hash == Digest(token) && ts[i].root == line && ts[i].user == u
  }

  lemma RevokeKeeps(ts: seq<Token>, hash: Digest)
    requires Descent(ts) && OneLive(ts)
    ensures Descent(RevokedAll(ts, hash)) && OneLive(RevokedAll(ts, hash))
  {
    var ts' := RevokedAll(ts, hash);
    forall i | 0 <= i < |ts'| ensures ts'[i].root == ts[i].root && ts'[i].user == ts[i].user {}
    forall i | 0 <= i < |ts'| && !ts'[i].revoked ensures !ts[i].revoked {}
  }

  lemma RevokeVacates(ts: seq<Token>, token: string, line: nat, u: UserId)
    requires Descent(ts) && OneLive(ts) && Presented(ts, token, line, u)
    ensures var ts' := RevokedAll(ts, Digest(token));
      Descent(ts') && OneLive(ts') && Vacant(ts', line, u)
  {
    RevokeKeeps(ts, Digest(token));
    var i :| 0 <= i < |ts| && !ts[i].revoked && ts[i].hash == Digest(token) && ts[i].root == line && ts[i].user == u;
    assert ts[line].root == line && ts[line].user == u;
    var ts' := RevokedAll(ts, Digest(token));
    hide Descent;
    forall t | t in ts' && t.root == line ensures t.revoked {
      var j :| 0 <= j < |ts'| && ts'[j] == t;
      assert ts[j].root == line;
      assert !ts[j].revoked ==> i == j;
    }
  }

  lemma IssueKeeps(ts: seq<Token>, t: Token)
    requires Descent(ts) && OneLive(ts) && (t.root == |ts| || Vacant(ts, t.root, t.user))
    ensures Descent(ts + [t]) && OneLive(ts + [t])
  {
    var ts' := ts + [t];
    forall i | 0 <= i < |ts'|
      ensures ts'[i].root < |ts'| && ts'[ts'[i].root].root == ts'[i].root && ts'[ts'[i].root].user == ts'[i].user
    {
      assert i < |ts| ==> ts'[i] == ts[i] && ts[i].root < |ts|;
    }
    forall i | 0 <= i < |ts| && !ts[i].revoked ensures ts[i].root != t.root {
      assert ts[i] in ts && ts[i].root < |ts|;
    }
  }

  // ---- assertions at each store call of a call that runs alone ------------------------------

  ghost predicate Sound(app: App) {
    UniqueIds(app.challenges) && Within(app.challenges) && Descent(app.tokens) && OneLive(app.tokens)
  }

  ghost predicate Justified(app: App, pc: Pc) {
    match pc
    case CountWrong(id) => Open(app.challenges, id)
    case OtpConsume(id, _, _) => Open(app.challenges, id)
    case SignupFind(_, id, _) => Open(app.challenges, id)
    case SignupConsume(id, _) => Open(app.challenges, id)
    case RefreshRevoke(token, u, _, line) => Presented(app.tokens, token, line, u)
    case RefreshOrg(u, _, line) => Vacant(app.tokens, line, u)
    case SelectFind(u, _, o) => app.db.IsActive(o, u)
    case SelectRevoke(token, u, o, line) => app.db.IsActive(o, u) && Presented(app.tokens, token, line, u)
    case Issue(u, o, root) =>
      && (o.Some? ==> app.db.IsActive(o.value, u))
      && (root.Some? ==> Vacant(app.tokens, root.value, u))
    case _ => true
  }

  /** Every accepted code and every wrong try is paid for by a challenge. */
  ghost predicate Paid(cs: seq<Challenge>, t: Tally, cs': seq<Challenge>) {
    && t.accepted + |cs'| <= t.created + |cs|
    && t.wrong + Slack(cs') <= MAX_OTP_ATTEMPTS * t.created + Slack(cs)
  }

  lemma PaidBoth(a: seq<Challenge>, s: Tally, b: seq<Challenge>, t: Tally, c: seq<Challenge>)
    requires Paid(a, s, b) && Paid(b, t, c)
    ensures Paid(a, Plus(s, t), c)
  {
  }

  ghost predicate Sane(app: App, next: Next, t: Tally) {
    && Sound(next.app)
    && Paid(app.challenges, t, next.app.challenges)
    && (next.Go? ==> Justified(next.app, next.pc))
    && (next.Halt? && next.reply.Pair? && next.reply.org.Some? ==>
          next.app.db.IsActive(next.reply.org.value, next.reply.user))
  }

  predicate WritesChallenges(pc: Pc) {
    pc.Sweep? || pc.Insert? || pc.CountWrong? || pc.OtpConsume? || pc.SignupConsume? || pc.RegReissue?
  }

  predicate WritesTokens(pc: Pc) {
    pc.Issue? || pc.RefreshRevoke? || pc.SelectRevoke?
  }

  lemma ChallengeStep(app: App, pc: Pc, env: Env)
    requires Sound(app) && Justified(app, pc) && WritesChallenges(pc)
    ensures Sane(app, Step(app, pc, env), StepTally(app, pc, env))
  {
    var cs := app.challenges;
    match pc
    case Sweep(_, _) => KeepOrder(cs, (c: Challenge) => c.expiresAt >= env.now);
    case Insert(i, c) => InsertPaid(cs, NewChallenge(i, c, env));
    case CountWrong(id) =>
      CountedSlack(cs, id);
      CountedWithin(cs, id);
    case OtpConsume(id, _, _) => KeepOrder(cs, (c: Challenge) => c.id != id);
    case SignupConsume(id, _) => KeepOrder(cs, (c: Challenge) => c.id != id);
    case RegReissue(form, _) =>
      KeepOrder(cs, (c: Challenge) => !For(c, form.email, EMAIL));
      InsertPaid(WithoutFor(cs, form.email, EMAIL), NewChallenge(form.email, EMAIL, env));
  }

  lemma InsertPaid(cs: seq<Challenge>, c: Challenge)
    requires UniqueIds(cs) && Within(cs) && c.attempts == 0
    ensures !HasId(cs, c.id) ==> UniqueIds(cs + [c]) && Within(cs + [c]) && Paid(cs, Tally(1, 0, 0), cs + [c])
  {
    SlackAppend(cs, c);
    if !HasId(cs, c.id) {
      assert forall i | 0 <= i < |cs| :: cs[i] in cs;
    }
  }

  lemma TokenStep(app: App, pc: Pc, env: Env)
    requires Sound(app) && Justified(app, pc) && WritesTokens(pc)
    ensures Sane(app, Step(app, pc, env), StepTally(app, pc, env))
  {
    hide RevokedAll, Vacant, Presented, Descent, OneLive, UniqueIds, Within, Slack;
    match pc
    case Issue(u, o, root) =>
      IssueKeeps(app.tokens, Token(u, o, Digest(env.secret), env.now + REFRESH_TTL, false,
                                   if root.Some? then root.value else |app.tokens|));
    case RefreshRevoke(token, u, _, line) => RevokeVacates(app.tokens, token, line, u);
    case SelectRevoke(token, u, _, line) => RevokeVacates(app.tokens, token, line, u);
  }

  /** Reads that find a token or a membership, and what they leave known. */
  lemma QueryStep(app: App, pc: Pc, env: Env)
    requires Sound(app) && Justified(app, pc)
    requires pc.RefreshFind? || pc.RefreshOrg? || pc.SelectMember? || pc.SelectFind? || pc.Choose?
    ensures Sane(app, Step(app, pc, env), Tally(0, 0, 0))
  {
    hide Sound, UniqueIds, Within, OneLive, Descent, Slack, OrgsOf, Vacant;
    assert pc.RefreshFind? || pc.SelectFind? ==>
        forall i | 0 <= i < |app.tokens| && IsLive(app.tokens[i], Digest(pc.token), env.now) ::
          Presented(app.tokens, pc.token, app.tokens[i].root, app.tokens[i].user);
  }

  /** Reads that find a challenge. */
  lemma CodeStep(app: App, pc: Pc, env: Env)
    requires Sound(app) && Justified(app, pc) && (pc.OtpRead? || pc.SignupRead? || pc.SignupFind?)
    ensures Sane(app, Step(app, pc, env), Tally(0, 0, 0))
  {
    hide Sound, Slack, Find, Confirms;
    assert forall i | 0 <= i < |app.challenges| && app.challenges[i].attempts < MAX_OTP_ATTEMPTS ::
        Open(app.challenges, app.challenges[i].id) by {
      assert forall i | 0 <= i < |app.challenges| :: app.challenges[i] in app.challenges;
    }
  }

  /** Everything else touches neither challenges nor tokens and leaves nothing to justify. */
  lemma PlainStep(app: App, pc: Pc, env: Env)
    requires Sound(app) && !WritesChallenges(pc) && !WritesTokens(pc)
    requires !(pc.RefreshFind? || pc.RefreshOrg? || pc.SelectMember? || pc.SelectFind? || pc.Choose?)
    requires !(pc.OtpRead? || pc.SignupRead? || pc.SignupFind?)
    ensures Sane(app, Step(app, pc, env), Tally(0, 0, 0))
  {
    hide Sound, UniqueIds, Within, OneLive, Descent, Slack, OrgsOf, Find, DoCreateSignupUser, DoReissueSignup,
      DoSeed, Execute, Purge.Purged, DoCreateUser, DoVerifySignup, CooldownActive, SignupOf, FindInvite, Usable;
    var next := Step(app, pc, env);
    assert next.app.challenges == app.challenges && next.app.tokens == app.tokens;
    assert Sound(next.app) by { SoundAlone(app, next.app); }
  }

  lemma SoundAlone(app: App, app': App)
    requires Sound(app) && app'.challenges == app.challenges && app'.tokens == app.tokens
    ensures Sound(app')
  {
  }

  lemma StepSane(app: App, pc: Pc, env: Env)
    requires Sound(app) && Justified(app, pc)
    ensures Sane(app, Step(app, pc, env), StepTally(app, pc, env))
  {
    hide Step, Sane, Sound, Justified, HasId, Rotates;
    if WritesChallenges(pc) {
      ChallengeStep(app, pc, env);
    } else if WritesTokens(pc) {
      TokenStep(app, pc, env);
    } else if pc.OtpRead? || pc.SignupRead? || pc.SignupFind? {
      CodeStep(app, pc, env);
    } else if pc.RefreshFind? || pc.RefreshOrg? || pc.SelectMember? || pc.SelectFind? || pc.Choose? {
      QueryStep(app, pc, env);
    } else {
      PlainStep(app, pc, env);
    }
  }

  lemma {:induction false} FinishSane(app: App, pc: Pc, env: Env)
    requires Sound(app) && Justified(app, pc)
    ensures Sane(app, Finish(app, pc, env), FinishTally(app, pc, env))
    decreases Rank(pc)
  {
    hide Step, StepTally, Sound, Justified, Paid, Rank;
    StepSane(app, pc, env);
    RankFalls(app, pc, env);
    var next := Step(app, pc, env);
    if next.Go? {
      FinishSane(next.app, next.pc, env);
      PaidBoth(app.challenges, StepTally(app, pc, env), next.app.challenges,
               FinishTally(next.app, next.pc, env), Finish(next.app, next.pc, env).app.challenges);
    }
  }

  lemma CompleteSane(app: App, call: Call, env: Env)
    requires Sound(app)
    ensures Sane(app, Complete(app, call, env), CallTally(app, call, env))
  {
    hide Start, Sound, Finish, FinishTally, Rank;
    StartPlain(app, call, env);
    var next := Start(app, call, env);
    if next.Go? { FinishSane(app, next.pc, env); }
  }

  lemma StartPlain(app: App, call: Call, env: Env)
    ensures var next := Start(app, call, env);
      next.app == app && (next.Go? ==> Justified(app, next.pc)) && (next.Halt? ==> next.reply.Refused?)
  {
    hide Trim, IsEmail, IsE164, NormalizeEmail, LoginContact;
  }

  // ---- sequences of complete calls ----------------------------------------------------------

  ghost function AfterCalls(app: App, calls: seq<(Call, Env)>): App {
    if calls == [] then app
    else
      var n := |calls| - 1;
      Complete(AfterCalls(app, calls[..n]), calls[n].0, calls[n].1).app
  }

  ghost function TallyOf(app: App, calls: seq<(Call, Env)>): Tally {
    if calls == [] then Tally(0, 0, 0)
    else
      var n := |calls| - 1;
      Plus(TallyOf(app, calls[..n]), CallTally(AfterCalls(app, calls[..n]), calls[n].0, calls[n].1))
  }

  lemma {:induction false} RunSane(app: App, calls: seq<(Call, Env)>)
    requires Sound(app)
    ensures Sound(AfterCalls(app, calls))
    ensures Paid(app.challenges, TallyOf(app, calls), AfterCalls(app, calls).challenges)
    decreases |calls|
  {
    hide Sound, Complete, CallTally, Paid;
    if calls != [] {
      var n := |calls| - 1;
      var before := AfterCalls(app, calls[..n]);
      RunSane(app, calls[..n]);
      CompleteSane(before, calls[n].0, calls[n].1);
      PaidBoth(app.challenges, TallyOf(app, calls[..n]), before.challenges,
               CallTally(before, calls[n].0, calls[n].1), AfterCalls(app, calls).challenges);
    } else {
      NothingPaid(app.challenges);
    }
  }

  lemma NothingPaid(cs: seq<Challenge>)
    ensures Paid(cs, Tally(0, 0, 0), cs)
  {
  }

  const FRESH := App(EMPTY_DB, [], [])

  /** From an empty store, over every sequence of complete calls: no challenge counts more than five wrong
      tries, codes are accepted at most once per challenge created, and wrong tries are at most five times
      the challenges created. */
  lemma GuessesAreBounded(calls: seq<(Call, Env)>)
    ensures var t := TallyOf(FRESH, calls); var after := AfterCalls(FRESH, calls);
      && (forall c <- after.challenges :: c.attempts <= MAX_OTP_ATTEMPTS)
      && t.accepted <= t.created
      && t.wrong <= MAX_OTP_ATTEMPTS * t.created
  {
    hide AfterCalls, TallyOf;
    assert Sound(FRESH);
    RunSane(FRESH, calls);
    SlackNonNegative(AfterCalls(FRESH, calls).challenges);
  }

  /** From an empty store, over every sequence of complete calls: at most one unrevoked token descends from
      a log-in, always the log-in's own account, and a pair carries an organization only if its account is an
      active member at that moment. */
  lemma OneSessionPerLogin(calls: seq<(Call, Env)>, call: Call, env: Env)
    ensures var before := AfterCalls(FRESH, calls); var end := Complete(before, call, env);
      && OneLive(end.app.tokens) && Descent(end.app.tokens)
      && (end.reply.Pair? && end.reply.org.Some? ==> end.app.db.IsActive(end.reply.org.value, end.reply.user))
  {
    hide AfterCalls, TallyOf, Complete;
    assert Sound(FRESH);
    RunSane(FRESH, calls);
    CompleteSane(AfterCalls(FRESH, calls), call, env);
  }

  // ---- what a pair obtained with a code costs -----------------------------------------------

  /** A log-in or a confirmed sign-up by code uses up a challenge. */
  lemma CodePairCosts(app: App, call: Call, env: Env)
    requires call.VerifyOtp? || call.ConfirmSignup?
    ensures Complete(app, call, env).reply.Pair? ==> CallTally(app, call, env).accepted >= 1
  {
    hide Trim, NormalizeEmail, Finish, FinishTally;
    var next := Start(app, call, env);
    if next.Go? && next.pc.OtpRead? { OtpReadCosts(app, next.pc, env); }
    if next.Go? && next.pc.SignupRead? { SignupReadCosts(app, next.pc, env); }
  }

  ghost predicate Costs(app: App, pc: Pc, env: Env) {
    Finish(app, pc, env).reply.Pair? ==> FinishTally(app, pc, env).accepted >= 1
  }

  lemma ThenCosts(app: App, pc: Pc, env: Env)
    requires var next := Step(app, pc, env);
      && (next.Halt? ==> !next.reply.Pair?)
      && (next.Go? ==> StepTally(app, pc, env).accepted >= 1 || Costs(next.app, next.pc, env))
    ensures Costs(app, pc, env)
  {
    hide Step, StepTally;
    RankFalls(app, pc, env);
  }

  lemma OtpReadCosts(app: App, pc: Pc, env: Env)
    requires pc.OtpRead?
    ensures Costs(app, pc, env)
  {
    hide Costs;
    forall id { ThenCosts(app, CountWrong(id), env); }
    forall id { ThenCosts(app, OtpConsume(id, pc.identifier, pc.channel), env); }
    ThenCosts(app, pc, env);
  }

  lemma SignupReadCosts(app: App, pc: Pc, env: Env)
    requires pc.SignupRead?
    ensures Costs(app, pc, env)
  {
    hide Costs, Find, Confirms;
    forall id { ThenCosts(app, CountWrong(id), env); }
    forall id, u { ThenCosts(app, SignupConsume(id, u), env); }
    forall id { ThenCosts(app, SignupFind(pc.email, id, pc.password), env); }
    ThenCosts(app, pc, env);
  }

  /** Rotating the code of a retried registration leaves exactly one challenge for the address. */
  lemma RotationLeavesOne(app: App, form: Form, env: Env)
    requires Rotates(app, form, true, env)
    ensures var after := Step(app, RegReissue(form, true), env).app.challenges;
      && (forall i | 0 <= i < |after| :: For(after[i], form.email, EMAIL) <==> i == |after| - 1)
      && after != [] && after[|after| - 1] == NewChallenge(form.email, EMAIL, env)
  {
    hide DoReissueSignup, HasId;
    var rest := WithoutFor(app.challenges, form.email, EMAIL);
    KeepOrder(app.challenges, (c: Challenge) => !For(c, form.email, EMAIL));
    assert forall i | 0 <= i < |rest| :: rest[i] in rest;
    hide WithoutFor;
  }
}
