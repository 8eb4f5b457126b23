/** Wrong tries of a code when store calls interleave. Reading a challenge and counting a wrong try are two store
    calls, so requests that read before others count may pass the limit; how far depends only on how many requests
    are in flight at once. */
module ConcurrentCodes {
  import opened Tables
  import opened Sessions
  import opened CompleteCalls
  import opened SettledSessions
  import DemoUsers
  import Purge
  import Text
  import Transactions

  /** The challenge a handler has checked and may still count a wrong try against. */
  function Checked(pc: Pc): Option<string> {
    match pc
    case CountWrong(id) => Some(id)
    case SignupFind(_, id, _) => Some(id)
    case _ => None
  }

  function Holders(threads: map<nat, Pc>, id: string): set<nat> {
    set t | t in threads && Checked(threads[t]) == Some(id)
  }

  /** The tries counted and the tries that may still be counted stay within four plus the requests in flight. */
  ghost predicate Bounded(sys: Sys, limit: nat) {
    forall c <- sys.app.challenges :: c.attempts + |Holders(sys.threads, c.id)| <= MAX_OTP_ATTEMPTS - 1 + limit
  }

  // ---- how one store call changes challenges ---------------------------------------------------

  /** Every challenge after the step was there before with as many attempts, or one fewer if the step counted it,
      or is new without any. */
  ghost predicate Follows(cs: seq<Challenge>, pc: Pc, cs': seq<Challenge>) {
    forall c <- cs' ::
      || c.attempts == 0
      || exists b <- cs :: b.id == c.id && c.attempts == b.attempts + if pc == CountWrong(c.id) then 1 else 0
  }

  lemma KeptFollows(cs: seq<Challenge>, pc: Pc, p: Challenge -> bool, cs': seq<Challenge>)
    requires !pc.CountWrong? && forall c <- cs' :: c in Keep(cs, p) || c.attempts == 0
    ensures Follows(cs, pc, cs')
  {
    KeepMembers(cs, p);
  }

  lemma {:induction false} KeepMembers(cs: seq<Challenge>, p: Challenge -> bool)
    ensures forall c <- Keep(cs, p) :: c in cs
  {
    if cs != [] { KeepMembers(cs[1..], p); }
  }

  lemma CountFollows(cs: seq<Challenge>, id: string)
    ensures Follows(cs, CountWrong(id), Counted(cs, id))
  {
    forall c | c in Counted(cs, id)
      ensures exists b <- cs :: b.id == c.id && c.attempts == b.attempts + if CountWrong(id) == CountWrong(c.id) then 1 else 0
    {
      var i :| 0 <= i < |cs| && Counted(cs, id)[i] == c;
      assert cs[i] in cs;
    }
  }

  lemma StepFollows(app: App, pc: Pc, env: Env)
    ensures Follows(app.challenges, pc, Step(app, pc, env).app.challenges)
  {
    hide Follows, Keep, Counted;
    var cs := app.challenges;
    if WritesChallenges(pc) {
      WriteFollows(app, pc, env);
    } else {
      SameChallenges(app, pc, env);
      SameFollows(cs, pc);
    }
  }

  lemma SameFollows(cs: seq<Challenge>, pc: Pc)
    requires !pc.CountWrong?
    ensures Follows(cs, pc, cs)
  {
  }

  lemma SameChallenges(app: App, pc: Pc, env: Env)
    requires !WritesChallenges(pc)
    ensures Step(app, pc, env).app.challenges == app.challenges
  {
    hide Creation, Transactions.DoReissueSignup, Transactions.Execute, Transactions.DoCreateUser,
      Transactions.DoVerifySignup, DemoUsers.DoSeed, Purge.Purged, RevokedAll,
      CooldownActive, Find, Latest, FindValid, FindInvite, SingleOrg;
  }

  lemma WriteFollows(app: App, pc: Pc, env: Env)
    requires WritesChallenges(pc)
    ensures Follows(app.challenges, pc, Step(app, pc, env).app.challenges)
  {
    hide Follows, Keep, Counted, Transactions.DoReissueSignup, HasId;
    var cs := app.challenges;
    var cs' := Step(app, pc, env).app.challenges;
    match pc
    case Sweep(_, _) => KeptFollows(cs, pc, (c: Challenge) => c.expiresAt >= env.now, cs');
    case Insert(_, _) => InsertFollows(cs, pc, cs');
    case CountWrong(id) => CountFollows(cs, id);
    case OtpConsume(id, _, _) => KeptFollows(cs, pc, (c: Challenge) => c.id != id, cs');
    case SignupConsume(id, _) => KeptFollows(cs, pc, (c: Challenge) => c.id != id, cs');
    case RegReissue(form, _) =>
      SameFollows(cs, pc);
      if cs' != cs { KeptFollows(cs, pc, (c: Challenge) => !For(c, form.email, EMAIL), cs'); }
  }

  lemma InsertFollows(cs: seq<Challenge>, pc: Pc, cs': seq<Challenge>)
    requires !pc.CountWrong? && forall c <- cs' :: c in cs || c.attempts == 0
    ensures Follows(cs, pc, cs')
  {
  }

  /** Identifiers stay unique. */
  lemma StepUnique(app: App, pc: Pc, env: Env)
    requires UniqueIds(app.challenges)
    ensures UniqueIds(Step(app, pc, env).app.challenges)
  {
    hide UniqueIds, Keep, Counted, Transactions.DoReissueSignup, HasId, Within, Slack;
    var cs := app.challenges;
    if !WritesChallenges(pc) {
      SameChallenges(app, pc, env);
    } else {
      match pc
      case Sweep(_, _) => KeepOrder(cs, (c: Challenge) => c.expiresAt >= env.now);
      case Insert(i, c) => AppendUnique(cs, NewChallenge(i, c, env));
      case CountWrong(id) => CountedSlack(cs, id);
      case OtpConsume(id, _, _) => KeepOrder(cs, (c: Challenge) => c.id != id);
      case SignupConsume(id, _) => KeepOrder(cs, (c: Challenge) => c.id != id);
      case RegReissue(form, _) =>
        KeepOrder(cs, (c: Challenge) => !For(c, form.email, EMAIL));
        AppendUnique(WithoutFor(cs, form.email, EMAIL), NewChallenge(form.email, EMAIL, env));
    }
  }

  lemma AppendUnique(cs: seq<Challenge>, c: Challenge)
    requires UniqueIds(cs)
    ensures !HasId(cs, c.id) ==> UniqueIds(cs + [c])
  {
    assert forall i | 0 <= i < |cs| :: cs[i] in cs;
  }

  // ---- how it changes the handlers -----------------------------------------------------------------

  /** A handler starts holding a challenge only by reading it with tries left. */
  ghost predicate Starts(app: App, pc: Pc, next: Next) {
    next.Go? && Checked(next.pc).Some? ==>
      || Checked(next.pc) == Checked(pc)
      || exists c <- app.challenges :: c.id == Checked(next.pc).value && c.attempts < MAX_OTP_ATTEMPTS
  }

  lemma ReadStarts(app: App, pc: Pc, env: Env)
    requires pc.OtpRead? || pc.SignupRead? || pc.SignupFind?
    ensures Starts(app, pc, Step(app, pc, env))
  {
    hide Find, Confirms;
    assert forall i | 0 <= i < |app.challenges| :: app.challenges[i] in app.challenges;
  }

  lemma OtherStarts(app: App, pc: Pc, env: Env)
    requires !(pc.OtpRead? || pc.SignupRead? || pc.SignupFind?)
    ensures Step(app, pc, env).Go? ==> Checked(Step(app, pc, env).pc).None?
  {
    hide Creation, Transactions.DoReissueSignup, Transactions.Execute, Transactions.DoCreateUser,
      Transactions.DoVerifySignup, DemoUsers.DoSeed, Purge.Purged, RevokedAll, Counted, Without, Unexpired, WithoutFor,
      CooldownActive, Find, FindValid, FindInvite, SingleOrg, HasId;
  }

  lemma StepChecks(app: App, pc: Pc, env: Env)
    ensures Starts(app, pc, Step(app, pc, env))
  {
    hide Step;
    if pc.OtpRead? || pc.SignupRead? || pc.SignupFind? { ReadStarts(app, pc, env); } else { OtherStarts(app, pc, env); }
  }

  /** The handlers after thread `t` made its store call. */
  function Threads(threads: map<nat, Pc>, t: nat, next: Next): map<nat, Pc> {
    if next.Go? then threads[t := next.pc] else threads - {t}
  }

  lemma HoldersWithin(threads: map<nat, Pc>, id: string)
    ensures |Holders(threads, id)| <= |threads|
  {
    assert Holders(threads, id) <= threads.Keys;
    Subset(Holders(threads, id), threads.Keys);
    assert |threads.Keys| == |threads|;
  }

  lemma {:induction false} Subset(a: set<nat>, b: set<nat>)
    requires a <= b
    ensures |a| <= |b|
  {
    if a != {} {
      var x :| x in a;
      Subset(a - {x}, b - {x});
    }
  }

  /** Holders of an id after the step: with the thread or without it. */
  lemma HoldersStep(threads: map<nat, Pc>, t: nat, next: Next, id: string)
    requires t in threads
    ensures t in Holders(threads, id) <==> Checked(threads[t]) == Some(id)
    ensures var before := Holders(threads, id);
      Holders(Threads(threads, t, next), id) == if next.Go? && Checked(next.pc) == Some(id) then before + {t} else before - {t}
  {
    hide Checked;
  }

  lemma Sizes(s: set<nat>, t: nat)
    ensures |s + {t}| <= |s| + 1 && |s - {t}| <= |s|
    ensures t in s ==> |s + {t}| == |s| && |s - {t}| == |s| - 1
  {
    if t in s {
      assert s + {t} == s;
    } else {
      assert s - {t} == s;
    }
  }

  lemma SameRow(cs: seq<Challenge>, a: Challenge, b: Challenge)
    requires UniqueIds(cs) && a in cs && b in cs && a.id == b.id
    ensures a == b
  {
    var i :| 0 <= i < |cs| && cs[i] == a;
    var j :| 0 <= j < |cs| && cs[j] == b;
    assert i == j;
  }

  /** One challenge after one store call. */
  lemma RowBounded(sys: Sys, t: nat, env: Env, limit: nat, c: Challenge)
    requires t in sys.threads && Bounded(sys, limit) && UniqueIds(sys.app.challenges)
    requires var next := Step(sys.app, sys.threads[t], env);
      c in next.app.challenges && |Threads(sys.threads, t, next)| <= limit
    ensures var next := Step(sys.app, sys.threads[t], env);
      c.attempts + |Holders(Threads(sys.threads, t, next), c.id)| <= MAX_OTP_ATTEMPTS - 1 + limit
  {
    hide Step, Holders, Threads, UniqueIds;
    var pc, next := sys.threads[t], Step(sys.app, sys.threads[t], env);
    HoldersWithin(Threads(sys.threads, t, next), c.id);
    if c.attempts > 0 {
      StepFollows(sys.app, pc, env);
      StepChecks(sys.app, pc, env);
      HoldersStep(sys.threads, t, next, c.id);
      Sizes(Holders(sys.threads, c.id), t);
      var b :| b in sys.app.challenges && b.id == c.id && c.attempts == b.attempts + if pc == CountWrong(c.id) then 1 else 0;
      CountHalts(sys.app, pc, env);
      if next.Go? && Checked(next.pc) == Some(c.id) && Checked(pc) != Some(c.id) {
        var read :| read in sys.app.challenges && read.id == c.id && read.attempts < MAX_OTP_ATTEMPTS;
        SameRow(sys.app.challenges, read, b);
      }
    }
  }

  lemma CountHalts(app: App, pc: Pc, env: Env)
    ensures pc.CountWrong? ==> Step(app, pc, env).Halt?
  {
    hide Counted;
  }

  lemma RunBounded(sys: Sys, t: nat, env: Env, limit: nat)
    requires t in sys.threads && Bounded(sys, limit) && UniqueIds(sys.app.challenges)
    requires |Moved(sys, Run(t), env).threads| <= limit
    ensures Bounded(Moved(sys, Run(t), env), limit) && UniqueIds(Moved(sys, Run(t), env).app.challenges)
  {
    hide Step, UniqueIds, Holders;
    var next := Step(sys.app, sys.threads[t], env);
    StepUnique(sys.app, sys.threads[t], env);
    assert Moved(sys, Run(t), env).threads == Threads(sys.threads, t, next);
    forall c | c in next.app.challenges
      ensures c.attempts + |Holders(Threads(sys.threads, t, next), c.id)| <= MAX_OTP_ATTEMPTS - 1 + limit
    {
      RowBounded(sys, t, env, limit, c);
    }
  }

  lemma ArriveBounded(sys: Sys, t: nat, call: Call, env: Env, limit: nat)
    requires t !in sys.threads && Bounded(sys, limit)
    ensures var sys' := Moved(sys, Arrive(t, call), env);
      Bounded(sys', limit) && sys'.app == sys.app
  {
    hide Start;
    StartUnchecked(sys.app, call, env);
    var sys' := Moved(sys, Arrive(t, call), env);
    forall id ensures Holders(sys'.threads, id) == Holders(sys.threads, id) {
    }
  }

  lemma StartUnchecked(app: App, call: Call, env: Env)
    ensures var next := Start(app, call, env);
      next.app == app && (next.Go? ==> Checked(next.pc).None?)
  {
    hide Text.Trim, Text.IsEmail, Text.IsE164, Text.NormalizeEmail, LoginContact;
  }

  /** Over every interleaving with at most `limit` requests in flight at once, no challenge counts more than
      `4 + limit` wrong tries: five when requests come one at a time. */
  lemma {:induction false} TriesUnderLoad(app: App, moves: seq<(Move, Env)>, limit: nat)
    requires UniqueIds(app.challenges) && Within(app.challenges) && limit >= 1
    requires forall n | 0 <= n <= |moves| :: |MovedAll(Sys(app, map[], []), moves[..n]).threads| <= limit
    ensures var sys := MovedAll(Sys(app, map[], []), moves);
      && Bounded(sys, limit) && UniqueIds(sys.app.challenges)
      && forall c <- sys.app.challenges :: c.attempts <= MAX_OTP_ATTEMPTS - 1 + limit
    decreases |moves|
  {
    hide Moved, UniqueIds;
    var start := Sys(app, map[], []);
    if moves != [] {
      var n := |moves| - 1;
      forall m | 0 <= m <= n ensures |MovedAll(start, moves[..n][..m]).threads| <= limit {
        assert moves[..n][..m] == moves[..m];
      }
      TriesUnderLoad(app, moves[..n], limit);
      var mid := MovedAll(start, moves[..n]);
      assert moves[..n + 1] == moves;
      StepBounded(mid, moves[n].0, moves[n].1, limit);
    }
  }

  lemma StepBounded(sys: Sys, move: Move, env: Env, limit: nat)
    requires Bounded(sys, limit) && UniqueIds(sys.app.challenges) && |Moved(sys, move, env).threads| <= limit
    ensures Bounded(Moved(sys, move, env), limit) && UniqueIds(Moved(sys, move, env).app.challenges)
  {
    hide Bounded, UniqueIds, Step, Start;
    match move
    case Arrive(t, call) => if t !in sys.threads { ArriveBounded(sys, t, call, env, limit); }
    case Run(t) => if t in sys.threads { RunBounded(sys, t, env, limit); }
  }
}
