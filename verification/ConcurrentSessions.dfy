/** One live session per log-in when store calls interleave: it holds exactly as long as no two requests rotate the
    same line at once, because finding a token, revoking it and issuing the next are separate store calls. */
module ConcurrentSessions {
  import opened Tables
  import opened Sessions
  import opened CompleteCalls
  import opened SettledSessions
  import DemoUsers
  import Purge
  import Text
  import Transactions

  /** The line a handler is rotating: it has found a token of it and has not yet issued the next. */
  function Rotating(pc: Pc): Option<nat> {
    match pc
    case RefreshRevoke(_, _, _, line) => Some(line)
    case RefreshOrg(_, _, line) => Some(line)
    case SelectRevoke(_, _, _, line) => Some(line)
    case Issue(_, _, root) => root
    case _ => None
  }

  /** No two handlers rotate the same line. */
  ghost predicate Exclusive(threads: map<nat, Pc>) {
    forall s, t | s in threads && t in threads && s != t && Rotating(threads[s]).Some? ::
      Rotating(threads[s]) != Rotating(threads[t])
  }

  ghost predicate Belongs(ts: seq<Token>, line: nat, u: UserId) {
    line < |ts| && ts[line].root == line && ts[line].user == u
  }

  /** Whatever is live in the line carries this hash, so revoking the hash empties the line. */
  ghost predicate Confined(ts: seq<Token>, line: nat, hash: Digest) {
    forall t <- ts | t.root == line && !t.revoked :: t.hash == hash
  }

  /** What a handler knows of the line it is rotating. */
  ghost predicate Holds(ts: seq<Token>, pc: Pc) {
    match pc
    case RefreshRevoke(token, u, _, line) => Belongs(ts, line, u) && Confined(ts, line, Digest(token))
    case SelectRevoke(token, u, _, line) => Belongs(ts, line, u) && Confined(ts, line, Digest(token))
    case RefreshOrg(u, _, line) => Vacant(ts, line, u)
    case Issue(u, _, root) => root.Some? ==> Vacant(ts, root.value, u)
    case _ => true
  }

  ghost predicate Lined(ts: seq<Token>) { Descent(ts) && OneLive(ts) }

  lemma FoundConfined(ts: seq<Token>, i: nat)
    requires Lined(ts) && i < |ts| && !ts[i].revoked
    ensures Belongs(ts, ts[i].root, ts[i].user) && Confined(ts, ts[i].root, ts[i].hash)
  {
    forall t | t in ts && t.root == ts[i].root && !t.revoked ensures t == ts[i] {
      var j :| 0 <= j < |ts| && ts[j] == t;
    }
  }

  lemma RevokeEmpties(ts: seq<Token>, line: nat, u: UserId, hash: Digest)
    requires Lined(ts) && Belongs(ts, line, u) && Confined(ts, line, hash)
    ensures Lined(RevokedAll(ts, hash)) && Vacant(RevokedAll(ts, hash), line, u)
  {
    RevokeKeeps(ts, hash);
    var ts' := RevokedAll(ts, hash);
    forall t | t in ts' && t.root == line ensures t.revoked {
      var j :| 0 <= j < |ts'| && ts'[j] == t;
      assert ts[j] in ts && ts[j].root == line;
    }
  }

  /** Revoking any hash leaves what other handlers know true. */
  lemma RevokeHolds(ts: seq<Token>, hash: Digest, pc: Pc)
    requires Holds(ts, pc)
    ensures Holds(RevokedAll(ts, hash), pc)
  {
    var ts' := RevokedAll(ts, hash);
    forall t | t in ts' ensures exists s <- ts :: s.root == t.root && s.hash == t.hash && (!t.revoked ==> !s.revoked) {
      var j :| 0 <= j < |ts'| && ts'[j] == t;
      assert ts[j] in ts;
    }
  }

  /** So does a new row of another line. */
  lemma AppendHolds(ts: seq<Token>, t: Token, pc: Pc)
    requires Holds(ts, pc) && (Rotating(pc).Some? ==> t.root != Rotating(pc).value)
    ensures Holds(ts + [t], pc)
  {
  }

  lemma HeldLine(ts: seq<Token>, pc: Pc)
    requires Holds(ts, pc) && Rotating(pc).Some?
    ensures Rotating(pc).value < |ts|
  {
  }

  /** How one store call changes the token rows. */
  lemma StepRows(app: App, pc: Pc, env: Env)
    ensures var ts' := Step(app, pc, env).app.tokens;
      if pc.Issue? then
        exists t: Token :: ts' == app.tokens + [t] && t.user == pc.user && !t.revoked
                           && t.root == if pc.root.Some? then pc.root.value else |app.tokens|
      else if pc.RefreshRevoke? || pc.SelectRevoke? then ts' == RevokedAll(app.tokens, Digest(pc.token))
      else ts' == app.tokens
  {
    hide Transactions.DoCreateSignupUser, Transactions.DoReissueSignup, Transactions.Execute, Transactions.DoCreateUser,
      Transactions.DoVerifySignup, DemoUsers.DoSeed, Purge.Purged, Unexpired, Without, Counted, RevokedAll,
      CooldownActive, Find, HasId, WithoutFor, Latest, FindValid, FindInvite, SingleOrg;
    if pc.Issue? {
      var t := Token(pc.user, pc.org, Digest(env.secret), env.now + REFRESH_TTL, false,
                     if pc.root.Some? then pc.root.value else |app.tokens|);
      assert Step(app, pc, env).app.tokens == app.tokens + [t];
    }
  }

  /** The handler's own next assertion. */
  lemma StepHolds(app: App, pc: Pc, env: Env)
    requires Lined(app.tokens) && Holds(app.tokens, pc)
    ensures var next := Step(app, pc, env);
      Lined(next.app.tokens) && (next.Go? ==> Holds(next.app.tokens, next.pc))
  {
    hide Lined, Belongs, Confined, Vacant;
    StepRows(app, pc, env);
    if pc.Issue? {
      IssueLined(app, pc, env);
    } else if pc.RefreshRevoke? || pc.SelectRevoke? {
      RevokeEmpties(app.tokens, Rotating(pc).value, pc.user, Digest(pc.token));
    } else if pc.RefreshFind? || pc.SelectFind? {
      var found := FindValid(app.tokens, Digest(pc.token), env.now, env.choice);
      if found.Some? { FoundConfined(app.tokens, found.value); }
    } else {
      OtherHolds(app, pc, env);
    }
  }

  lemma IssueLined(app: App, pc: Pc, env: Env)
    requires pc.Issue? && Lined(app.tokens) && Holds(app.tokens, pc)
    ensures Step(app, pc, env).Halt? && Lined(Step(app, pc, env).app.tokens)
  {
    hide Descent, OneLive, Vacant;
    IssueKeeps(app.tokens, Token(pc.user, pc.org, Digest(env.secret), env.now + REFRESH_TTL, false,
                                 if pc.root.Some? then pc.root.value else |app.tokens|));
  }

  lemma OtherHolds(app: App, pc: Pc, env: Env)
    requires !pc.Issue? && !pc.RefreshRevoke? && !pc.SelectRevoke? && !pc.RefreshFind? && !pc.SelectFind?
    requires Holds(app.tokens, pc)
    ensures var next := Step(app, pc, env);
      next.app.tokens == app.tokens && (next.Go? ==> Holds(app.tokens, next.pc))
  {
    hide Transactions.DoCreateSignupUser, Transactions.DoReissueSignup, Transactions.Execute, Transactions.DoCreateUser,
      Transactions.DoVerifySignup, DemoUsers.DoSeed, Purge.Purged, Unexpired, Without, Counted,
      CooldownActive, Find, HasId, WithoutFor, Latest, FindInvite, SingleOrg, Belongs, Confined, Vacant;
  }

  ghost predicate Steady(sys: Sys) {
    Lined(sys.app.tokens) && forall t <- sys.threads :: Holds(sys.app.tokens, sys.threads[t])
  }

  lemma OthersHold(sys: Sys, t: nat, env: Env, r: nat)
    requires Steady(sys) && Exclusive(sys.threads) && t in sys.threads && r in sys.threads && r != t
    ensures Holds(Step(sys.app, sys.threads[t], env).app.tokens, sys.threads[r])
  {
    hide Holds, Lined, Step, RevokedAll;
    var pc, other := sys.threads[t], sys.threads[r];
    StepRows(sys.app, pc, env);
    if Rotating(other).Some? { HeldLine(sys.app.tokens, other); }
    if pc.Issue? {
      var row: Token :| Step(sys.app, pc, env).app.tokens == sys.app.tokens + [row]
                        && row.root == if pc.root.Some? then pc.root.value else |sys.app.tokens|;
      assert Rotating(other).Some? ==> Rotating(other) != Rotating(pc);
      AppendHolds(sys.app.tokens, row, other);
    } else if pc.RefreshRevoke? || pc.SelectRevoke? {
      RevokeHolds(sys.app.tokens, Digest(pc.token), other);
    }
  }

  lemma MoveSteady(sys: Sys, move: Move, env: Env)
    requires Steady(sys) && Exclusive(sys.threads)
    ensures Steady(Moved(sys, move, env))
  {
    hide Holds, Lined, Step, Start, Exclusive;
    match move
    case Arrive(t, call) =>
      if t !in sys.threads { StartHolds(sys.app, call, env); }
    case Run(t) =>
      if t in sys.threads {
        StepHolds(sys.app, sys.threads[t], env);
        forall r | r in sys.threads && r != t
          ensures Holds(Step(sys.app, sys.threads[t], env).app.tokens, sys.threads[r])
        {
          OthersHold(sys, t, env, r);
        }
      }
  }

  lemma StartHolds(app: App, call: Call, env: Env)
    ensures var next := Start(app, call, env);
      next.app == app && (next.Go? ==> Holds(app.tokens, next.pc))
  {
    hide Text.Trim, Text.IsEmail, Text.IsE164, Text.NormalizeEmail, LoginContact;
  }

  /** Over every interleaving in which no two requests rotate the same line at once: at most one unrevoked token
      descends from a log-in, for the account that logged in. */
  lemma {:induction false} ExclusiveRotation(app: App, moves: seq<(Move, Env)>)
    requires Descent(app.tokens) && OneLive(app.tokens)
    requires forall n | 0 <= n < |moves| :: Exclusive(MovedAll(Sys(app, map[], []), moves[..n]).threads)
    ensures Steady(MovedAll(Sys(app, map[], []), moves))
    decreases |moves|
  {
    hide Moved, Exclusive, Holds;
    if moves != [] {
      var n := |moves| - 1;
      forall m | 0 <= m < n ensures Exclusive(MovedAll(Sys(app, map[], []), moves[..n][..m]).threads) {
        assert moves[..n][..m] == moves[..m];
      }
      ExclusiveRotation(app, moves[..n]);
      MoveSteady(MovedAll(Sys(app, map[], []), moves[..n]), moves[n].0, moves[n].1);
    }
  }

  // ---- overlapping rotations ---------------------------------------------------------------

  /** The store calls a rotating handler has left before it issues. */
  function ToGo(pc: Pc): nat {
    match pc
    case RefreshRevoke(_, _, _, _) => 2
    case RefreshOrg(_, _, _) => 1
    case SelectRevoke(_, _, _, _) => 1
    case _ => 0
  }

  /** A rotating handler keeps its line until it issues, and then it is done. */
  lemma RotationStep(app: App, pc: Pc, env: Env)
    requires Rotating(pc).Some?
    ensures var next := Step(app, pc, env);
      && (next.Halt? <==> pc.Issue?)
      && (next.Go? ==> Rotating(next.pc) == Rotating(pc) && ToGo(next.pc) < ToGo(pc))
  {
    hide RevokedAll;
  }

  lemma MovedRun(sys: Sys, t: nat, env: Env)
    requires t in sys.threads
    ensures Moved(sys, Run(t), env) == Settle(sys, t, Step(sys.app, sys.threads[t], env))
  {
    hide Step;
  }

  lemma OneMove(sys: Sys, move: Move, env: Env)
    ensures MovedAll(sys, [(move, env)]) == Moved(sys, move, env)
  {
    hide Moved;
    assert [(move, env)][..0] == [];
    assert MovedAll(sys, []) == sys;
  }

  /** All moves are store calls of one handler. */
  predicate RunsOnly(moves: seq<(Move, Env)>, t: nat, env: Env) {
    forall m <- moves :: m == (Run(t), env)
  }

  /** A rotating handler can be run up to its issuing, with the other handlers standing still. */
  lemma {:induction false} RunToIssue(sys: Sys, t: nat, env: Env) returns (moves: seq<(Move, Env)>)
    requires t in sys.threads && Rotating(sys.threads[t]).Some?
    ensures RunsOnly(moves, t, env)
    ensures var sys' := MovedAll(sys, moves);
      && sys'.threads.Keys == sys.threads.Keys && (forall r <- sys.threads | r != t :: sys'.threads[r] == sys.threads[r])
      && sys'.threads[t].Issue? && Rotating(sys'.threads[t]) == Rotating(sys.threads[t])
    decreases ToGo(sys.threads[t])
  {
    hide Step, Moved, ToGo;
    var pc := sys.threads[t];
    RotationStep(sys.app, pc, env);
    if pc.Issue? {
      moves := [];
    } else {
      MovedRun(sys, t, env);
      var sys1 := Moved(sys, Run(t), env);
      var rest := RunToIssue(sys1, t, env);
      OneMove(sys, Run(t), env);
      MovedThen(sys, [(Run(t), env)], rest);
      moves := [(Run(t), env)] + rest;
    }
  }

  function IssuedRow(pc: Pc, env: Env): Token
    requires pc.Issue? && pc.root.Some?
  {
    Token(pc.user, pc.org, Digest(env.secret), env.now + REFRESH_TTL, false, pc.root.value)
  }

  lemma IssueRun(sys: Sys, t: nat, env: Env)
    requires t in sys.threads && sys.threads[t].Issue? && sys.threads[t].root.Some?
    ensures var sys' := MovedAll(sys, [(Run(t), env)]);
      && sys'.app.tokens == sys.app.tokens + [IssuedRow(sys.threads[t], env)]
      && sys'.threads == sys.threads - {t}
  {
    OneMove(sys, Run(t), env);
    hide MovedAll;
    MovedRun(sys, t, env);
  }

  /** Two rows of the line are live, with these hashes. */
  ghost predicate Forked(ts: seq<Token>, line: nat, a: Digest, b: Digest) {
    exists i, j :: 0 <= i < j < |ts| && !ts[i].revoked && !ts[j].revoked && ts[i].root == line && ts[j].root == line
                   && ts[i].hash == a && ts[j].hash == b
  }

  lemma ForkedNotOne(ts: seq<Token>, line: nat, a: Digest, b: Digest)
    requires Forked(ts, line, a, b)
    ensures !OneLive(ts)
  {
  }

  /** Whenever two handlers rotate the same line, be they refreshes or organization switches, with or without an
      organization and with any environments, running just those two leaves two live rows in the line. */
  lemma OverlappingRotations(sys: Sys, s: nat, t: nat, e1: Env, e2: Env) returns (moves: seq<(Move, Env)>)
    requires s in sys.threads && t in sys.threads && s != t
    requires Rotating(sys.threads[s]).Some? && Rotating(sys.threads[s]) == Rotating(sys.threads[t])
    ensures forall m <- moves :: m == (Run(s), e1) || m == (Run(t), e2)
    ensures Forked(MovedAll(sys, moves).app.tokens, Rotating(sys.threads[s]).value, Digest(e1.secret), Digest(e2.secret))
  {
    hide Moved, MovedAll, RunsOnly;
    var first := RunToIssue(sys, s, e1);
    var sys1 := MovedAll(sys, first);
    var second := RunToIssue(sys1, t, e2);
    var sys2 := MovedAll(sys1, second);
    IssueRun(sys2, s, e1);
    var sys3 := MovedAll(sys2, [(Run(s), e1)]);
    IssueRun(sys3, t, e2);
    var sys4 := MovedAll(sys3, [(Run(t), e2)]);
    MovedThen(sys, first, second);
    MovedThen(sys, first + second, [(Run(s), e1)]);
    MovedThen(sys, first + second + [(Run(s), e1)], [(Run(t), e2)]);
    moves := first + second + [(Run(s), e1)] + [(Run(t), e2)];
    RunsTwo(first, second, s, t, e1, e2);
    var n := |sys2.app.tokens|;
    assert sys4.app.tokens[n] == IssuedRow(sys2.threads[s], e1) && sys4.app.tokens[n + 1] == IssuedRow(sys3.threads[t], e2);
  }

  lemma RunsTwo(first: seq<(Move, Env)>, second: seq<(Move, Env)>, s: nat, t: nat, e1: Env, e2: Env)
    requires RunsOnly(first, s, e1) && RunsOnly(second, t, e2)
    ensures forall m <- first + second + [(Run(s), e1)] + [(Run(t), e2)] :: m == (Run(s), e1) || m == (Run(t), e2)
  {
  }

  // ---- the exact condition -----------------------------------------------------------------

  /** Moves of handlers that are rotating already. */
  ghost predicate OnlyRotating(sys: Sys, moves: seq<(Move, Env)>) {
    forall m <- moves :: m.0.Run? && m.0.thread in sys.threads && Rotating(sys.threads[m.0.thread]).Some?
  }

  /** However the rotations under way are finished, every log-in keeps at most one live row. */
  ghost predicate RotationsSafe(sys: Sys) {
    forall moves | OnlyRotating(sys, moves) :: OneLive(MovedAll(sys, moves).app.tokens)
  }

  /** Handlers still there rotate the line they rotated. */
  ghost predicate SameLines(threads: map<nat, Pc>, threads': map<nat, Pc>) {
    forall t <- threads' :: t in threads && Rotating(threads'[t]) == Rotating(threads[t])
  }

  lemma {:induction false} RotationsKeep(sys: Sys, moves: seq<(Move, Env)>)
    requires Steady(sys) && Exclusive(sys.threads) && OnlyRotating(sys, moves)
    ensures var sys' := MovedAll(sys, moves);
      Steady(sys') && Exclusive(sys'.threads) && SameLines(sys.threads, sys'.threads)
    decreases |moves|
  {
    hide Moved, Steady;
    if moves != [] {
      var n := |moves| - 1;
      assert moves[n] in moves && forall m <- moves[..n] :: m in moves;
      RotationsKeep(sys, moves[..n]);
      var mid, t := MovedAll(sys, moves[..n]), moves[n].0.thread;
      MoveSteady(mid, moves[n].0, moves[n].1);
      RunKeepsLines(mid, t, moves[n].1);
    }
  }

  lemma RunKeepsLines(sys: Sys, t: nat, env: Env)
    requires t in sys.threads ==> Rotating(sys.threads[t]).Some?
    ensures SameLines(sys.threads, Moved(sys, Run(t), env).threads)
  {
    hide Step, Rotating;
    if t in sys.threads {
      RotationStep(sys.app, sys.threads[t], env);
    }
  }

  /** From any state the handlers can be in: the rotations under way are safe exactly when no two of them are of
      the same line. */
  lemma RotationsSafeExactly(sys: Sys)
    requires Steady(sys)
    ensures RotationsSafe(sys) <==> Exclusive(sys.threads)
  {
    hide MovedAll, Steady, OneLive;
    if Exclusive(sys.threads) {
      forall moves | OnlyRotating(sys, moves) ensures OneLive(MovedAll(sys, moves).app.tokens) {
        RotationsKeep(sys, moves);
        SteadyOneLive(MovedAll(sys, moves));
      }
    } else {
      SharedLineUnsafe(sys);
    }
  }

  lemma SteadyOneLive(sys: Sys)
    requires Steady(sys)
    ensures OneLive(sys.app.tokens)
  {
  }

  lemma SharedLineUnsafe(sys: Sys)
    requires !Exclusive(sys.threads)
    ensures !RotationsSafe(sys)
  {
    hide MovedAll, OneLive, Rotating;
    var s, t :| s in sys.threads && t in sys.threads && s != t && Rotating(sys.threads[s]).Some?
                && Rotating(sys.threads[s]) == Rotating(sys.threads[t]);
    var e1: Env := *;
    var e2 := e1.(secret := e1.secret + "'");
    var moves := OverlappingRotations(sys, s, t, e1, e2);
    ForkedNotOne(MovedAll(sys, moves).app.tokens, Rotating(sys.threads[s]).value, Digest(e1.secret), Digest(e2.secret));
    assert OnlyRotating(sys, moves);
  }

  /** Over a whole interleaving: the rotations under way are safe at every point of it exactly when at no point two
      requests rotate the same line. */
  lemma SafeThroughoutExactly(app: App, moves: seq<(Move, Env)>)
    requires Descent(app.tokens) && OneLive(app.tokens)
    ensures (forall n | 0 <= n <= |moves| :: RotationsSafe(MovedAll(Sys(app, map[], []), moves[..n])))
       <==> (forall n | 0 <= n <= |moves| :: Exclusive(MovedAll(Sys(app, map[], []), moves[..n]).threads))
  {
    hide MovedAll, RotationsSafe, Exclusive, Steady, Descent, OneLive;
    var start := Sys(app, map[], []);
    if forall n | 0 <= n <= |moves| :: Exclusive(MovedAll(start, moves[..n]).threads) {
      forall n | 0 <= n <= |moves| ensures RotationsSafe(MovedAll(start, moves[..n])) {
        forall m | 0 <= m < n ensures Exclusive(MovedAll(start, moves[..n][..m]).threads) {
          assert moves[..n][..m] == moves[..m];
        }
        ExclusiveRotation(app, moves[..n]);
        RotationsSafeExactly(MovedAll(start, moves[..n]));
      }
    } else {
      var n :| 0 <= n <= |moves| && !Exclusive(MovedAll(start, moves[..n]).threads);
      SharedLineUnsafe(MovedAll(start, moves[..n]));
    }
  }

  // ---- the input ---------------------------------------------------------------------------

  /** Two refreshes of one token arrive and both find it. */
  function BothFind(token: string, e1: Env, e2: Env, s: nat, t: nat): seq<(Move, Env)> {
    [(Arrive(s, Refresh(token)), e1), (Arrive(t, Refresh(token)), e2), (Run(s), e1), (Run(t), e2)]
  }

  function Found(token: string, row: Token): Pc { RefreshRevoke(token, row.user, row.org, row.root) }

  lemma Arrives(sys: Sys, t: nat, token: string, env: Env)
    requires t !in sys.threads
    ensures Moved(sys, Arrive(t, Refresh(token)), env) == sys.(threads := sys.threads[t := RefreshFind(token)])
  {
  }

  lemma Finds(sys: Sys, t: nat, token: string, env: Env)
    requires t in sys.threads && sys.threads[t] == RefreshFind(token)
    requires env.choice < |sys.app.tokens| && IsLive(sys.app.tokens[env.choice], Digest(token), env.now)
    ensures Moved(sys, Run(t), env) == sys.(threads := sys.threads[t := Found(token, sys.app.tokens[env.choice])])
  {
  }

  lemma FourMoves(sys: Sys, m: seq<(Move, Env)>)
    requires |m| == 4
    ensures MovedAll(sys, m)
         == Moved(Moved(Moved(Moved(sys, m[0].0, m[0].1), m[1].0, m[1].1), m[2].0, m[2].1), m[3].0, m[3].1)
  {
    hide Moved;
    assert m[..4] == m && m[..4][..3] == m[..3] && m[..3][..2] == m[..2] && m[..2][..1] == m[..1] && m[..1][..0] == [];
    assert MovedAll(sys, []) == sys;
    assert MovedAll(sys, m[..1]) == Moved(sys, m[0].0, m[0].1);
    assert MovedAll(sys, m[..2]) == Moved(MovedAll(sys, m[..1]), m[1].0, m[1].1);
    assert MovedAll(sys, m[..3]) == Moved(MovedAll(sys, m[..2]), m[2].0, m[2].1);
  }

  /** From any state with a live token, of an organization or not, and two idle threads: two refreshes that both find
      the token before either revokes it leave two live rows in its line, with the two new and different tokens. */
  lemma OverlappingRefreshes(sys: Sys, token: string, e1: Env, e2: Env, s: nat, t: nat) returns (moves: seq<(Move, Env)>)
    requires s != t && s !in sys.threads && t !in sys.threads && e1.secret != e2.secret && e1.choice == e2.choice
    requires e1.choice < |sys.app.tokens|
    requires IsLive(sys.app.tokens[e1.choice], Digest(token), e1.now) && IsLive(sys.app.tokens[e1.choice], Digest(token), e2.now)
    ensures var ts := MovedAll(sys, moves).app.tokens;
      !OneLive(ts) && Forked(ts, sys.app.tokens[e1.choice].root, Digest(e1.secret), Digest(e2.secret))
  {
    var start := BothFind(token, e1, e2, s, t);
    FourMoves(sys, start);
    hide Moved, MovedAll, OneLive, Forked, IsLive;
    var s1 := Moved(sys, start[0].0, e1);
    Arrives(sys, s, token, e1);
    var s2 := Moved(s1, start[1].0, e2);
    Arrives(s1, t, token, e2);
    var s3 := Moved(s2, start[2].0, e1);
    Finds(s2, s, token, e1);
    Finds(s3, t, token, e2);
    var found := MovedAll(sys, start);
    var rest := OverlappingRotations(found, s, t, e1, e2);
    MovedThen(sys, start, rest);
    moves := start + rest;
    ForkedNotOne(MovedAll(sys, moves).app.tokens, sys.app.tokens[e1.choice].root, Digest(e1.secret), Digest(e2.secret));
  }
}
