/** An invitation is used at most once: it leaves pending through exactly one transaction, whatever
    acceptances, sign-ups, revocations and re-invitations run at the same time. */
module Invitations {
  import opened Tables
  import opened Transactions
  import opened Interleaving
  import Effects

  /** The transactions that try to use or revoke a given invitation. */
  predicate Claims(req: Request, i: InviteId) {
    match req
    case AcceptInvite(id, _, _, _) => id == i
    case RevokeInvite(_, id) => id == i
    case CreateSignupUser(_, _, _, accepting, _) => accepting.Some? && accepting.value.0 == i
    case ReissueSignup(_, _, _, accepting, _) => accepting.Some? && accepting.value.0 == i
    case _ => false
  }

  /** A new invitation of the same organization and folded address. */
  predicate Supersedes(req: Request, row: Invite) {
    req.CreateInvite? && req.draft.org == row.org && Lower(req.draft.email) == Lower(row.email)
  }

  predicate IsPending(db: Db, i: InviteId) {
    i in db.invites && db.invites[i].status == Pending
  }

  predicate IsSettled(db: Db, i: InviteId) {
    i in db.invites && db.invites[i].status != Pending
  }

  /** A row either stays as it is or goes from pending to accepted or revoked, keeping its address. */
  predicate Moves(a: Invite, b: Invite) {
    a == b
    || (a.status == Pending && b.status != Pending
        && a.(status := b.status, acceptedAt := b.acceptedAt) == b)
  }

  lemma AdmitMoves(db: Db, user: UserId, id: InviteId, org: OrgId, at: Time, i: InviteId)
    requires i in db.invites
    ensures var r := Admit(db, user, id, org, at);
      && i in r.db.invites && Moves(db.invites[i], r.db.invites[i])
      && (r.db.invites[i] != db.invites[i] ==> r.outcome == Done && id == i)
      && (r.outcome == Done && id == i ==> IsPending(db, i) && r.db.invites[i].status == Accepted)
  {
  }

  lemma RevokeOthersMoves(db: Db, id: InviteId, d: Draft, i: InviteId)
    requires i in db.invites
    ensures var r := DoCreateInvite(db, id, d);
      && i in r.db.invites && Moves(db.invites[i], r.db.invites[i])
      && (r.db.invites[i] != db.invites[i] ==> r.outcome == Done && Supersedes(CreateInvite(id, d), db.invites[i]))
      && (r.outcome == Done && IsPending(db, i) && Supersedes(CreateInvite(id, d), db.invites[i]) ==>
            r.db.invites[i].status == Revoked)
  {
    hide Lower, DoCreateInvite;
    Effects.CreateInviteExactly(db, id, d);
    assert Execute(db, CreateInvite(id, d)) == DoCreateInvite(db, id, d);
  }

  lemma SignupMoves(db: Db, user: UserId, signup: Signup, newOrg: Option<(OrgId, string)>,
                    accepting: Option<(InviteId, OrgId)>, at: Time, i: InviteId)
    requires i in db.invites
    ensures var r := DoCreateSignupUser(db, user, signup, newOrg, accepting, at);
      var mine := accepting.Some? && accepting.value.0 == i;
      && i in r.db.invites && Moves(db.invites[i], r.db.invites[i])
      && (r.db.invites[i] != db.invites[i] ==> r.outcome == Done && mine)
      && (r.outcome == Done && mine ==> IsPending(db, i) && r.db.invites[i].status == Accepted)
  {
    hide Admit;
    if ByEmail(signup.email) !in db.index && user !in db.users && accepting.Some? {
      var first := InsertAccount(db, user, signup, at);
      AdmitMoves(first.db, user, accepting.value.0, accepting.value.1, at, i);
    }
  }

  lemma ReissueMoves(db: Db, email: string, password: Digest, name: string,
                     accepting: Option<(InviteId, OrgId)>, at: Time, i: InviteId)
    requires i in db.invites
    ensures var r := DoReissueSignup(db, email, password, name, accepting, at);
      var mine := accepting.Some? && accepting.value.0 == i;
      && i in r.db.invites && Moves(db.invites[i], r.db.invites[i])
      && (r.db.invites[i] != db.invites[i] ==> r.outcome == Done && mine)
      && (r.outcome == Done && mine ==> IsPending(db, i) && r.db.invites[i].status == Accepted)
  {
    hide Admit;
    if accepting.Some? && ByEmail(email) in db.index && db.index[ByEmail(email)] in db.users {
      var user := db.index[ByEmail(email)];
      var row := db.users[user].(password := Some(password), displayName := name);
      var v := db.(users := db.users[user := row.(status := UserActive, emailVerified := true)]);
      AdmitMoves(v, user, accepting.value.0, accepting.value.1, at, i);
    }
  }

  /** What one transaction may do to one invitation. */
  lemma ExecuteMoves(db: Db, req: Request, i: InviteId)
    requires i in db.invites
    ensures var r := Execute(db, req);
      && i in r.db.invites && Moves(db.invites[i], r.db.invites[i])
      && (r.db.invites[i] != db.invites[i] ==> r.outcome == Done && (Claims(req, i) || Supersedes(req, db.invites[i])))
      && (r.outcome == Done && Claims(req, i) ==>
            IsPending(db, i) && r.db.invites[i].status == if req.RevokeInvite? then Revoked else Accepted)
      && (r.outcome == Done && IsPending(db, i) && Supersedes(req, db.invites[i]) ==> r.db.invites[i].status == Revoked)
  {
    hide Lower, Admit, DoCreateInvite, DoCreateSignupUser, DoReissueSignup;
    match req
    case AcceptInvite(id, o, u, at) => AdmitMoves(db, u, id, o, at, i);
    case CreateInvite(id, d) => RevokeOthersMoves(db, id, d, i);
    case CreateSignupUser(u, p, newOrg, accepting, at) => SignupMoves(db, u, p, newOrg, accepting, at, i);
    case ReissueSignup(e, p, n, accepting, at) => ReissueMoves(db, e, p, n, accepting, at, i);
    case _ =>
  }

  /** The transactions up to position `k`. */
  function At(db: Db, history: seq<Finished>, k: nat): Db
    requires k <= |history|
  {
    Serially(db, history[..k]).db
  }

  lemma AtNext(db: Db, history: seq<Finished>, k: nat)
    requires k < |history|
    ensures At(db, history, k + 1) == Execute(At(db, history, k), history[k].req).db
  {
    hide Execute;
    assert history[..k + 1][..k] == history[..k];
  }

  /** Once settled, an invitation row never changes again. */
  lemma {:induction false} SettledForGood(db: Db, history: seq<Finished>, j: nat, k: nat, i: InviteId)
    requires j <= k <= |history| && IsSettled(At(db, history, j), i)
    ensures IsSettled(At(db, history, k), i)
    ensures At(db, history, k).invites[i] == At(db, history, j).invites[i]
  {
    hide At, Execute;
    if j < k {
      SettledForGood(db, history, j, k - 1, i);
      AtNext(db, history, k - 1);
      ExecuteMoves(At(db, history, k - 1), history[k - 1].req, i);
    }
  }

  /** A claim that succeeds found the invitation stored and pending, and settles it. */
  lemma ClaimSettles(db: Db, req: Request, i: InviteId)
    requires Claims(req, i) && Execute(db, req).outcome == Done
    ensures IsPending(db, i) && IsSettled(Execute(db, req).db, i)
  {
    ClaimFinds(db, req, i);
    hide Execute, Claims;
    ExecuteMoves(db, req, i);
  }

  lemma ClaimFinds(db: Db, req: Request, i: InviteId)
    requires Claims(req, i) && Execute(db, req).outcome == Done
    ensures i in db.invites
  {
    hide Activated, Consumed, InsertMember;
  }

  /** A new invitation is born pending. */
  lemma BornPending(db: Db, req: Request, i: InviteId)
    requires i !in db.invites && i in Execute(db, req).db.invites
    ensures IsPending(Execute(db, req).db, i)
  {
    hide Activated, InsertMember, Lower, LeavesNoActive;
  }

  /** The first transaction after which the invitation is settled. */
  lemma {:induction false} FirstSettles(db: Db, history: seq<Finished>, n: nat, i: InviteId) returns (k: nat)
    requires n <= |history| && !IsSettled(db, i) && IsSettled(At(db, history, n), i)
    ensures k < n && IsPending(At(db, history, k), i) && IsSettled(At(db, history, k + 1), i)
  {
    hide Execute;
    assert n > 0 by { assert history[..0] == []; }
    k := n - 1;
    AtNext(db, history, k);
    if IsSettled(At(db, history, k), i) {
      k := FirstSettles(db, history, k, i);
    } else if i !in At(db, history, k).invites {
      BornPending(At(db, history, k), history[k].req, i);
    }
  }

  /** Transaction `k` settled the invitation for good and every other claim on it failed. */
  ghost predicate Wins(db: Db, history: seq<Finished>, k: nat, i: InviteId) {
    && k < |history| && history[k].outcome == Done
    && IsPending(At(db, history, k), i)
    && (Claims(history[k].req, i) || Supersedes(history[k].req, At(db, history, k).invites[i]))
    && IsSettled(At(db, history, k + 1), i)
    && (forall n: nat | k < n <= |history| ::
          IsSettled(At(db, history, n), i) && At(db, history, n).invites[i] == At(db, history, k + 1).invites[i])
    && (forall j: nat | j < |history| && j != k && Claims(history[j].req, i) :: history[j].outcome != Done)
  }

  /** Exactly one winner, in every interleaving: an invitation that ends settled, stored from the start or
      created on the way, was settled by one transaction, which succeeded; every other attempt on it,
      earlier or later, was told it failed. */
  lemma ExactlyOneWinner(db: Db, labels: seq<Label>, s: Sys, i: InviteId)
    requires WellFormed(db) && Reach(Fresh(db), labels) == Some(s) && !IsSettled(db, i) && IsSettled(s.db, i)
    ensures exists k: nat :: Wins(db, s.history, k, i)
  {
    hide WellFormed, Reach, Inv, Execute;
    Serializable(db, labels, s);
    assert s.history[..|s.history|] == s.history;
    OneWinner(db, s.history, i);
  }

  lemma OneWinner(db: Db, history: seq<Finished>, i: InviteId)
    requires Truthful(db, history) && !IsSettled(db, i) && IsSettled(At(db, history, |history|), i)
    ensures exists k: nat :: Wins(db, history, k, i)
  {
    var n := |history|;
    hide Execute, At, Claims, Supersedes, Truthful, Serially;
    var k := FirstSettles(db, history, n, i);
    WinnerSucceeds(db, history, k, i);
    forall m: nat | k < m <= n
      ensures IsSettled(At(db, history, m), i) && At(db, history, m).invites[i] == At(db, history, k + 1).invites[i]
    {
      SettledForGood(db, history, k + 1, m, i);
    }
    forall j: nat | j < n && j != k && Claims(history[j].req, i) ensures history[j].outcome != Done {
      LosersLose(db, history, k, j, i);
    }
    assert Wins(db, history, k, i);
  }

  lemma WinnerSucceeds(db: Db, history: seq<Finished>, k: nat, i: InviteId)
    requires Truthful(db, history) && k < |history|
    requires IsPending(At(db, history, k), i) && IsSettled(At(db, history, k + 1), i)
    ensures history[k].outcome == Done
    ensures Claims(history[k].req, i) || Supersedes(history[k].req, At(db, history, k).invites[i])
  {
    hide Execute, Claims, Lower;
    AtNext(db, history, k);
    ExecuteMoves(At(db, history, k), history[k].req, i);
  }

  lemma LosersLose(db: Db, history: seq<Finished>, k: nat, j: nat, i: InviteId)
    requires Truthful(db, history) && k < |history| && j < |history| && j != k && Claims(history[j].req, i)
    requires IsPending(At(db, history, k), i) && IsSettled(At(db, history, k + 1), i)
    ensures history[j].outcome != Done
  {
    hide Execute, Claims;
    AtNext(db, history, j);
    if history[j].outcome == Done {
      ClaimSettles(At(db, history, j), history[j].req, i);
      if j < k { SettledForGood(db, history, j + 1, k, i); } else { SettledForGood(db, history, k + 1, j, i); }
      assert false;
    }
  }

  /** In every interleaving, of all acceptances, sign-ups and revocations of one invitation at most one
      succeeds. */
  lemma SingleUse(db: Db, labels: seq<Label>, s: Sys, i: InviteId, j: nat, k: nat)
    requires WellFormed(db) && Reach(Fresh(db), labels) == Some(s)
    requires j < k < |s.history| && Claims(s.history[j].req, i) && Claims(s.history[k].req, i)
    ensures s.history[j].outcome != Done || s.history[k].outcome != Done
  {
    hide WellFormed, Reach, Inv, Execute, Claims;
    Serializable(db, labels, s);
    if s.history[j].outcome == Done {
      AtNext(db, s.history, j);
      ClaimSettles(At(db, s.history, j), s.history[j].req, i);
      LosersLose(db, s.history, j, k, i);
    }
  }

  /** In every interleaving, an organization has at most one pending invitation per folded address. */
  lemma OnePendingAlways(db: Db, labels: seq<Label>, s: Sys)
    requires WellFormed(db) && Reach(Fresh(db), labels) == Some(s)
    ensures OnePending(s.db)
  {
    hide Reach, UpToDate, Apart;
    Serializable(db, labels, s);
  }
}
