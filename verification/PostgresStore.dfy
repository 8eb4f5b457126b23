/** The store object. Each method is one transaction: it works on its own copy of the tables, and either
    commits the copy together with the events or returns without a trace. */
module PostgresStore {
  import opened Tables
  import opened Transactions
  import opened Organizations
  import opened Purge
  import opened Sessions
  import Serial
  import Constraints
  import Statements

  /** The new tables, the answer and the appended events are those of the transaction. */
  ghost predicate Did(before: Db, log: seq<Event>, req: Request, after: Db, log': seq<Event>, outcome: Outcome) {
    var r := Execute(before, req);
    after == r.db && outcome == r.outcome && log' == log + r.events
  }

  lemma Kept(before: Db, req: Request)
    requires WellFormed(before)
    ensures WellFormed(Execute(before, req).db) && (Staffed(before) ==> Staffed(Execute(before, req).db))
  {
    hide WellFormed, Staffed, Execute;
    Constraints.ExecuteKeepsWellFormed(before, req);
    if Staffed(before) { ExecuteKeepsStaffed(before, req); }
  }

  /** A transaction that does not succeed leaves the tables as they were. */
  lemma RefusedKeeps(db: Db, req: Request)
    ensures Execute(db, req).outcome != Done ==> Execute(db, req).db == db
  {
    hide Activated, Consumed, InsertMember, RevokedFor, TokenTaken, LeavesNoActive;
  }

  function ActiveAmong(members: Members, keys: set<(OrgId, UserId)>, org: OrgId): set<(OrgId, UserId)> {
    set k | k in keys && k in members && k.0 == org && members[k] == Active
  }

  lemma OneFewer(members: Members, keys: set<(OrgId, UserId)>, org: OrgId, k: (OrgId, UserId))
    requires k in keys && k in members
    ensures |ActiveAmong(members, keys, org)|
         == |ActiveAmong(members, keys - {k}, org)| + if k.0 == org && members[k] == Active then 1 else 0
  {
    var rest := ActiveAmong(members, keys - {k}, org);
    assert ActiveAmong(members, keys, org) == if k.0 == org && members[k] == Active then rest + {k} else rest;
  }

  class Store {
    var tables: Db
    var outbox: seq<Event>
    var challenges: seq<Challenge>
    var tokens: seq<Token>

    ghost predicate Valid() reads this { WellFormed(tables) }

    constructor ()
      ensures Valid() && tables == EMPTY_DB && outbox == [] && challenges == [] && tokens == []
    {
      tables, outbox, challenges, tokens := EMPTY_DB, [], [], [];
    }

    method CreateOrg(org: OrgId, name: string, creator: UserId) returns (outcome: Outcome)
      requires Valid()
      modifies this`tables, this`outbox
      ensures Valid() && (old(Staffed(tables)) ==> Staffed(tables))
      ensures Did(old(tables), old(outbox), Request.CreateOrg(org, name, creator), tables, outbox, outcome)
    {
      hide WellFormed, Staffed;
      var tx, log;
      tx, log, outcome := OwnOrg(tables, outbox, org, name, creator);
      if outcome == Done { tables, outbox := tx, log; }
      Kept(old(tables), Request.CreateOrg(org, name, creator));
    }

    /** An existing membership is left untouched and nothing is announced. */
    method AddMember(org: OrgId, user: UserId, status: MembershipStatus) returns (outcome: Outcome)
      requires Valid()
      modifies this`tables, this`outbox
      ensures Valid() && (old(Staffed(tables)) ==> Staffed(tables))
      ensures Did(old(tables), old(outbox), Request.AddMember(org, user, status), tables, outbox, outcome)
    {
      hide WellFormed, Staffed;
      if org !in tables.orgs {
        outcome := OrgNotFound;
      } else if (org, user) in tables.members {
        outcome := Done;
      } else if user !in tables.users {
        outcome := Violation;
      } else {
        var log := EmitEvents(outbox, [MembershipAdded(org, user, status)]);
        tables := tables.(members := tables.members[(org, user) := status]);
        outbox, outcome := log, Done;
      }
      Kept(old(tables), Request.AddMember(org, user, status));
    }

    method UpdateMemberStatus(org: OrgId, user: UserId, status: MembershipStatus) returns (outcome: Outcome)
      requires Valid()
      modifies this`tables, this`outbox
      ensures Valid() && (old(Staffed(tables)) ==> Staffed(tables))
      ensures Did(old(tables), old(outbox), Request.UpdateMemberStatus(org, user, status), tables, outbox, outcome)
    {
      hide WellFormed, Staffed;
      if org !in tables.orgs {
        outcome := OrgNotFound;
      } else if (org, user) !in tables.members {
        outcome := NotMember;
      } else {
        var current := tables.members[(org, user)];
        var refused := false;
        if status != Active && current == Active {
          var count := CountActive(org);
          refused := count <= 1;
        }
        if refused {
          outcome := LastActiveMember;
        } else {
          var log := outbox;
          if status == Suspended && current != Suspended {
            log := EmitEvents(log, [MembershipSuspended(org, user)]);
          }
          tables := tables.(members := tables.members[(org, user) := status]);
          outbox, outcome := log, Done;
        }
      }
      Kept(old(tables), Request.UpdateMemberStatus(org, user, status));
    }

    method RemoveMember(org: OrgId, user: UserId) returns (outcome: Outcome)
      requires Valid()
      modifies this`tables, this`outbox
      ensures Valid() && (old(Staffed(tables)) ==> Staffed(tables))
      ensures Did(old(tables), old(outbox), Request.RemoveMember(org, user), tables, outbox, outcome)
    {
      hide WellFormed, Staffed;
      if org !in tables.orgs {
        outcome := OrgNotFound;
      } else if (org, user) !in tables.members {
        outcome := NotMember;
      } else {
        var current := tables.members[(org, user)];
        var refused := false;
        if current == Active {
          var count := CountActive(org);
          refused := count <= 1;
        }
        if refused {
          outcome := LastActiveMember;
        } else {
          var log := EmitEvents(outbox, [MembershipRemoved(org, user, current)]);
          tables := tables.(members := tables.members - {(org, user)});
          outbox, outcome := log, Done;
        }
      }
      Kept(old(tables), Request.RemoveMember(org, user));
    }

    /** Counts the organization's active rows one by one. */
    method CountActive(org: OrgId) returns (count: nat)
      ensures count == |tables.ActiveMembers(org)|
    {
      assert ActiveAmong(tables.members, tables.members.Keys, org) == tables.ActiveMembers(org);
      var left := tables.members.Keys;
      count := 0;
      while left != {}
        invariant left <= tables.members.Keys
        invariant count + |ActiveAmong(tables.members, left, org)| == |tables.ActiveMembers(org)|
        decreases |left|
      {
        var k :| k in left;
        OneFewer(tables.members, left, org, k);
        if k.0 == org && tables.members[k] == Active { count := count + 1; }
        left := left - {k};
      }
    }

    method CreateInvite(id: InviteId, draft: Draft) returns (outcome: Outcome)
      requires Valid()
      modifies this`tables, this`outbox
      ensures Valid() && (old(Staffed(tables)) ==> Staffed(tables))
      ensures Did(old(tables), old(outbox), Request.CreateInvite(id, draft), tables, outbox, outcome)
    {
      hide WellFormed, Staffed;
      if draft.org !in tables.orgs {
        outcome := OrgNotFound;
      } else {
        var tx := tables.(invites := RevokedFor(tables, draft.org, draft.email));
        Serial.AfterRevoke(tables, draft.org, draft.email, draft.tokenHash);
        if id in tx.invites || TokenTaken(tx, draft.tokenHash) || draft.inviter !in tx.users {
          outcome := Violation;
        } else {
          tables, outcome := tx.(invites := tx.invites[id := draft.Row()]), Done;
        }
      }
      Kept(old(tables), Request.CreateInvite(id, draft));
    }

    /** The conditional update is the single-use gate; a suspended member is turned away before it. */
    method AcceptInvite(id: InviteId, org: OrgId, user: UserId, at: Time) returns (outcome: Outcome)
      requires Valid()
      modifies this`tables, this`outbox
      ensures Valid() && (old(Staffed(tables)) ==> Staffed(tables))
      ensures Did(old(tables), old(outbox), Request.AcceptInvite(id, org, user, at), tables, outbox, outcome)
    {
      hide WellFormed, Staffed;
      if org !in tables.orgs {
        outcome := OrgNotFound;
      } else if (org, user) in tables.members && tables.members[(org, user)] == Suspended {
        outcome := SuspendedMember;
      } else {
        var tx, log;
        tx, log, outcome := JoinThrough(tables, outbox, id, org, user, at);
        if outcome == Done { tables, outbox := tx, log; }
      }
      Kept(old(tables), Request.AcceptInvite(id, org, user, at));
    }

    method RevokeInvite(org: OrgId, id: InviteId) returns (outcome: Outcome)
      requires Valid()
      modifies this`tables, this`outbox
      ensures Valid() && (old(Staffed(tables)) ==> Staffed(tables))
      ensures Did(old(tables), old(outbox), Request.RevokeInvite(org, id), tables, outbox, outcome)
    {
      hide WellFormed, Staffed;
      if !tables.Pending(id, org) {
        outcome := InviteNotFound;
      } else {
        var row := tables.invites[id].(status := Revoked);
        tables, outcome := tables.(invites := tables.invites[id := row]), Done;
      }
      Kept(old(tables), Request.RevokeInvite(org, id));
    }

    /** The account, then the invitation it accepts, then the organization it owns: all or nothing. */
    method CreateSignupUser(user: UserId, signup: Signup, newOrg: Option<(OrgId, string)>,
                            accepting: Option<(InviteId, OrgId)>, at: Time) returns (outcome: Outcome)
      requires Valid()
      modifies this`tables, this`outbox
      ensures Valid() && (old(Staffed(tables)) ==> Staffed(tables))
      ensures Did(old(tables), old(outbox), Request.CreateSignupUser(user, signup, newOrg, accepting, at), tables, outbox, outcome)
    {
      hide WellFormed, Staffed, Admit, DoCreateOrg;
      if ByEmail(signup.email) in tables.index {
        outcome := Duplicate;
      } else if user in tables.users {
        outcome := Violation;
      } else {
        var tx := tables.(users := tables.users[user := signup.Row(at)],
                          index := tables.index[ByEmail(signup.email) := user]);
        var log := EmitEvents(outbox, [UserCreated(user)]);
        outcome := Done;
        if accepting.Some? {
          tx, log, outcome := LockAndJoin(tx, log, accepting.value.0, accepting.value.1, user, at);
        }
        if outcome == Done && newOrg.Some? {
          tx, log, outcome := OwnOrg(tx, log, newOrg.value.0, newOrg.value.1, user);
        }
        if outcome == Done { tables, outbox := tx, log; }
      }
      Kept(old(tables), Request.CreateSignupUser(user, signup, newOrg, accepting, at));
    }

    /** Replaces the credentials of an unverified sign-up; a challenge replaces those of its address, and an
        invitation verifies the account. All of it or nothing. */
    method ReissuePendingSignup(email: string, password: Digest, name: string, challenge: Option<Challenge>,
                                accepting: Option<(InviteId, OrgId)>, at: Time) returns (outcome: Outcome)
      requires Valid()
      modifies this`tables, this`outbox, this`challenges
      ensures Valid() && (old(Staffed(tables)) ==> Staffed(tables))
      ensures var clash := Statements.Reissuable(old(tables), email) && challenge.Some? && Clashes(old(challenges), challenge.value);
        && (clash ==> outcome == Violation && tables == old(tables) && outbox == old(outbox))
        && (!clash ==>
              Did(old(tables), old(outbox), Request.ReissueSignup(email, password, name, accepting, at), tables, outbox, outcome))
        && challenges == if outcome == Done && challenge.Some? then Rotated(old(challenges), challenge.value)
                         else old(challenges)
    {
      hide WellFormed, Staffed, Admit;
      outcome := NotPending;
      if ByEmail(email) in tables.index {
        var user := tables.index[ByEmail(email)];
        if user in tables.users && tables.users[user].Unverified() {
          var row := tables.users[user].(password := Some(password), displayName := name);
          var tx, log, rows := tables.(users := tables.users[user := row]), outbox, challenges;
          outcome := Done;
          if challenge.Some? {
            var c := challenge.value;
            rows := DeleteRows(rows, (r: Challenge) => !For(r, c.identifier, c.channel));
            if exists r :: r in rows && r.id == c.id { outcome := Violation; }
            rows := rows + [c.(attempts := 0)];
          }
          if outcome == Done && accepting.Some? {
            tx := tx.(users := tx.users[user := row.(status := UserActive, emailVerified := true)]);
            assert tx.users == tables.users[user := tx.users[user]];
            tx, log, outcome := LockAndJoin(tx, log, accepting.value.0, accepting.value.1, user, at);
          }
          if outcome == Done { tables, outbox, challenges := tx, log, rows; }
        }
      }
      Kept(old(tables), Request.ReissueSignup(email, password, name, accepting, at));
    }

    method VerifySignup(user: UserId, at: Time) returns (outcome: Outcome)
      requires Valid()
      modifies this`tables, this`outbox
      ensures Valid() && (old(Staffed(tables)) ==> Staffed(tables))
      ensures Did(old(tables), old(outbox), Request.VerifySignup(user, at), tables, outbox, outcome)
    {
      hide WellFormed, Staffed;
      if user !in tables.users || !tables.users[user].Unverified() {
        outcome := NotPending;
      } else {
        var row := tables.users[user].(status := UserActive, emailVerified := true);
        tables, outcome := tables.(users := tables.users[user := row]), Done;
      }
      Kept(old(tables), Request.VerifySignup(user, at));
    }

    /** The account of a contact, or a new active one. */
    method FindOrCreate(contact: Contact, id: UserId, at: Time) returns (user: UserId, outcome: Outcome)
      requires Valid()
      modifies this`tables, this`outbox
      ensures Valid() && (old(Staffed(tables)) ==> Staffed(tables))
      ensures outcome == Done ==> contact in tables.index && tables.index[contact] == user
      ensures contact in old(tables).index ==> outcome == Done && tables == old(tables) && outbox == old(outbox)
      ensures contact !in old(tables).index ==>
        Did(old(tables), old(outbox), Request.CreateUser(id, contact, at), tables, outbox, outcome)
    {
      hide WellFormed, Staffed;
      if contact in tables.index { return tables.index[contact], Done; }
      if id in tables.users { return id, Violation; }
      var log := EmitEvents(outbox, [UserCreated(id)]);
      tables := tables.(users := tables.users[id := NewAccount(contact, at)], index := tables.index[contact := id]);
      outbox := log;
      Kept(old(tables), Request.CreateUser(id, contact, at));
      return id, Done;
    }

    /** Two statements in one transaction, without an organization lock and without events. */
    method PurgeUnverifiedSignups(before: Time) returns (removed: nat)
      requires Valid()
      modifies this`tables
      ensures Valid() && Peopled(tables) && tables == Purged(old(tables), before)
      ensures removed == |old(tables).users.Keys - tables.users.Keys|
    {
      var gone := Abandoned(tables, before);
      var tx := WithoutUsers(tables, gone);
      removed := |gone|;
      PurgeKeepsWellFormed(tables, before);
      PurgeRemovesExactly(tables, before);
      assert tables.users.Keys - Purged(tables, before).users.Keys == gone;
      tables := WithoutEmptyOrgs(tx);
    }

    // ---- challenges ------------------------------------------------------------------------

    /** A new row; the primary key refuses an identifier that is taken. */
    method UpsertChallenge(c: Challenge) returns (ok: bool)
      modifies this`challenges
      ensures ok <==> !HasId(old(challenges), c.id)
      ensures challenges == if ok then old(challenges) + [c.(attempts := 0)] else old(challenges)
    {
      ok := !exists r :: r in challenges && r.id == c.id;
      if ok { challenges := challenges + [c.(attempts := 0)]; }
    }

    /** Any row with the newest creation time may come back. */
    method GetLatestChallenge(identifier: string, channel: string) returns (r: Option<nat>)
      ensures r.Some? ==> IsLatest(challenges, identifier, channel, r.value)
      ensures forall c: nat | r.None? || c == r.value :: Latest(challenges, identifier, channel, c) == r
    {
      r := None;
      for i := 0 to |challenges|
        invariant r.Some? ==> r.value < i && For(challenges[r.value], identifier, channel)
        invariant forall j | 0 <= j < i && For(challenges[j], identifier, channel) ::
            r.Some? && challenges[j].createdAt <= challenges[r.value].createdAt
      {
        if For(challenges[i], identifier, channel)
           && (r.None? || challenges[i].createdAt > challenges[r.value].createdAt) {
          r := Some(i);
        }
      }
      if r.Some? { assert IsLatest(challenges, identifier, channel, r.value); }
    }

    method IncrementAttempts(id: string)
      modifies this`challenges
      ensures challenges == Counted(old(challenges), id)
    {
      var rows: seq<Challenge> := [];
      for i := 0 to |challenges|
        invariant rows == Counted(challenges, id)[..i]
      {
        var c := challenges[i];
        rows := rows + [if c.id == id then c.(attempts := c.attempts + 1) else c];
      }
      challenges := rows;
    }

    method ConsumeChallenge(id: string)
      modifies this`challenges
      ensures challenges == Without(old(challenges), id)
    {
      challenges := DeleteRows(challenges, (c: Challenge) => c.id != id);
    }

    method DeleteExpiredChallenges(now: Time)
      modifies this`challenges
      ensures challenges == Unexpired(old(challenges), now)
    {
      challenges := DeleteRows(challenges, (c: Challenge) => c.expiresAt >= now);
    }

    // ---- refresh tokens --------------------------------------------------------------------

    method StoreToken(token: Token)
      modifies this`tokens
      ensures tokens == old(tokens) + [token]
    {
      tokens := tokens + [token];
    }

    /** Any unexpired, unrevoked row of the hash may come back. */
    method FindValidToken(hash: Digest, now: Time) returns (r: Option<nat>)
      ensures r.Some? ==> r.value < |tokens| && IsLive(tokens[r.value], hash, now)
      ensures forall c: nat | r.None? || c == r.value :: FindValid(tokens, hash, now, c) == r
    {
      for i := 0 to |tokens|
        invariant forall j | 0 <= j < i :: !IsLive(tokens[j], hash, now)
      {
        if IsLive(tokens[i], hash, now) { return Some(i); }
      }
      return None;
    }

    method RevokeToken(hash: Digest)
      modifies this`tokens
      ensures tokens == RevokedAll(old(tokens), hash)
    {
      var rows: seq<Token> := [];
      for i := 0 to |tokens|
        invariant rows == RevokedAll(tokens, hash)[..i]
      {
        rows := rows + [if tokens[i].hash == hash then tokens[i].(revoked := true) else tokens[i]];
      }
      tokens := rows;
    }
  }

  /** Deletes the rows that do not pass. */
  method DeleteRows(cs: seq<Challenge>, keep: Challenge -> bool) returns (kept: seq<Challenge>)
    ensures kept == Keep(cs, keep)
  {
    kept := [];
    for i := |cs| downto 0
      invariant kept == Keep(cs[i..], keep)
    {
      assert cs[i..][1..] == cs[i + 1..];
      kept := (if keep(cs[i]) then [cs[i]] else []) + kept;
    }
    assert cs[0..] == cs;
  }

  /** The challenge takes the place of all others for its address and channel. */
  function Rotated(cs: seq<Challenge>, c: Challenge): seq<Challenge> {
    WithoutFor(cs, c.identifier, c.channel) + [c.(attempts := 0)]
  }

  predicate Clashes(cs: seq<Challenge>, c: Challenge) {
    HasId(WithoutFor(cs, c.identifier, c.channel), c.id)
  }

  /** Events are appended one by one. */
  method EmitEvents(log: seq<Event>, events: seq<Event>) returns (out: seq<Event>)
    ensures out == log + events
  {
    out := log;
    for i := 0 to |events|
      invariant out == log + events[..i]
    {
      out := out + [events[i]];
    }
  }

  method LockAndJoin(tx: Db, log: seq<Event>, id: InviteId, org: OrgId, user: UserId, at: Time)
    returns (tx': Db, log': seq<Event>, outcome: Outcome)
    ensures outcome == JoinByInvite(tx, user, id, org, at).outcome
    ensures outcome == Done ==>
      var r := JoinByInvite(tx, user, id, org, at); tx' == r.db && log' == log + r.events
  {
    if org !in tx.orgs {
      tx', log', outcome := tx, log, OrgNotFound;
    } else {
      tx', log', outcome := JoinThrough(tx, log, id, org, user, at);
    }
  }

  /** The statements that create an organization and its first membership. */
  method OwnOrg(tx: Db, log: seq<Event>, org: OrgId, name: string, creator: UserId)
    returns (tx': Db, log': seq<Event>, outcome: Outcome)
    ensures outcome == DoCreateOrg(tx, org, name, creator).outcome
    ensures outcome == Done ==>
      var r := DoCreateOrg(tx, org, name, creator); tx' == r.db && log' == log + r.events
  {
    tx', log', outcome := tx, log, Done;
    if org in tx.orgs {
      outcome := Violation;
    } else {
      tx' := tx.(orgs := tx.orgs[org := name]);
      if creator !in tx.users {
        outcome := Violation;
      } else {
        tx' := tx'.(members := InsertMember(tx.members, org, creator, Active));
        log' := EmitEvents(log, [OrgCreated(org, name), MembershipAdded(org, creator, Active)]);
      }
    }
  }

  /** The statements that consume an invitation and make the user an active member. */
  method JoinThrough(tx: Db, log: seq<Event>, id: InviteId, org: OrgId, user: UserId, at: Time)
    returns (tx': Db, log': seq<Event>, outcome: Outcome)
    ensures outcome == Admit(tx, user, id, org, at).outcome
    ensures outcome == Done ==>
      var r := Admit(tx, user, id, org, at); tx' == r.db && log' == log + r.events
  {
    tx', log', outcome := tx, log, Done;
    if !(id in tx.invites && tx.invites[id].org == org && tx.invites[id].status == Pending) {
      outcome := InviteNotFound;
    } else if user !in tx.users {
      outcome := Violation;
    } else {
      var row := tx.invites[id].(status := Accepted, acceptedAt := Some(at));
      tx' := tx.(invites := tx.invites[id := row]);
      if (org, user) !in tx.members || tx.members[(org, user)] == Invited {
        tx' := tx'.(members := tx.members[(org, user) := Active]);
      }
      log' := EmitEvents(log, [MembershipAdded(org, user, Active)]);
    }
  }
}
