/** Seeding a demo account: an upsert on the email, or on the mobile number when there is no email. */
module DemoUsers {
  import opened Tables
  import opened Transactions

  function Given(s: string): Option<string> { if s == "" then None else Some(s) }

  predicate TakenByOther(db: Db, c: Contact, u: UserId) { c in db.index && db.index[c] != u }

  function DoSeed(db: Db, id: UserId, email: string, mobile: string, password: Digest, name: string, at: Time): Result {
    var target := if email != "" then ByEmail(email) else ByMobile(mobile);
    if target in db.index then SeedUpdate(db, db.index[target], email, mobile, password, name)
    else SeedInsert(db, id, email, mobile, password, name, at)
  }

  /** ON CONFLICT DO UPDATE: the account becomes active; a given mobile number replaces the old one. */
  function SeedUpdate(db: Db, u: UserId, email: string, mobile: string, password: Digest, name: string): Result {
    if u !in db.users || (mobile != "" && TakenByOther(db, ByMobile(mobile), u)) then Refuse(db, Violation)
    else
      var row := db.users[u];
      var row' := row.(mobile := if mobile == "" then row.mobile else Some(mobile),
                       password := Some(password), displayName := name, status := UserActive,
                       emailVerified := row.emailVerified || email != "");
      var freed := if mobile != "" && row.mobile.Some? then {ByMobile(row.mobile.value)} else {};
      var index := db.index - freed;
      Result(db.(users := db.users[u := row'],
                 index := if mobile == "" then index else index[ByMobile(mobile) := u]), Done, [])
  }

  function SeedInsert(db: Db, id: UserId, email: string, mobile: string, password: Digest, name: string, at: Time): Result {
    if id in db.users || (mobile != "" && ByMobile(mobile) in db.index) then Refuse(db, Violation)
    else
      var row := User(Given(email), Given(mobile), Some(password), name, UserActive, email != "", at);
      var index := if email == "" then db.index else db.index[ByEmail(email) := id];
      Result(db.(users := db.users[id := row],
                 index := if mobile == "" then index else index[ByMobile(mobile) := id]), Done, [UserCreated(id)])
  }

  lemma SeedInsertIndexed(db: Db, id: UserId, email: string, mobile: string, password: Digest, name: string, at: Time)
    requires Indexed(db) && (email != "" ==> ByEmail(email) !in db.index)
    ensures Indexed(SeedInsert(db, id, email, mobile, password, name, at).db)
  {
    var r := SeedInsert(db, id, email, mobile, password, name, at);
    if r.outcome == Done {
      forall u, c | u in r.db.users && HasContact(r.db.users[u], c) ensures c in r.db.index && r.db.index[c] == u {
        if u != id { assert HasContact(db.users[u], c); }
      }
      forall c | c in r.db.index ensures r.db.index[c] in r.db.users && HasContact(r.db.users[r.db.index[c]], c) {
        if c != ByEmail(email) && c != ByMobile(mobile) { assert HasContact(db.users[db.index[c]], c); }
      }
    }
  }

  lemma SeedUpdateFinds(db: Db, u: UserId, email: string, mobile: string, password: Digest, name: string, v: UserId, c: Contact)
    requires Indexed(db) && SeedUpdate(db, u, email, mobile, password, name).outcome == Done
    requires var db' := SeedUpdate(db, u, email, mobile, password, name).db; v in db'.users && HasContact(db'.users[v], c)
    ensures var db' := SeedUpdate(db, u, email, mobile, password, name).db; c in db'.index && db'.index[c] == v
  {
    var row := db.users[u];
    var r := SeedUpdate(db, u, email, mobile, password, name);
    if row.mobile.Some? {
      assert HasContact(row, ByMobile(row.mobile.value));
      assert db.index[ByMobile(row.mobile.value)] == u;
    }
    if v != u {
      assert HasContact(db.users[v], c);
      assert db.index[c] == v && (mobile == "" || !TakenByOther(db, ByMobile(mobile), u));
      assert r.db.index[c] == v;
    } else if mobile == "" || c != ByMobile(mobile) {
      assert HasContact(row, c);
      assert c in db.index && db.index[c] == u;
    }
  }

  lemma SeedUpdateFound(db: Db, u: UserId, email: string, mobile: string, password: Digest, name: string, c: Contact)
    requires Indexed(db) && SeedUpdate(db, u, email, mobile, password, name).outcome == Done
    requires c in SeedUpdate(db, u, email, mobile, password, name).db.index
    ensures var db' := SeedUpdate(db, u, email, mobile, password, name).db;
      db'.index[c] in db'.users && HasContact(db'.users[db'.index[c]], c)
  {
    if mobile == "" || c != ByMobile(mobile) { assert HasContact(db.users[db.index[c]], c); }
  }

  lemma SeedUpdateIndexed(db: Db, u: UserId, email: string, mobile: string, password: Digest, name: string)
    requires Indexed(db)
    ensures Indexed(SeedUpdate(db, u, email, mobile, password, name).db)
  {
    var r := SeedUpdate(db, u, email, mobile, password, name);
    if r.outcome == Done {
      hide SeedUpdate;
      forall v, c | v in r.db.users && HasContact(r.db.users[v], c) ensures c in r.db.index && r.db.index[c] == v {
        SeedUpdateFinds(db, u, email, mobile, password, name, v, c);
      }
      forall c | c in r.db.index ensures r.db.index[c] in r.db.users && HasContact(r.db.users[r.db.index[c]], c) {
        SeedUpdateFound(db, u, email, mobile, password, name, c);
      }
    }
  }

  /** The unique columns stay unique and indexed. */
  lemma SeedIndexed(db: Db, id: UserId, email: string, mobile: string, password: Digest, name: string, at: Time)
    requires Indexed(db)
    ensures Indexed(DoSeed(db, id, email, mobile, password, name, at).db)
  {
    hide SeedInsert, SeedUpdate;
    var target := if email != "" then ByEmail(email) else ByMobile(mobile);
    if target in db.index { SeedUpdateIndexed(db, db.index[target], email, mobile, password, name); }
    else { SeedInsertIndexed(db, id, email, mobile, password, name, at); }
  }

  /** What seeding writes: the account of the target contact is active with the given password, name and mobile
      number, and verified if an email was given; every other account is as before; only a new account is
      announced. A refusal changes nothing. */
  lemma SeedExactly(db: Db, id: UserId, email: string, mobile: string, password: Digest, name: string, at: Time)
    requires Indexed(db)
    ensures var r := DoSeed(db, id, email, mobile, password, name, at);
      var target := if email != "" then ByEmail(email) else ByMobile(mobile);
      var u := if target in db.index then db.index[target] else id;
      && (r.outcome != Done ==> r.db == db && r.events == [])
      && (r.outcome == Done ==>
            && u in r.db.users && var row := r.db.users[u];
            && row.status == UserActive && row.password == Some(password) && row.displayName == name
            && (email != "" ==> row.email == Some(email) && row.emailVerified)
            && (mobile != "" ==> row.mobile == Some(mobile))
            && r.db == db.(users := db.users[u := row], index := r.db.index)
            && r.events == if target in db.index then [] else [UserCreated(u)])
  {
  }
}
