/** Runs of guarded grants and arbitrary revocations never create a privilege nobody had. */
module Delegation {
  import opened Tables
  import opened Rbac

  /** The assignments of all organizations, in the order they were written. */
  type Assigned = seq<Assignment>

  datatype Move =
    | Grant(granter: UserId, target: Assignment)
    | Revoke(kept: set<nat>)          // the positions that stay

  function Own(given: Assigned, org: OrgId, subject: UserId): Assigned {
    if given == [] then []
    else
      var n := |given| - 1;
      Own(given[..n], org, subject) + if given[n].org == org && given[n].subject == subject then [given[n]] else []
  }

  lemma {:induction false} OwnElements(given: Assigned, org: OrgId, subject: UserId, a: Assignment)
    ensures a in Own(given, org, subject) <==> a in given && a.org == org && a.subject == subject
  {
    if given != [] {
      var n := |given| - 1;
      OwnElements(given[..n], org, subject, a);
      assert given == given[..n] + [given[n]];
    }
  }

  function Keep(given: Assigned, kept: set<nat>): Assigned {
    if given == [] then []
    else
      var n := |given| - 1;
      Keep(given[..n], kept) + if n in kept then [given[n]] else []
  }

  lemma {:induction false} KeepElements(given: Assigned, kept: set<nat>, a: Assignment)
    requires a in Keep(given, kept)
    ensures a in given
  {
    if given != [] {
      var n := |given| - 1;
      if a in Keep(given[..n], kept) { KeepElements(given[..n], kept, a); }
    }
  }

  /** A grant is made by an authenticated subject who passes only their own assignments in the target's
      organization to `CanGrant`. */
  ghost predicate Permitted(roles: OrgId -> seq<RoleDef>, given: Assigned, m: Move) {
    m.Grant? ==>
      m.granter != "" && MayGrant(Own(given, m.target.org, m.granter), roles(m.target.org), m.target)
  }

  function Apply(given: Assigned, m: Move): Assigned {
    match m
    case Grant(_, target) => given + [target]
    case Revoke(kept) => Keep(given, kept)
  }

  /** The authorizer over these assignments and fixed role definitions. */
  function Authority(catalog: set<Permission>, roles: OrgId -> seq<RoleDef>, given: Assigned): Authorizer {
    Authorizer(Some(catalog), Some(Backend(o => Ok(roles(o)), (o, s) => Ok(Own(given, o, s)))))
  }

  /** Somebody may use the permission on the resource. */
  ghost predicate SomeoneMay(catalog: set<Permission>, roles: OrgId -> seq<RoleDef>, given: Assigned,
                             permission: Permission, res: Resource)
  {
    exists subject :: Allowed(Authority(catalog, roles, given), Principal(subject, res.org), permission, res)
  }

  /** One stored assignment that allows it. */
  ghost predicate Allows(roles: OrgId -> seq<RoleDef>, a: Assignment, permission: Permission, res: Resource) {
    a.org == res.org && a.subject != "" && Carries(roles(res.org), a.roleKey, permission) && Applies(a.scope, res.scopes)
  }

  lemma SomeoneMayIff(catalog: set<Permission>, roles: OrgId -> seq<RoleDef>, given: Assigned,
                      permission: Permission, res: Resource)
    ensures SomeoneMay(catalog, roles, given, permission, res)
       <==> res.org != "" && permission in catalog && exists a <- given :: Allows(roles, a, permission, res)
  {
    hide Own, Carries, Applies;
    var z := Authority(catalog, roles, given);
    if SomeoneMay(catalog, roles, given, permission, res) {
      var subject :| Allowed(z, Principal(subject, res.org), permission, res);
      var a :| a in Own(given, res.org, subject) && Holds(roles(res.org), a, Principal(subject, res.org), permission)
               && Applies(a.scope, res.scopes);
      OwnElements(given, res.org, subject, a);
      assert Allows(roles, a, permission, res);
    }
    if res.org != "" && permission in catalog {
      if a :| a in given && Allows(roles, a, permission, res) {
        OwnElements(given, res.org, a.subject, a);
        assert Holds(roles(res.org), a, Principal(a.subject, res.org), permission);
        assert Allowed(z, Principal(a.subject, res.org), permission, res);
      }
    }
  }

  /** A permitted move allows nothing on any resource that was not allowed to somebody before it. */
  lemma MoveAddsNothing(roles: OrgId -> seq<RoleDef>, given: Assigned, m: Move, a: Assignment,
                        permission: Permission, res: Resource)
    requires Permitted(roles, given, m) && a in Apply(given, m) && Allows(roles, a, permission, res)
    ensures exists b <- given :: Allows(roles, b, permission, res)
  {
    hide Own, Keep, Carries;
    match m
    case Revoke(kept) => KeepElements(given, kept, a);
    case Grant(granter, target) =>
      if a !in given {
        assert a == target;
        assert SomeCovers(Own(given, target.org, granter), roles(target.org), target, permission);
        var b :| b in Own(given, target.org, granter) && Covers(roles(target.org), b, target, permission);
        OwnElements(given, target.org, granter, b);
        assert Allows(roles, b, permission, res);
      }
  }

  ghost predicate PermittedRun(roles: OrgId -> seq<RoleDef>, given: Assigned, moves: seq<Move>)
    decreases |moves|
  {
    moves == []
    || (Permitted(roles, given, moves[0]) && PermittedRun(roles, Apply(given, moves[0]), moves[1..]))
  }

  function Final(given: Assigned, moves: seq<Move>): Assigned
    decreases |moves|
  {
    if moves == [] then given else Final(Apply(given, moves[0]), moves[1..])
  }

  lemma {:induction false} RunAddsNothing(roles: OrgId -> seq<RoleDef>, given: Assigned, moves: seq<Move>,
                                          permission: Permission, res: Resource)
    requires PermittedRun(roles, given, moves)
    requires exists a <- Final(given, moves) :: Allows(roles, a, permission, res)
    ensures exists a <- given :: Allows(roles, a, permission, res)
    decreases |moves|
  {
    hide Apply, Allows, Permitted;
    if moves != [] {
      RunAddsNothing(roles, Apply(given, moves[0]), moves[1..], permission, res);
      var a :| a in Apply(given, moves[0]) && Allows(roles, a, permission, res);
      MoveAddsNothing(roles, given, moves[0], a, permission, res);
    }
  }

  /** No privilege growth: with role definitions fixed, whatever some subject may do after any run of
      permitted grants and arbitrary revocations, some subject could do before it. */
  lemma NoPrivilegeGrowth(catalog: set<Permission>, roles: OrgId -> seq<RoleDef>, given: Assigned,
                          moves: seq<Move>, permission: Permission, res: Resource)
    requires PermittedRun(roles, given, moves)
    requires SomeoneMay(catalog, roles, Final(given, moves), permission, res)
    ensures SomeoneMay(catalog, roles, given, permission, res)
  {
    hide Final, PermittedRun, Allows, SomeoneMay;
    SomeoneMayIff(catalog, roles, Final(given, moves), permission, res);
    SomeoneMayIff(catalog, roles, given, permission, res);
    RunAddsNothing(roles, given, moves, permission, res);
  }

  /** The granter must be a subject `Check` knows: an assignment filed under the empty subject allows
      nobody anything, yet would let its holder grant the role. */
  lemma AnonymousGrantGrows()
    ensures var roles := (o: OrgId) => [RoleDef("r", ["p"], false)];
      var given, target := [Assignment("o", "", "r", Scope("", ""))], Assignment("o", "bob", "r", Scope("", ""));
      && MayGrant(Own(given, "o", ""), roles("o"), target)
      && !SomeoneMay({"p"}, roles, given, "p", Resource("o", []))
      && SomeoneMay({"p"}, roles, given + [target], "p", Resource("o", []))
  {
    var roles := (o: OrgId) => [RoleDef("r", ["p"], false)];
    var root := Assignment("o", "", "r", Scope("", ""));
    var given, target := [root], Assignment("o", "bob", "r", Scope("", ""));
    OwnElements(given, "o", "", root);
    assert RoleDef("r", ["p"], false) in roles("o");
    assert forall p | Carries(roles("o"), "r", p) :: p == "p";
    assert Covers(roles("o"), root, target, "p");
    SomeoneMayIff({"p"}, roles, given, "p", Resource("o", []));
    SomeoneMayIff({"p"}, roles, given + [target], "p", Resource("o", []));
    assert target in given + [target] && Allows(roles, target, "p", Resource("o", []));
  }

  /** Asking `CanGrant` for this subject's own assignments is enough: whatever such a grant lets some subject
      do, some subject could do before it. */
  ghost predicate GuardSound(granter: UserId) {
    forall catalog: set<Permission>, roles: OrgId -> seq<RoleDef>, given: Assigned, target: Assignment,
           permission: Permission, res: Resource
      | MayGrant(Own(given, target.org, granter), roles(target.org), target)
        && SomeoneMay(catalog, roles, given + [target], permission, res) ::
      SomeoneMay(catalog, roles, given, permission, res)
  }

  /** The guard is sound exactly for the subjects that have a name. */
  lemma GuardSoundExactly(granter: UserId)
    ensures GuardSound(granter) <==> granter != ""
  {
    hide Own, SomeoneMay, MayGrant, Allows;
    if granter == "" {
      AnonymousGrantGrows();
    } else {
      forall catalog: set<Permission>, roles: OrgId -> seq<RoleDef>, given: Assigned, target: Assignment,
             permission: Permission, res: Resource
        | MayGrant(Own(given, target.org, granter), roles(target.org), target)
          && SomeoneMay(catalog, roles, given + [target], permission, res)
        ensures SomeoneMay(catalog, roles, given, permission, res)
      {
        SomeoneMayIff(catalog, roles, given, permission, res);
        SomeoneMayIff(catalog, roles, given + [target], permission, res);
        var a :| a in given + [target] && Allows(roles, a, permission, res);
        MoveAddsNothing(roles, given, Grant(granter, target), a, permission, res);
      }
    }
  }
}
