/** The in-memory authorization store. */
module Memstore {
  import opened Tables
  import opened Rbac

  type Roles = map<OrgId, seq<RoleDef>>
  type Assignments = map<OrgId, map<UserId, seq<Assignment>>>

  function RolesOf(roles: Roles, org: OrgId): seq<RoleDef> {
    if org in roles then roles[org] else []
  }

  function AssignmentsOf(assignments: Assignments, org: OrgId, subject: UserId): seq<Assignment> {
    if org in assignments && subject in assignments[org] then assignments[org][subject] else []
  }

  /** Every assignment is filed under its own organization and subject. */
  ghost predicate Filed(assignments: Assignments) {
    forall o, s, a | o in assignments && s in assignments[o] && a in assignments[o][s] :: a.org == o && a.subject == s
  }

  /** Replaces the first role with the same key, or appends. */
  function WithRole(roles: seq<RoleDef>, role: RoleDef): (r: seq<RoleDef>)
    ensures r != [] && forall x <- r :: x == role || x in roles
  {
    if roles == [] then [role]
    else if roles[0].key == role.key then [role] + roles[1..]
    else [roles[0]] + WithRole(roles[1..], role)
  }

  lemma {:induction false} WithRoleAt(roles: seq<RoleDef>, role: RoleDef, i: nat)
    requires i <= |roles| && forall j | 0 <= j < i :: roles[j].key != role.key
    requires i < |roles| ==> roles[i].key == role.key
    ensures WithRole(roles, role) == if i < |roles| then roles[i := role] else roles + [role]
  {
    if i > 0 {
      WithRoleAt(roles[1..], role, i - 1);
      assert roles == [roles[0]] + roles[1..];
    }
  }

  /** Definitions of a key after the first one. */
  function Shadowed(roles: seq<RoleDef>, key: string): seq<RoleDef> {
    if roles == [] then [] else if roles[0].key == key then roles[1..] else Shadowed(roles[1..], key)
  }

  /** Adding a role gives its key the new permissions and those of later definitions of the same key, and
      leaves every other key as it was. */
  lemma {:induction false} WithRoleCarries(roles: seq<RoleDef>, role: RoleDef, key: string, p: Permission)
    ensures Carries(WithRole(roles, role), key, p)
       <==> if key == role.key then p in role.permissions || Carries(Shadowed(roles, key), key, p)
            else Carries(roles, key, p)
  {
    if roles == [] {
      assert Carries([role], key, p) <==> role.key == key && p in role.permissions by {
        assert role in [role];
      }
    } else {
      var rest := roles[1..];
      assert roles == [roles[0]] + rest;
      CarriesCons(roles[0], rest, key, p);
      if roles[0].key == role.key {
        CarriesCons(role, rest, key, p);
      } else {
        CarriesCons(roles[0], WithRole(rest, role), key, p);
        WithRoleCarries(rest, role, key, p);
      }
    }
  }

  lemma CarriesCons(r: RoleDef, rest: seq<RoleDef>, key: string, p: Permission)
    ensures Carries([r] + rest, key, p) <==> (r.key == key && p in r.permissions) || Carries(rest, key, p)
  {
    var all := [r] + rest;
    assert r == all[0];
    if Carries(rest, key, p) {
      var x :| x in rest && x.key == key && p in x.permissions;
      assert x in all;
    }
  }

  ghost predicate UniqueKeys(roles: seq<RoleDef>) {
    forall i, j | 0 <= i < |roles| && 0 <= j < |roles| && roles[i].key == roles[j].key :: i == j
  }

  /** Where role keys are unique, adding a role makes its permissions exactly the new ones. */
  lemma {:induction false} NothingShadowed(roles: seq<RoleDef>, key: string)
    requires UniqueKeys(roles)
    ensures forall r <- Shadowed(roles, key) :: r.key != key
  {
    if roles != [] {
      if roles[0].key == key {
        forall r | r in roles[1..] ensures r.key != key {
          var i :| 0 <= i < |roles| - 1 && roles[1..][i] == r;
          assert roles[i + 1] == r;
        }
      } else {
        forall i, j | 0 <= i < |roles[1..]| && 0 <= j < |roles[1..]| && roles[1..][i].key == roles[1..][j].key
          ensures i == j
        {
          assert roles[i + 1].key == roles[j + 1].key;
        }
        NothingShadowed(roles[1..], key);
      }
    }
  }

  lemma AddRoleReplaces(roles: seq<RoleDef>, role: RoleDef, key: string, p: Permission)
    requires UniqueKeys(roles)
    ensures Carries(WithRole(roles, role), key, p)
       <==> if key == role.key then p in role.permissions else Carries(roles, key, p)
  {
    WithRoleCarries(roles, role, key, p);
    NothingShadowed(roles, role.key);
  }

  /** Adding a role keeps keys unique. */
  lemma WithRoleUnique(roles: seq<RoleDef>, role: RoleDef)
    requires UniqueKeys(roles)
    ensures UniqueKeys(WithRole(roles, role))
  {
    var i := 0;
    while i < |roles| && roles[i].key != role.key
      invariant 0 <= i <= |roles| && forall j | 0 <= j < i :: roles[j].key != role.key
    {
      i := i + 1;
    }
    WithRoleAt(roles, role, i);
  }

  /** The roles after adding several, one by one. */
  function WithRoles(roles: seq<RoleDef>, added: seq<RoleDef>): seq<RoleDef> {
    if added == [] then roles else WithRole(WithRoles(roles, added[..|added| - 1]), added[|added| - 1])
  }

  function LastWith(added: seq<RoleDef>, key: string): Option<RoleDef> {
    if added == [] then None
    else if added[|added| - 1].key == key then Some(added[|added| - 1])
    else LastWith(added[..|added| - 1], key)
  }

  /** Over any run of additions to roles with unique keys, a key carries exactly the permissions of the last
      role added with it, and a key nobody added carries what it carried. */
  lemma {:induction false} LastAddedWins(roles: seq<RoleDef>, added: seq<RoleDef>, key: string, p: Permission)
    requires UniqueKeys(roles)
    ensures UniqueKeys(WithRoles(roles, added))
    ensures Carries(WithRoles(roles, added), key, p) <==>
      match LastWith(added, key)
      case Some(r) => p in r.permissions
      case None => Carries(roles, key, p)
    decreases |added|
  {
    if added != [] {
      hide UniqueKeys, Carries, WithRole;
      var before, role := WithRoles(roles, added[..|added| - 1]), added[|added| - 1];
      LastAddedWins(roles, added[..|added| - 1], key, p);
      WithRoleUnique(before, role);
      AddRoleReplaces(before, role, key, p);
    }
  }

  /** A copy of the role definitions, one by one. */
  method CloneRoles(defs: seq<RoleDef>) returns (cloned: seq<RoleDef>)
    ensures cloned == defs
  {
    cloned := [];
    for i := 0 to |defs|
      invariant cloned == defs[..i]
    {
      cloned := cloned + [defs[i]];
    }
  }

  class Store {
    var roles: Roles
    var assignments: Assignments

    ghost predicate Valid() reads this { Filed(assignments) }

    /** What an authorizer reads from the store. */
    function View(): Backend
      reads this
    {
      var r, a := roles, assignments;
      Backend(o => Ok(RolesOf(r, o)), (o, s) => Ok(AssignmentsOf(a, o, s)))
    }

    constructor ()
      ensures Valid() && roles == map[] && assignments == map[]
    {
      roles, assignments := map[], map[];
    }

    method SetRoles(org: OrgId, defs: seq<RoleDef>)
      requires Valid()
      modifies this`roles
      ensures Valid()
      ensures forall o :: View().roles(o) == if o == org then Ok(defs) else old(View()).roles(o)
      ensures forall o, s :: View().assignments(o, s) == old(View()).assignments(o, s)
    {
      var cloned := CloneRoles(defs);
      roles := roles[org := cloned];
    }

    method AddRole(org: OrgId, role: RoleDef)
      requires Valid()
      modifies this`roles
      ensures Valid()
      ensures RolesOf(roles, org) == WithRole(RolesOf(old(roles), org), role)
      ensures forall o | o != org :: RolesOf(roles, o) == RolesOf(old(roles), o)
    {
      var defs := RolesOf(roles, org);
      var i := 0;
      while i < |defs| && defs[i].key != role.key
        invariant 0 <= i <= |defs| && forall j | 0 <= j < i :: defs[j].key != role.key
      {
        i := i + 1;
      }
      WithRoleAt(defs, role, i);
      defs := if i < |defs| then defs[i := role] else defs + [role];
      roles := roles[org := defs];
    }

    /** The organization and subject come from the arguments, whatever the assignments say. */
    method SetAssignments(org: OrgId, subject: UserId, given: seq<Assignment>)
      requires Valid()
      modifies this`assignments
      ensures Valid()
      ensures AssignmentsOf(assignments, org, subject)
           == seq(|given|, i requires 0 <= i < |given| => given[i].(org := org, subject := subject))
      ensures forall o, s | (o, s) != (org, subject) :: AssignmentsOf(assignments, o, s) == AssignmentsOf(old(assignments), o, s)
    {
      var copied: seq<Assignment> := [];
      for i := 0 to |given|
        invariant |copied| == i
        invariant forall j | 0 <= j < i :: copied[j] == given[j].(org := org, subject := subject)
      {
        copied := copied + [given[i].(org := org, subject := subject)];
      }
      var bySubject := if org in assignments then assignments[org] else map[];
      assignments := assignments[org := bySubject[subject := copied]];
    }

    method AddAssignment(a: Assignment)
      requires Valid()
      modifies this`assignments
      ensures Valid()
      ensures AssignmentsOf(assignments, a.org, a.subject) == AssignmentsOf(old(assignments), a.org, a.subject) + [a]
      ensures forall o, s | (o, s) != (a.org, a.subject) :: AssignmentsOf(assignments, o, s) == AssignmentsOf(old(assignments), o, s)
    {
      var bySubject := if a.org in assignments then assignments[a.org] else map[];
      var filed := if a.subject in bySubject then bySubject[a.subject] else [];
      assignments := assignments[a.org := bySubject[a.subject := filed + [a]]];
    }
  }

  /** Over a memory store, a decision is the plain existential over the stored roles and assignments. */
  lemma StoredDecision(s: Store, catalog: set<Permission>, p: Principal, permission: Permission, res: Resource)
    requires s.Valid()
    ensures Allowed(Authorizer(Some(catalog), Some(s.View())), p, permission, res) <==>
      && p.org != "" && p.subject != "" && res.org == p.org && permission in catalog
      && exists a <- AssignmentsOf(s.assignments, p.org, p.subject) ::
           Carries(RolesOf(s.roles, p.org), a.roleKey, permission) && Applies(a.scope, res.scopes)
  {
    var z := Authorizer(Some(catalog), Some(s.View()));
    forall a | a in AssignmentsOf(s.assignments, p.org, p.subject)
      ensures a.org == p.org && a.subject == p.subject
    {
    }
    assert z.store.value.roles(p.org) == Ok(RolesOf(s.roles, p.org));
    assert z.store.value.assignments(p.org, p.subject) == Ok(AssignmentsOf(s.assignments, p.org, p.subject));
  }
}
