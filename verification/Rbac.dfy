/** Organization-scoped role based access control: the evaluator that works through maps, its bulk
    form, and the delegation rule, each against a plain definition. */
module Rbac {
  import opened Tables
  import opened Ordering

  type Permission = string

  /** Where an assignment applies. Kind "" is the whole organization. */
  datatype Scope = Scope(kind: string, id: string)

  datatype Resource = Resource(org: OrgId, scopes: seq<Scope>)
  datatype RoleDef = RoleDef(key: string, permissions: seq<Permission>, system: bool)
  datatype Assignment = Assignment(org: OrgId, subject: UserId, roleKey: string, scope: Scope)
  datatype Principal = Principal(subject: UserId, org: OrgId)

  datatype Reason = NoOrg | OrgMismatch | UnknownPermission | NoGrant | Granted
  datatype Decision = Decision(allowed: bool, reason: Reason)

  /** The product's store: a read may fail. */
  datatype Read<+T> = Ok(value: T) | Failed
  datatype Backend = Backend(roles: OrgId -> Read<seq<RoleDef>>,
                             assignments: (OrgId, UserId) -> Read<seq<Assignment>>)

  /** An authorizer; its catalog and store may be missing. */
  datatype Authorizer = Authorizer(catalog: Option<set<Permission>>, store: Option<Backend>)

  // ---- the plain definition -------------------------------------------------

  /** Some definition of the role carries the permission. */
  predicate Carries(roles: seq<RoleDef>, key: string, permission: Permission) {
    exists r <- roles :: r.key == key && permission in r.permissions
  }

  predicate Applies(scope: Scope, scopes: seq<Scope>) {
    scope.kind == "" || scope in scopes
  }

  predicate Holds(roles: seq<RoleDef>, a: Assignment, p: Principal, permission: Permission) {
    a.org == p.org && a.subject == p.subject && Carries(roles, a.roleKey, permission)
  }

  predicate SomeGrant(roles: seq<RoleDef>, assignments: seq<Assignment>, p: Principal, permission: Permission,
                      scopes: seq<Scope>)
  {
    exists a <- assignments :: Holds(roles, a, p, permission) && Applies(a.scope, scopes)
  }

  /** The question is well posed: a subject in an organization asks about a declared permission on a
      resource of that organization, and the store answers. */
  predicate Posed(z: Authorizer, p: Principal, permission: Permission, res: Resource) {
    && p.org != "" && res.org == p.org && Asks(z, p, permission)
  }

  predicate Asks(z: Authorizer, p: Principal, permission: Permission) {
    && p.org != "" && p.subject != ""
    && z.catalog.Some? && permission in z.catalog.value
    && z.store.Some? && z.store.value.roles(p.org).Ok? && z.store.value.assignments(p.org, p.subject).Ok?
  }

  predicate Allowed(z: Authorizer, p: Principal, permission: Permission, res: Resource) {
    && Posed(z, p, permission, res)
    && SomeGrant(z.store.value.roles(p.org).value, z.store.value.assignments(p.org, p.subject).value,
                 p, permission, res.scopes)
  }

  // ---- the evaluator --------------------------------------------------------

  /** The permission sets by role key; definitions that share a key are merged. */
  method PermissionsByRole(roles: seq<RoleDef>) returns (byRole: map<string, set<Permission>>)
    ensures forall key :: key in byRole <==> exists r <- roles :: r.key == key
    ensures forall key, p :: (key in byRole && p in byRole[key]) <==> Carries(roles, key, p)
  {
    byRole := map[];
    for i := 0 to |roles|
      invariant forall key :: key in byRole <==> exists j :: 0 <= j < i && roles[j].key == key
      invariant forall key, p :: (key in byRole && p in byRole[key])
                  <==> exists j :: 0 <= j < i && roles[j].key == key && p in roles[j].permissions
    {
      var role := roles[i];
      var permissions := if role.key in byRole then byRole[role.key] else {};
      for k := 0 to |role.permissions|
        invariant permissions == (if role.key in byRole then byRole[role.key] else {})
                                 + Elements(role.permissions[..k])
      {
        assert role.permissions[..k + 1] == role.permissions[..k] + [role.permissions[k]];
        permissions := permissions + {role.permissions[k]};
      }
      assert role.permissions[..|role.permissions|] == role.permissions;
      byRole := byRole[role.key := permissions];
    }
  }

  method AssignmentApplies(scope: Scope, scopes: seq<Scope>) returns (r: bool)
    ensures r == Applies(scope, scopes)
  {
    if scope.kind == "" { return true; }
    for i := 0 to |scopes|
      invariant forall j | 0 <= j < i :: scopes[j] != scope
    {
      if scopes[i] == scope { return true; }
    }
    return false;
  }

  /** Deny by default; `failed` reports a store that could not be read. */
  method Check(z: Authorizer, p: Principal, permission: Permission, res: Resource)
    returns (d: Decision, failed: bool)
    ensures d.allowed <==> Allowed(z, p, permission, res)
    ensures d.allowed <==> d.reason == Granted
    ensures p.org == "" ==> d.reason == NoOrg
    ensures p.org != "" && res.org != p.org ==> d.reason == OrgMismatch
    ensures d.reason == UnknownPermission <==>
      p.org != "" && res.org == p.org && p.subject != "" && (z.catalog.None? || permission !in z.catalog.value)
    ensures failed ==> !d.allowed
    ensures failed <==> p.org != "" && res.org == p.org && p.subject != "" && z.catalog.Some?
                        && permission in z.catalog.value && z.store.Some? && !Asks(z, p, permission)
  {
    failed := false;
    if p.org == "" { return Decision(false, NoOrg), false; }
    if res.org != p.org { return Decision(false, OrgMismatch), false; }
    if p.subject == "" { return Decision(false, NoGrant), false; }
    if z.catalog.None? || permission !in z.catalog.value { return Decision(false, UnknownPermission), false; }
    if z.store.None? { return Decision(false, NoGrant), false; }
    var roles := z.store.value.roles(p.org);
    if roles.Failed? { return Decision(false, NoGrant), true; }
    var assignments := z.store.value.assignments(p.org, p.subject);
    if assignments.Failed? { return Decision(false, NoGrant), true; }
    var byRole := PermissionsByRole(roles.value);
    var all := assignments.value;
    for i := 0 to |all|
      invariant forall j | 0 <= j < i :: !(Holds(roles.value, all[j], p, permission) && Applies(all[j].scope, res.scopes))
    {
      var a := all[i];
      if a.org == p.org && a.subject == p.subject && a.roleKey in byRole && permission in byRole[a.roleKey] {
        var applies := AssignmentApplies(a.scope, res.scopes);
        if applies { return Decision(true, Granted), false; }
      }
    }
    return Decision(false, NoGrant), false;
  }

  // ---- the bulk form --------------------------------------------------------

  predicate Everywhere(z: Authorizer, p: Principal, permission: Permission) {
    && Asks(z, p, permission)
    && exists a <- z.store.value.assignments(p.org, p.subject).value ::
         Holds(z.store.value.roles(p.org).value, a, p, permission) && a.scope.kind == ""
  }

  /** The permission is held on the scope of this kind and id. */
  predicate HeldAt(z: Authorizer, p: Principal, permission: Permission, kind: string, id: string) {
    && Asks(z, p, permission)
    && exists a <- z.store.value.assignments(p.org, p.subject).value ::
         Holds(z.store.value.roles(p.org).value, a, p, permission) && a.scope.kind == kind && a.scope.id == id
  }

  /** Where the permission is held: everywhere, or on the listed ids, sorted and without duplicates. */
  method AllowedScopes(z: Authorizer, p: Principal, permission: Permission, kind: string)
    returns (everywhere: bool, ids: seq<string>, failed: bool)
    ensures everywhere <==> Everywhere(z, p, permission)
    ensures StrictlySorted(ids)
    ensures everywhere ==> ids == []
    ensures !everywhere ==> forall id :: id in ids <==> id != "" && HeldAt(z, p, permission, kind, id)
    ensures failed ==> !everywhere && ids == []
    ensures failed <==> p.org != "" && p.subject != "" && z.catalog.Some? && permission in z.catalog.value
                        && z.store.Some? && !Asks(z, p, permission)
  {
    everywhere, ids, failed := false, [], false;
    if p.org == "" || p.subject == "" { return; }
    if z.catalog.None? || permission !in z.catalog.value { return; }
    if z.store.None? { return; }
    var roles := z.store.value.roles(p.org);
    if roles.Failed? { failed := true; return; }
    var assignments := z.store.value.assignments(p.org, p.subject);
    if assignments.Failed? { failed := true; return; }
    var byRole := PermissionsByRole(roles.value);
    var all := assignments.value;
    var found: set<string> := {};
    for i := 0 to |all|
      invariant forall j | 0 <= j < i && Holds(roles.value, all[j], p, permission) :: all[j].scope.kind != ""
      invariant forall id :: id in found <==> (id != "" && exists j ::
                  0 <= j < i && Holds(roles.value, all[j], p, permission) && all[j].scope == Scope(kind, id))
    {
      var a := all[i];
      if a.org == p.org && a.subject == p.subject && a.roleKey in byRole && permission in byRole[a.roleKey] {
        assert Holds(roles.value, a, p, permission);
        if a.scope.kind == "" { everywhere := true; return; }
        if a.scope.kind == kind && a.scope.id != "" { found := found + {a.scope.id}; }
      }
    }
    ids := SortedKeys(found);
    assert forall id :: id in ids <==> id in Elements(ids);
  }

  /** The listing for the scope's kind contains its id. */
  predicate Listed(z: Authorizer, p: Principal, permission: Permission, s: Scope) {
    s.id != "" && HeldAt(z, p, permission, s.kind, s.id)
  }

  predicate AllowedByListing(z: Authorizer, p: Principal, permission: Permission, res: Resource) {
    Everywhere(z, p, permission) || exists s <- res.scopes :: Listed(z, p, permission, s)
  }

  lemma CheckMeetsScopes(z: Authorizer, p: Principal, permission: Permission, res: Resource)
    requires res.org == p.org
    ensures Allowed(z, p, permission, res) <==>
      Everywhere(z, p, permission) || exists s <- res.scopes :: HeldAt(z, p, permission, s.kind, s.id)
  {
    if Allowed(z, p, permission, res) {
      var a :| a in z.store.value.assignments(p.org, p.subject).value
               && Holds(z.store.value.roles(p.org).value, a, p, permission) && Applies(a.scope, res.scopes);
      if a.scope.kind != "" { assert HeldAt(z, p, permission, a.scope.kind, a.scope.id); }
    }
    if s :| s in res.scopes && HeldAt(z, p, permission, s.kind, s.id) {
      var a :| a in z.store.value.assignments(p.org, p.subject).value
               && Holds(z.store.value.roles(p.org).value, a, p, permission) && a.scope.kind == s.kind && a.scope.id == s.id;
      assert a.scope == s;
    }
  }

  /** For this resource `Check` and `AllowedScopes` tell the same story, whoever asks, about whatever permission,
      over whatever is stored. */
  ghost predicate ListingSound(res: Resource) {
    forall z: Authorizer, p: Principal, permission: Permission | p.org == res.org ::
      Allowed(z, p, permission, res) <==> AllowedByListing(z, p, permission, res)
  }

  /** A scope the listing can report: it has an id, or it is the whole organization. */
  predicate Listable(s: Scope) { s.id != "" || s.kind == "" }

  lemma ListingAgrees(z: Authorizer, p: Principal, permission: Permission, res: Resource)
    requires p.org == res.org && forall s <- res.scopes :: Listable(s)
    ensures Allowed(z, p, permission, res) <==> AllowedByListing(z, p, permission, res)
  {
    hide Allowed;
    CheckMeetsScopes(z, p, permission, res);
    forall s | s in res.scopes && HeldAt(z, p, permission, s.kind, s.id)
      ensures Everywhere(z, p, permission) || Listed(z, p, permission, s)
    {
    }
  }

  /** A store with one role and one assignment of it. */
  function OneGrant(org: OrgId, s: Scope): Authorizer {
    Authorizer(Some({"p"}), Some(Backend(o => Ok([RoleDef("r", ["p"], false)]),
                                         (o, u) => Ok([Assignment(org, "u", "r", s)]))))
  }

  /** The failing input: an assignment on a scope of the resource that has a kind and no id is a grant, and the
      listing drops it. */
  lemma UnlistedGrant(res: Resource, s: Scope)
    requires res.org != "" && s in res.scopes && !Listable(s)
    ensures var z, p := OneGrant(res.org, s), Principal("u", res.org);
      Allowed(z, p, "p", res) && !AllowedByListing(z, p, "p", res)
  {
    var z, p := OneGrant(res.org, s), Principal("u", res.org);
    var role, a := RoleDef("r", ["p"], false), Assignment(res.org, "u", "r", s);
    assert role in z.store.value.roles(p.org).value && a in z.store.value.assignments(p.org, p.subject).value;
    assert Holds(z.store.value.roles(p.org).value, a, p, "p") && Applies(a.scope, res.scopes);
  }

  /** Decision and listing agree for a resource exactly when each of its scopes has an id or is the whole
      organization; about a resource without an organization both say no. */
  lemma CheckMeetsListing(res: Resource)
    ensures ListingSound(res) <==> res.org == "" || forall s <- res.scopes :: Listable(s)
  {
    hide Allowed, AllowedByListing, Listable, OneGrant;
    if forall s <- res.scopes :: Listable(s) {
      forall z: Authorizer, p: Principal, permission: Permission | p.org == res.org
        ensures Allowed(z, p, permission, res) <==> AllowedByListing(z, p, permission, res)
      {
        ListingAgrees(z, p, permission, res);
      }
    } else if res.org == "" {
      NowhereAllowed(res);
    } else {
      var s :| s in res.scopes && !Listable(s);
      UnlistedGrant(res, s);
    }
  }

  lemma NowhereAllowed(res: Resource)
    requires res.org == ""
    ensures ListingSound(res)
  {
  }

  /** Only which roles and assignments are stored matters, not their order or repetition. */
  lemma GrantsIgnoreOrder(roles: seq<RoleDef>, roles': seq<RoleDef>, given: seq<Assignment>, given': seq<Assignment>,
                          p: Principal, permission: Permission, scopes: seq<Scope>)
    requires Elements(roles) == Elements(roles') && Elements(given) == Elements(given')
    ensures SomeGrant(roles, given, p, permission, scopes) == SomeGrant(roles', given', p, permission, scopes)
  {
    forall r ensures r in roles <==> r in roles' { assert r in Elements(roles) <==> r in Elements(roles'); }
    forall a ensures a in given <==> a in given' { assert a in Elements(given) <==> a in Elements(given'); }
    forall key ensures Carries(roles, key, permission) == Carries(roles', key, permission) {}
  }

  // ---- delegation -----------------------------------------------------------

  predicate Defined(roles: seq<RoleDef>, key: string) {
    exists r <- roles :: r.key == key
  }

  /** The assignment gives the permission on the target scope or on the whole organization. */
  predicate Covers(roles: seq<RoleDef>, a: Assignment, target: Assignment, permission: Permission) {
    && a.org == target.org && Carries(roles, a.roleKey, permission)
    && (a.scope.kind == "" || a.scope == target.scope)
  }

  predicate SomeCovers(granter: seq<Assignment>, roles: seq<RoleDef>, target: Assignment, permission: Permission) {
    exists a <- granter :: Covers(roles, a, target, permission)
  }

  /** Every permission of the target role is held by the granter on the target scope or everywhere. */
  ghost predicate MayGrant(granter: seq<Assignment>, roles: seq<RoleDef>, target: Assignment) {
    && target.org != "" && Defined(roles, target.roleKey)
    && forall permission | Carries(roles, target.roleKey, permission) :: SomeCovers(granter, roles, target, permission)
  }

  method CanGrant(granter: seq<Assignment>, roles: seq<RoleDef>, target: Assignment) returns (r: bool)
    ensures r <==> MayGrant(granter, roles, target)
  {
    if target.org == "" { return false; }
    var byRole := PermissionsByRole(roles);
    if target.roleKey !in byRole { return false; }
    var left := byRole[target.roleKey];
    while left != {}
      invariant left <= byRole[target.roleKey]
      invariant forall p | p in byRole[target.roleKey] - left :: SomeCovers(granter, roles, target, p)
      decreases |left|
    {
      var permission :| permission in left;
      var held := false;
      var i := 0;
      while i < |granter| && !held
        invariant 0 <= i <= |granter|
        invariant held ==> SomeCovers(granter, roles, target, permission)
        invariant !held ==> forall j | 0 <= j < i :: !Covers(roles, granter[j], target, permission)
      {
        var a := granter[i];
        if a.org == target.org && a.roleKey in byRole && permission in byRole[a.roleKey]
           && (a.scope.kind == "" || a.scope == target.scope)
        {
          assert Covers(roles, a, target, permission);
          held := true;
        }
        i := i + 1;
      }
      if !held {
        assert permission in byRole[target.roleKey];
        assert Carries(roles, target.roleKey, permission) && !SomeCovers(granter, roles, target, permission);
        return false;
      }
      left := left - {permission};
    }
    forall p | Carries(roles, target.roleKey, p) ensures SomeCovers(granter, roles, target, p) {
      assert p in byRole[target.roleKey];
    }
    return true;
  }

  /** Delegation composes: whoever may grant an assignment may grant all it allows to grant. */
  lemma MayGrantTransitive(granter: seq<Assignment>, roles: seq<RoleDef>, middle: Assignment, target: Assignment)
    requires MayGrant(granter, roles, middle) && MayGrant([middle], roles, target)
    ensures MayGrant(granter, roles, target)
  {
    forall permission | Carries(roles, target.roleKey, permission)
      ensures SomeCovers(granter, roles, target, permission)
    {
      assert SomeCovers([middle], roles, target, permission);
      assert Covers(roles, middle, target, permission);
      assert SomeCovers(granter, roles, middle, permission);
      var a :| a in granter && Covers(roles, a, middle, permission);
      assert Covers(roles, a, target, permission);
    }
  }

  /** More assignments never lose the right to grant. */
  lemma MayGrantMonotone(granter: seq<Assignment>, more: seq<Assignment>, roles: seq<RoleDef>, target: Assignment)
    requires MayGrant(granter, roles, target) && Elements(granter) <= Elements(more)
    ensures MayGrant(more, roles, target)
  {
    forall permission | Carries(roles, target.roleKey, permission)
      ensures SomeCovers(more, roles, target, permission)
    {
      var a :| a in granter && Covers(roles, a, target, permission);
      assert a in Elements(granter);
      assert a in more;
    }
  }
}
