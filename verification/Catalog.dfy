/** The permission catalog and the validation of submitted roles. */
module Catalog {
  import opened Tables
  import opened Ordering
  import opened Rbac
  import opened Memstore

  /** ^[a-z][a-z0-9_.-]*$ */
  predicate Identifier(s: string) {
    s != "" && 'a' <= s[0] <= 'z'
    && forall c <- s :: 'a' <= c <= 'z' || '0' <= c <= '9' || c in "_.-"
  }

  ghost predicate Distinct<T>(s: seq<T>) {
    forall i, j | 0 <= i < |s| && 0 <= j < |s| && s[i] == s[j] :: i == j
  }

  /** A catalog exists exactly for distinct, well-formed keys, and holds exactly those. */
  method NewCatalog(keys: seq<Permission>) returns (catalog: Option<set<Permission>>)
    ensures catalog.Some? <==> Distinct(keys) && forall k <- keys :: Identifier(k)
    ensures catalog.Some? ==> catalog.value == Elements(keys)
  {
    var specs: set<Permission> := {};
    for i := 0 to |keys|
      invariant Distinct(keys[..i]) && forall j | 0 <= j < i :: Identifier(keys[j])
      invariant specs == Elements(keys[..i])
    {
      if !Identifier(keys[i]) { return None; }
      if keys[i] in specs {
        var j :| 0 <= j < i && keys[..i][j] == keys[i];
        assert keys[j] == keys[i] && j != i;
        return None;
      }
      assert keys[..i + 1] == keys[..i] + [keys[i]];
      specs := specs + {keys[i]};
    }
    assert keys[..|keys|] == keys;
    return Some(specs);
  }

  predicate Declared(catalog: set<Permission>, role: RoleDef) {
    Identifier(role.key) && forall p <- role.permissions :: Identifier(p) && p in catalog
  }

  /** Roles pass exactly when their keys are unique and they grant only declared permissions; with
      unique keys, `Memstore.AddRoleReplaces` applies. */
  method ValidateRoles(catalog: Option<set<Permission>>, roles: seq<RoleDef>) returns (ok: bool)
    ensures ok <==> catalog.Some? && UniqueKeys(roles) && forall r <- roles :: Declared(catalog.value, r)
  {
    if catalog.None? { return false; }
    var seen: set<string> := {};
    for i := 0 to |roles|
      invariant UniqueKeys(roles[..i]) && forall j | 0 <= j < i :: Declared(catalog.value, roles[j])
      invariant forall k :: k in seen <==> exists j :: 0 <= j < i && roles[j].key == k
    {
      var role := roles[i];
      assert role in roles;
      if !Identifier(role.key) { return false; }
      if role.key in seen {
        var j :| 0 <= j < i && roles[j].key == role.key;
        assert !UniqueKeys(roles) by { assert roles[i].key == roles[j].key && i != j; }
        return false;
      }
      for k := 0 to |role.permissions|
        invariant forall l | 0 <= l < k :: Identifier(role.permissions[l]) && role.permissions[l] in catalog.value
      {
        if !Identifier(role.permissions[k]) || role.permissions[k] !in catalog.value {
          assert role.permissions[k] in role.permissions;
          return false;
        }
      }
      seen := seen + {role.key};
      assert Declared(catalog.value, role);
      assert UniqueKeys(roles[..i + 1]);
    }
    assert roles[..|roles|] == roles;
    return true;
  }
}
