/** The seeding script init_roles_permissions.py: the three roles, the three views a
    permission can open, the intended role-to-view mapping, and `main`, which creates
    each listed role and permission only when no row of that name exists yet. */
module InitRoles {
  import opened Common
  import opened Db

  const RoleNames: seq<string> := ["Admin", "Analyst", "Inspector"]
  const PermissionNames: seq<string> := ["home_dashboard", "analytics_dashboard", "user_dashboard"]

  /** `role_permissions`: the views each role is meant to open. */
  const RolePermissions: map<string, seq<string>> := map[
    "Admin" := ["home_dashboard", "analytics_dashboard", "user_dashboard"],
    "Analyst" := ["home_dashboard", "analytics_dashboard"],
    "Inspector" := ["home_dashboard", "user_dashboard"]
  ]

  /** The mapping names exactly the declared roles, and each role only declared views. */
  lemma MappingIsDeclared()
    ensures forall r :: r in RolePermissions <==> r in RoleNames
    ensures forall r, p :: r in RolePermissions && p in RolePermissions[r] ==> p in PermissionNames
    ensures RolePermissions["Admin"] == PermissionNames
  {
  }

  predicate HasRole(roles: seq<Role>, name: string) {
    exists i :: 0 <= i < |roles| && roles[i].name == name
  }

  predicate HasPermission(perms: seq<Permission>, viewName: string) {
    exists i :: 0 <= i < |perms| && perms[i].viewName == viewName
  }

  /** No two roles share a name. */
  predicate UniqueRoleNames(roles: seq<Role>) {
    forall i, j :: 0 <= i < j < |roles| ==> roles[i].name != roles[j].name
  }

  /** No two permissions share a view name. */
  predicate UniqueViewNames(perms: seq<Permission>) {
    forall i, j :: 0 <= i < j < |perms| ==> perms[i].viewName != perms[j].viewName
  }

  /** One iteration of the role loop: look the name up, and add a row only when it is
      absent. A name that already had a row gets no second one. */
  method GetOrCreateRole(db: Database, name: string) returns (role: Role)
    modifies db`roles
    ensures role.name == name && role in db.roles
    ensures old(db.roles) <= db.roles
    ensures HasRole(old(db.roles), name) ==> db.roles == old(db.roles)
    ensures !HasRole(old(db.roles), name) ==> db.roles == old(db.roles) + [role]
    ensures UniqueRoleNames(old(db.roles)) ==> UniqueRoleNames(db.roles)
  {
    var found := First(db.roles, HasRoleName(name));
    if found.Some? {
      role := found.value;
    } else {
      role := Role(NextId(RoleIds(db.roles)), name);
      db.roles := db.roles + [role];
    }
  }

  /** One iteration of the permission loop, keyed on the view name. */
  method GetOrCreatePermission(db: Database, viewName: string) returns (perm: Permission)
    modifies db`permissions
    ensures perm.viewName == viewName && perm in db.permissions
    ensures old(db.permissions) <= db.permissions
    ensures HasPermission(old(db.permissions), viewName) ==> db.permissions == old(db.permissions)
    ensures !HasPermission(old(db.permissions), viewName) ==> db.permissions == old(db.permissions) + [perm]
    ensures UniqueViewNames(old(db.permissions)) ==> UniqueViewNames(db.permissions)
  {
    var found := First(db.permissions, HasViewName(viewName));
    if found.Some? {
      perm := found.value;
    } else {
      perm := Permission(NextId(PermissionIds(db.permissions)), viewName);
      db.permissions := db.permissions + [perm];
    }
  }

  /** The role loop, filling `role_objs`: afterwards every listed name maps to a row of
      that name; the rows appended are for listed names that had none, one row each; when
      every name already had a row, nothing is added. */
  method CreateRoles(db: Database) returns (roleObjs: map<string, Role>)
    modifies db`roles
    ensures forall n :: n in roleObjs <==> n in RoleNames
    ensures forall n :: n in roleObjs ==> roleObjs[n].name == n && roleObjs[n] in db.roles
    ensures old(db.roles) <= db.roles
    ensures (forall k :: 0 <= k < |RoleNames| ==> HasRole(old(db.roles), RoleNames[k])) ==> db.roles == old(db.roles)
    ensures UniqueRoleNames(old(db.roles)) ==> UniqueRoleNames(db.roles)
    ensures forall i :: |old(db.roles)| <= i < |db.roles| ==>
              db.roles[i].name in RoleNames && !HasRole(old(db.roles), db.roles[i].name)
    ensures forall i, j :: |old(db.roles)| <= i < j < |db.roles| ==> db.roles[i].name != db.roles[j].name
  {
    roleObjs := map[];
    for k := 0 to |RoleNames|
      invariant forall n :: n in roleObjs <==> n in RoleNames[..k]
      invariant forall n :: n in roleObjs ==> roleObjs[n].name == n && roleObjs[n] in db.roles
      invariant old(db.roles) <= db.roles
      invariant (forall j :: 0 <= j < |RoleNames| ==> HasRole(old(db.roles), RoleNames[j])) ==> db.roles == old(db.roles)
      invariant UniqueRoleNames(old(db.roles)) ==> UniqueRoleNames(db.roles)
      invariant forall i :: |old(db.roles)| <= i < |db.roles| ==>
                  db.roles[i].name in RoleNames[..k] && !HasRole(old(db.roles), db.roles[i].name)
      invariant forall i, j :: |old(db.roles)| <= i < j < |db.roles| ==> db.roles[i].name != db.roles[j].name
    {
      ghost var before := db.roles;
      var role := GetOrCreateRole(db, RoleNames[k]);
      assert RoleNames[..k + 1] == RoleNames[..k] + [RoleNames[k]];
      forall n | n in roleObjs
        ensures roleObjs[n] in db.roles
      {
        assert roleObjs[n] in before;
      }
      roleObjs := roleObjs[RoleNames[k] := role];
    }
    assert RoleNames[..|RoleNames|] == RoleNames;
  }

  /** The permission loop, filling `perm_objs`, with the same guarantees: the rows
      appended are for listed views that had none, one row each. */
  method CreatePermissions(db: Database) returns (permObjs: map<string, Permission>)
    modifies db`permissions
    ensures forall n :: n in permObjs <==> n in PermissionNames
    ensures forall n :: n in permObjs ==> permObjs[n].viewName == n && permObjs[n] in db.permissions
    ensures old(db.permissions) <= db.permissions
    ensures (forall k :: 0 <= k < |PermissionNames| ==> HasPermission(old(db.permissions), PermissionNames[k]))
            ==> db.permissions == old(db.permissions)
    ensures UniqueViewNames(old(db.permissions)) ==> UniqueViewNames(db.permissions)
    ensures forall i :: |old(db.permissions)| <= i < |db.permissions| ==>
              db.permissions[i].viewName in PermissionNames
              && !HasPermission(old(db.permissions), db.permissions[i].viewName)
    ensures forall i, j :: |old(db.permissions)| <= i < j < |db.permissions| ==>
              db.permissions[i].viewName != db.permissions[j].viewName
  {
    permObjs := map[];
    for k := 0 to |PermissionNames|
      invariant forall n :: n in permObjs <==> n in PermissionNames[..k]
      invariant forall n :: n in permObjs ==> permObjs[n].viewName == n && permObjs[n] in db.permissions
      invariant old(db.permissions) <= db.permissions
      invariant (forall j :: 0 <= j < |PermissionNames| ==> HasPermission(old(db.permissions), PermissionNames[j]))
                ==> db.permissions == old(db.permissions)
      invariant UniqueViewNames(old(db.permissions)) ==> UniqueViewNames(db.permissions)
      invariant forall i :: |old(db.permissions)| <= i < |db.permissions| ==>
                  db.permissions[i].viewName in PermissionNames[..k]
                  && !HasPermission(old(db.permissions), db.permissions[i].viewName)
      invariant forall i, j :: |old(db.permissions)| <= i < j < |db.permissions| ==>
                  db.permissions[i].viewName != db.permissions[j].viewName
    {
      ghost var before := db.permissions;
      var perm := GetOrCreatePermission(db, PermissionNames[k]);
      assert PermissionNames[..k + 1] == PermissionNames[..k] + [PermissionNames[k]];
      forall n | n in permObjs
        ensures permObjs[n] in db.permissions
      {
        assert permObjs[n] in before;
      }
      permObjs := permObjs[PermissionNames[k] := perm];
    }
    assert PermissionNames[..|PermissionNames|] == PermissionNames;
  }

  /** Every listed role and every listed view has a row. */
  predicate AllSeeded(roles: seq<Role>, perms: seq<Permission>) {
    (forall k :: 0 <= k < |RoleNames| ==> HasRole(roles, RoleNames[k]))
    && (forall k :: 0 <= k < |PermissionNames| ==> HasPermission(perms, PermissionNames[k]))
  }

  /** `main`: both loops; the user-role-permission table and the accounts are not
      touched (the role-to-view assignment is commented out in the script). Afterwards
      every listed name has its row, and a run over tables that already had them all
      adds nothing, so a second run never changes anything. */
  method Seed(db: Database) returns (roleObjs: map<string, Role>, permObjs: map<string, Permission>)
    modifies db`roles, db`permissions
    ensures forall n :: n in roleObjs <==> n in RoleNames
    ensures forall n :: n in permObjs <==> n in PermissionNames
    ensures forall n :: n in roleObjs ==> roleObjs[n].name == n && roleObjs[n] in db.roles
    ensures forall n :: n in permObjs ==> permObjs[n].viewName == n && permObjs[n] in db.permissions
    ensures db.grants == old(db.grants) && db.users == old(db.users)
    ensures old(db.roles) <= db.roles && old(db.permissions) <= db.permissions
    ensures AllSeeded(db.roles, db.permissions)
    ensures AllSeeded(old(db.roles), old(db.permissions)) ==>
              db.roles == old(db.roles) && db.permissions == old(db.permissions)
    ensures UniqueRoleNames(old(db.roles)) ==> UniqueRoleNames(db.roles)
    ensures UniqueViewNames(old(db.permissions)) ==> UniqueViewNames(db.permissions)
    ensures forall i :: |old(db.roles)| <= i < |db.roles| ==>
              db.roles[i].name in RoleNames && !HasRole(old(db.roles), db.roles[i].name)
    ensures forall i, j :: |old(db.roles)| <= i < j < |db.roles| ==> db.roles[i].name != db.roles[j].name
    ensures forall i :: |old(db.permissions)| <= i < |db.permissions| ==>
              db.permissions[i].viewName in PermissionNames
              && !HasPermission(old(db.permissions), db.permissions[i].viewName)
    ensures forall i, j :: |old(db.permissions)| <= i < j < |db.permissions| ==>
              db.permissions[i].viewName != db.permissions[j].viewName
  {
    roleObjs := CreateRoles(db);
    permObjs := CreatePermissions(db);
    forall k | 0 <= k < |RoleNames|
      ensures HasRole(db.roles, RoleNames[k])
    {
      var i :| 0 <= i < |db.roles| && db.roles[i] == roleObjs[RoleNames[k]];
    }
    forall k | 0 <= k < |PermissionNames|
      ensures HasPermission(db.permissions, PermissionNames[k])
    {
      var i :| 0 <= i < |db.permissions| && db.permissions[i] == permObjs[PermissionNames[k]];
    }
  }
}
