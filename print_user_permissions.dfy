/** The maintenance script print_user_permissions.py: it moves the 'abhi' account onto the
    'Super-Admin' role – deleting every triple the user has, then adding one per view
    listed for that role in the shared `role_permissions` table – and reports the
    distinct role and permission ids (and their names) the user ends up with. */
module UserPermissions {
  import opened Common
  import opened Db
  import InitRoles

  const TargetUsername := "abhi"
  const SuperAdmin := "Super-Admin"

  /** What the script ends with. `KeyErrorRaised` is Python's `KeyError` on a missing
      dictionary key, which aborts the script. */
  datatype Report =
    | UserNotFound
    | Reported(roleIds: set<nat>, permissionIds: set<nat>, roleNames: seq<string>, viewNames: seq<string>)
    | KeyErrorRaised(key: string)

  /** `d[key]` on a dictionary: the value, or the `KeyError` naming the key. */
  function Lookup(d: map<string, seq<string>>, key: string): (r: Result<seq<string>, string>)
    ensures r.Ok? <==> key in d
    ensures r.Ok? ==> r.value == d[key]
    ensures r.Err? ==> r.error == key
  {
    if key in d then Ok(d[key]) else Err(key)
  }

  /** The user's triples are gone; everyone else's stay. */
  function WithoutUser(grants: set<Grant>, userId: nat): (gs: set<Grant>)
    ensures forall g :: g in gs <==> g in grants && g.userId != userId
  {
    set g | g in grants && g.userId != userId
  }

  /** The id of the permission row the add loop finds for a view name (the first row
      with that name), if any. */
  function Resolve(perms: seq<Permission>, viewName: string): (r: Option<nat>)
    ensures r.None? <==> forall i :: 0 <= i < |perms| ==> perms[i].viewName != viewName
    ensures r.Some? ==> exists i :: 0 <= i < |perms| && perms[i].viewName == viewName && perms[i].id == r.value
  {
    if perms == [] then None
    else if perms[0].viewName == viewName then Some(perms[0].id)
    else
      var rest := Resolve(perms[1..], viewName);
      assert forall i :: 0 < i < |perms| ==> perms[1..][i - 1] == perms[i];
      rest
  }

  /** The triples the add loop inserts: one per listed view name that names a
      permission row (the first such row), all with the given role. */
  function ResolvedGrants(userId: nat, roleId: nat, perms: seq<Permission>, names: seq<string>): set<Grant> {
    if names == [] then {}
    else
      var id := Resolve(perms, names[|names| - 1]);
      ResolvedGrants(userId, roleId, perms, names[..|names| - 1])
      + (if id.Some? then {Grant(userId, roleId, id.value)} else {})
  }

  /** Some listed view name resolves to the permission id `p`. */
  predicate Listed(perms: seq<Permission>, names: seq<string>, p: nat) {
    exists k :: 0 <= k < |names| && Resolve(perms, names[k]) == Some(p)
  }

  /** A triple is inserted exactly when it has the user and the role and its permission
      is the row some listed name resolves to. */
  lemma {:induction false} ResolvedGrantsMembers(userId: nat, roleId: nat, perms: seq<Permission>,
                                                 names: seq<string>, g: Grant)
    ensures g in ResolvedGrants(userId, roleId, perms, names) <==>
              g.userId == userId && g.roleId == roleId && Listed(perms, names, g.permissionId)
  {
    if names != [] {
      var init := names[..|names| - 1];
      var last := names[|names| - 1];
      ResolvedGrantsMembers(userId, roleId, perms, init, g);
      assert forall j :: 0 <= j < |init| ==> init[j] == names[j];
      if Listed(perms, init, g.permissionId) {
        var k :| 0 <= k < |init| && Resolve(perms, init[k]) == Some(g.permissionId);
        assert names[k] == init[k];
      }
      if Resolve(perms, last) == Some(g.permissionId) {
        assert Listed(perms, names, g.permissionId) by {
          assert names[|names| - 1] == last;
        }
      }
    }
  }

  /** `{urp.role_id for urp in urps if urp.role_id}`: the distinct non-zero role ids of
      the user's triples. */
  function UserRoleIds(grants: set<Grant>, userId: nat): (ids: set<nat>)
    ensures forall r :: r in ids <==> r != 0 && exists g :: g in grants && g.userId == userId && g.roleId == r
  {
    set g | g in grants && g.userId == userId && g.roleId != 0 :: g.roleId
  }

  /** The same for permission ids. */
  function UserPermissionIds(grants: set<Grant>, userId: nat): (ids: set<nat>)
    ensures forall p :: p in ids <==> p != 0 && exists g :: g in grants && g.userId == userId && g.permissionId == p
  {
    set g | g in grants && g.userId == userId && g.permissionId != 0 :: g.permissionId
  }

  /** The names of the roles whose id is in `ids`, in table order (none for no ids). */
  function RoleNamesOf(roles: seq<Role>, ids: set<nat>): (names: seq<string>)
    ensures |names| <= |roles|
    ensures ids == {} ==> names == []
    ensures forall n :: n in names <==> exists i :: 0 <= i < |roles| && roles[i].id in ids && roles[i].name == n
  {
    if roles == [] then []
    else
      var rest := RoleNamesOf(roles[1..], ids);
      assert forall i :: 0 < i < |roles| ==> roles[1..][i - 1] == roles[i];
      if roles[0].id in ids then [roles[0].name] + rest else rest
  }

  /** The view names of the permissions whose id is in `ids`, in table order. */
  function ViewNamesOf(perms: seq<Permission>, ids: set<nat>): (names: seq<string>)
    ensures |names| <= |perms|
    ensures ids == {} ==> names == []
    ensures forall n :: n in names <==> exists i :: 0 <= i < |perms| && perms[i].id in ids && perms[i].viewName == n
  {
    if perms == [] then []
    else
      var rest := ViewNamesOf(perms[1..], ids);
      assert forall i :: 0 < i < |perms| ==> perms[1..][i - 1] == perms[i];
      if perms[0].id in ids then [perms[0].viewName] + rest else rest
  }

  /** The report printed for the user, from the table as it then is. */
  function Summary(grants: set<Grant>, roles: seq<Role>, perms: seq<Permission>, userId: nat): (r: Report)
    ensures r.Reported?
    ensures r.roleIds == UserRoleIds(grants, userId) && r.permissionIds == UserPermissionIds(grants, userId)
    ensures r.roleNames == RoleNamesOf(roles, r.roleIds) && r.viewNames == ViewNamesOf(perms, r.permissionIds)
  {
    var roleIds := UserRoleIds(grants, userId);
    var permIds := UserPermissionIds(grants, userId);
    Reported(roleIds, permIds, RoleNamesOf(roles, roleIds), ViewNamesOf(perms, permIds))
  }

  /** The delete loop over the user's triples. */
  method DeleteUserGrants(db: Database, userId: nat)
    modifies db`grants
    ensures db.grants == WithoutUser(old(db.grants), userId)
  {
    var doomed := set g | g in db.grants && g.userId == userId;
    ghost var all := doomed;
    while doomed != {}
      invariant doomed <= all
      invariant db.grants == old(db.grants) - (all - doomed)
      decreases |doomed|
    {
      var g :| g in doomed;
      db.grants := db.grants - {g};
      doomed := doomed - {g};
    }
    assert db.grants == old(db.grants) - all;
    assert forall g :: g in all <==> g in old(db.grants) && g.userId == userId;
  }

  /** The add loop over the listed view names. */
  method AddResolved(db: Database, userId: nat, roleId: nat, names: seq<string>)
    modifies db`grants
    ensures db.grants == old(db.grants) + ResolvedGrants(userId, roleId, db.permissions, names)
  {
    for k := 0 to |names|
      invariant db.grants == old(db.grants) + ResolvedGrants(userId, roleId, db.permissions, names[..k])
    {
      assert names[..k + 1][..k] == names[..k];
      var id := Resolve(db.permissions, names[k]);
      if id.Some? {
        db.grants := db.grants + {Grant(userId, roleId, id.value)};
      }
    }
    assert names[..|names|] == names;
  }

  /** The script, over the `role_permissions` table it imports. A missing user or a
      missing 'Super-Admin' role changes nothing; otherwise every triple of the user is
      deleted before the table is consulted. */
  method Reassign(db: Database, table: map<string, seq<string>>) returns (report: Report)
    modifies db`grants
    ensures var user := First(db.users, HasUsername(TargetUsername));
            var role := First(db.roles, HasRoleName(SuperAdmin));
            (user.None? ==> report == UserNotFound && db.grants == old(db.grants))
            && (user.Some? && role.None? ==>
                  db.grants == old(db.grants)
                  && report == Summary(db.grants, db.roles, db.permissions, user.value.id))
            && (user.Some? && role.Some? && SuperAdmin !in table ==>
                  report == KeyErrorRaised(SuperAdmin)
                  && db.grants == WithoutUser(old(db.grants), user.value.id))
            && (user.Some? && role.Some? && SuperAdmin in table ==>
                  db.grants == WithoutUser(old(db.grants), user.value.id)
                               + ResolvedGrants(user.value.id, role.value.id, db.permissions, table[SuperAdmin])
                  && report == Summary(db.grants, db.roles, db.permissions, user.value.id))
  {
    var user := First(db.users, HasUsername(TargetUsername));
    if user.None? {
      return UserNotFound;
    }
    var role := First(db.roles, HasRoleName(SuperAdmin));
    if role.Some? {
      DeleteUserGrants(db, user.value.id);
      var names := Lookup(table, SuperAdmin);
      if names.Err? {
        return KeyErrorRaised(names.error);
      }
      AddResolved(db, user.value.id, role.value.id, names.value);
    }
    report := Summary(db.grants, db.roles, db.permissions, user.value.id);
  }

  /** The imported table has no 'Super-Admin' entry. */
  lemma SuperAdminNotInTable()
    ensures SuperAdmin !in InitRoles.RolePermissions
  {
  }

  /** The script as written: whenever the user and the role both exist, it deletes all of
      the user's triples and then stops on the `KeyError`, leaving the user with no
      triple at all and nothing reported. */
  method RunAsWritten(db: Database) returns (report: Report)
    modifies db`grants
    ensures var user := First(db.users, HasUsername(TargetUsername));
            user.Some? && First(db.roles, HasRoleName(SuperAdmin)).Some? ==>
              report == KeyErrorRaised(SuperAdmin)
              && (forall g :: g in db.grants ==> g.userId != user.value.id)
              && db.grants == WithoutUser(old(db.grants), user.value.id)
  {
    SuperAdminNotInTable();
    report := Reassign(db, InitRoles.RolePermissions);
  }

  /** The table the script evidently meant to import: the shared one with a
      'Super-Admin' entry listing every view. */
  const CorrectedTable := InitRoles.RolePermissions[SuperAdmin := InitRoles.PermissionNames]

  /** The corrected script: the user ends with exactly one Super-Admin triple per view
      that has a permission row and no other triple, other users keep theirs, and the
      report lists them. Without the user or the role nothing changes. */
  method RunCorrected(db: Database) returns (report: Report)
    modifies db`grants
    ensures var user := First(db.users, HasUsername(TargetUsername));
            var role := First(db.roles, HasRoleName(SuperAdmin));
            (user.None? || role.None? ==> db.grants == old(db.grants))
            && (user.None? ==> report == UserNotFound)
            && (user.Some? ==> report == Summary(db.grants, db.roles, db.permissions, user.value.id))
    ensures var user := First(db.users, HasUsername(TargetUsername));
            var role := First(db.roles, HasRoleName(SuperAdmin));
            user.Some? && role.Some? ==>
              forall g :: g in db.grants && g.userId == user.value.id ==>
                Listed(db.permissions, InitRoles.PermissionNames, g.permissionId)
    ensures var user := First(db.users, HasUsername(TargetUsername));
            var role := First(db.roles, HasRoleName(SuperAdmin));
            user.Some? && role.Some? ==>
              report.Reported?
              && (forall g: Grant :: g.userId != user.value.id ==> (g in db.grants <==> g in old(db.grants)))
              && (forall g :: g in db.grants && g.userId == user.value.id ==> g.roleId == role.value.id)
              && (forall k :: 0 <= k < |InitRoles.PermissionNames| && Resolve(db.permissions, InitRoles.PermissionNames[k]).Some? ==>
                    Grant(user.value.id, role.value.id, Resolve(db.permissions, InitRoles.PermissionNames[k]).value) in db.grants)
              && (role.value.id != 0 ==> report.roleIds <= {role.value.id})
  {
    report := Reassign(db, CorrectedTable);
    var user := First(db.users, HasUsername(TargetUsername));
    var role := First(db.roles, HasRoleName(SuperAdmin));
    if user.Some? && role.Some? {
      var names := CorrectedTable[SuperAdmin];
      assert names == InitRoles.PermissionNames;
      forall g: Grant | g.userId != user.value.id
        ensures g in db.grants <==> g in old(db.grants)
      {
        ResolvedGrantsMembers(user.value.id, role.value.id, db.permissions, names, g);
      }
      forall g | g in db.grants && g.userId == user.value.id
        ensures g.roleId == role.value.id && Listed(db.permissions, names, g.permissionId)
      {
        ResolvedGrantsMembers(user.value.id, role.value.id, db.permissions, names, g);
      }
      forall k | 0 <= k < |names| && Resolve(db.permissions, names[k]).Some?
        ensures Grant(user.value.id, role.value.id, Resolve(db.permissions, names[k]).value) in db.grants
      {
        var g := Grant(user.value.id, role.value.id, Resolve(db.permissions, names[k]).value);
        ResolvedGrantsMembers(user.value.id, role.value.id, db.permissions, names, g);
      }
    }
  }
}
