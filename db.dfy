/** The rows of the backend's SQLite database and the session that holds them. Each table
    is a sequence of rows in insertion order, which is the order an unordered `select`
    returns them in; the user-role-permission table is a set of id triples. */
module Db {
  import opened Common

  /** A `user` row, with the columns the backend reads or writes. */
  datatype User = User(
    id: nat, username: string, email: string, passwordHash: string,
    fullName: Option<string>, bio: Option<string>, avatar: Option<string>,
    createdAt: string, status: Option<string>)

  /** A `useranalytics` row: a customer record with its histories stored as JSON text. */
  datatype UserAnalytics = UserAnalytics(
    id: nat, number: string, name: string, email: string, status: string, region: string,
    segment: string, phase: string, createdAt: string,
    usageHistory: string, paymentHistory: string, alertHistory: string, recentActivity: string)

  datatype Role = Role(id: nat, name: string)

  datatype Permission = Permission(id: nat, viewName: string)

  /** A `userrolepermission` row. */
  datatype Grant = Grant(userId: nat, roleId: nat, permissionId: nat)

  /** `select(...).where(p).first()`: the position of the first row satisfying `p`. */
  function FirstIndex<T>(rows: seq<T>, p: T -> bool): (r: Option<nat>)
    ensures r.None? <==> forall i :: 0 <= i < |rows| ==> !p(rows[i])
    ensures r.Some? ==> r.value < |rows| && p(rows[r.value])
    ensures r.Some? ==> forall j :: 0 <= j < r.value ==> !p(rows[j])
  {
    if rows == [] then None
    else if p(rows[0]) then Some(0)
    else
      var rest := FirstIndex(rows[1..], p);
      if rest.None? then None else Some(rest.value + 1)
  }

  /** The first row satisfying `p`, if any. */
  function First<T>(rows: seq<T>, p: T -> bool): (r: Option<T>)
    ensures r.None? <==> forall i :: 0 <= i < |rows| ==> !p(rows[i])
    ensures r.Some? ==> r.value in rows && p(r.value)
    ensures r.Some? ==> exists i :: 0 <= i < |rows| && rows[i] == r.value && forall j :: 0 <= j < i ==> !p(rows[j])
  {
    var i := FirstIndex(rows, p);
    if i.None? then None else Some(rows[i.value])
  }

  /** Appending a row does not change which row is found first when one was already
      found. */
  lemma {:induction false} FirstAfterAppend<T>(rows: seq<T>, row: T, p: T -> bool)
    ensures FirstIndex(rows, p).Some? ==> FirstIndex(rows + [row], p) == FirstIndex(rows, p)
    ensures FirstIndex(rows, p).None? ==>
              FirstIndex(rows + [row], p) == (if p(row) then Some(|rows|) else None)
  {
    if rows != [] {
      assert (rows + [row])[1..] == rows[1..] + [row];
      FirstAfterAppend(rows[1..], row, p);
    }
  }

  /** Rows appended after a match do not change which row is found first. */
  lemma FirstIndexAfterGrowth<T>(rows: seq<T>, more: seq<T>, p: T -> bool)
    requires rows <= more && FirstIndex(rows, p).Some?
    ensures FirstIndex(more, p) == FirstIndex(rows, p)
    ensures First(more, p) == First(rows, p)
  {
    var i := FirstIndex(rows, p).value;
    assert more[i] == rows[i];
    assert forall j :: 0 <= j < i ==> more[j] == rows[j];
  }

  function HasUsername(name: string): User -> bool {
    (u: User) => u.username == name
  }

  function HasNumber(number: string): UserAnalytics -> bool {
    (a: UserAnalytics) => a.number == number
  }

  function HasRoleName(name: string): Role -> bool {
    (r: Role) => r.name == name
  }

  function HasViewName(name: string): Permission -> bool {
    (p: Permission) => p.viewName == name
  }

  function UserIds(users: seq<User>): (ids: seq<nat>)
    ensures |ids| == |users| && forall i :: 0 <= i < |users| ==> ids[i] == users[i].id
  {
    if users == [] then [] else [users[0].id] + UserIds(users[1..])
  }

  function RoleIds(roles: seq<Role>): (ids: seq<nat>)
    ensures |ids| == |roles| && forall i :: 0 <= i < |roles| ==> ids[i] == roles[i].id
  {
    if roles == [] then [] else [roles[0].id] + RoleIds(roles[1..])
  }

  function PermissionIds(perms: seq<Permission>): (ids: seq<nat>)
    ensures |ids| == |perms| && forall i :: 0 <= i < |perms| ==> ids[i] == perms[i].id
  {
    if perms == [] then [] else [perms[0].id] + PermissionIds(perms[1..])
  }

  /** The id SQLite gives the next row of a table: one more than the largest in use,
      1 for an empty table. */
  function NextId(ids: seq<nat>): (n: nat)
    ensures n > 0
    ensures forall i :: 0 <= i < |ids| ==> ids[i] < n
    ensures n == 1 || exists i :: 0 <= i < |ids| && ids[i] == n - 1
  {
    if ids == [] then 1
    else
      var rest := NextId(ids[1..]);
      if ids[0] + 1 > rest then ids[0] + 1 else rest
  }

  /** The open session: every table, changed in place by the handlers and scripts. */
  class Database {
    var users: seq<User>
    var analytics: seq<UserAnalytics>
    var roles: seq<Role>
    var permissions: seq<Permission>
    var grants: set<Grant>

    constructor (users: seq<User>, analytics: seq<UserAnalytics>, roles: seq<Role>,
                 permissions: seq<Permission>, grants: set<Grant>)
      ensures this.users == users && this.analytics == analytics && this.roles == roles
      ensures this.permissions == permissions && this.grants == grants
    {
      this.users := users;
      this.analytics := analytics;
      this.roles := roles;
      this.permissions := permissions;
      this.grants := grants;
    }
  }
}
