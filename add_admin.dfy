/** The seeding script add_admin.py: it makes sure the 'abhi' account exists and holds
    the Admin role with every permission, then creates three more accounts and gives each
    its role with every permission, replacing whatever that user had for that role. */
module AddAdmin {
  import opened Common
  import opened Db

  /** An entry of the script's `users_to_add` list. */
  datatype Account = Account(username: string, email: string, password: string, fullName: string, role: string)

  const UsersToAdd: seq<Account> := [
    Account("arjun2024", "arjun2024@example.com", "Arjun@2024!", "Arjun Mehra", "Admin"),
    Account("ishaana99", "ishaana99@example.com", "Ishaana@99!", "Ishaana Singh", "Analyst"),
    Account("pranav88", "pranav88@example.com", "Pranav@88!", "Pranav Reddy", "Inspector")
  ]

  const AdminAccount := Account("abhi", "abhi@123.com", "abhi@123", "abhi", "Admin")

  /** One triple for `userId` and `roleId` per permission row. */
  function GrantsFor(userId: nat, roleId: nat, perms: seq<Permission>): (gs: set<Grant>)
    ensures forall g :: g in gs <==>
              g.userId == userId && g.roleId == roleId
              && exists i :: 0 <= i < |perms| && perms[i].id == g.permissionId
  {
    if perms == [] then {}
    else
      var init := perms[..|perms| - 1];
      assert forall i :: 0 <= i < |init| ==> init[i] == perms[i];
      GrantsFor(userId, roleId, init) + {Grant(userId, roleId, perms[|perms| - 1].id)}
  }

  /** The table without the triples of one (user, role) pair. */
  function WithoutPair(grants: set<Grant>, userId: nat, roleId: nat): (gs: set<Grant>)
    ensures gs <= grants
    ensures forall g :: g in gs <==> g in grants && !(g.userId == userId && g.roleId == roleId)
  {
    set g | g in grants && !(g.userId == userId && g.roleId == roleId)
  }

  /** `username` has an account. */
  predicate HasAccount(users: seq<User>, username: string) {
    exists i :: 0 <= i < |users| && users[i].username == username
  }

  /** Looks `username` up and creates the account (status 'Active') only when it is
      absent. Afterwards the lookup finds the account returned, so running this again
      returns it and adds nothing. */
  method GetOrCreateUser(db: Database, account: Account, passwordHash: string, now: string)
    returns (user: User)
    modifies db`users
    ensures var found := First(old(db.users), HasUsername(account.username));
            (found.Some? ==> user == found.value && db.users == old(db.users))
            && (found.None? ==>
                  user == User(NextId(UserIds(old(db.users))), account.username, account.email,
                               passwordHash, Some(account.fullName), None, None, now, Some("Active"))
                  && db.users == old(db.users) + [user])
    ensures First(db.users, HasUsername(account.username)) == Some(user)
    ensures old(db.users) <= db.users && HasAccount(db.users, account.username)
    ensures HasAccount(old(db.users), account.username) ==> db.users == old(db.users)
  {
    var found := First(db.users, HasUsername(account.username));
    if found.Some? {
      user := found.value;
    } else {
      user := User(NextId(UserIds(db.users)), account.username, account.email,
                   passwordHash, Some(account.fullName), None, None, now, Some("Active"));
      FirstAfterAppend(db.users, user, HasUsername(account.username));
      db.users := db.users + [user];
    }
  }

  /** The Admin loop for 'abhi': each permission's triple is inserted only if absent. */
  method InsertMissingGrants(db: Database, userId: nat, roleId: nat)
    modifies db`grants
    ensures db.grants == old(db.grants) + GrantsFor(userId, roleId, db.permissions)
  {
    var perms := db.permissions;
    for i := 0 to |perms|
      invariant db.grants == old(db.grants) + GrantsFor(userId, roleId, perms[..i])
    {
      var triple := Grant(userId, roleId, perms[i].id);
      assert perms[..i + 1][..i] == perms[..i];
      if triple !in db.grants {
        db.grants := db.grants + {triple};
      }
    }
    assert perms[..|perms|] == perms;
  }

  /** The Admin step for 'abhi'. Afterwards every permission has its triple, and a rerun
      adds nothing. */
  method GrantAllIfAbsent(db: Database, userId: nat, roleId: nat)
    modifies db`grants
    ensures db.grants == old(db.grants) + GrantsFor(userId, roleId, db.permissions)
    ensures forall i :: 0 <= i < |db.permissions| ==> Grant(userId, roleId, db.permissions[i].id) in db.grants
    ensures GrantsFor(userId, roleId, db.permissions) <= old(db.grants) ==> db.grants == old(db.grants)
  {
    InsertMissingGrants(db, userId, roleId);
    forall i | 0 <= i < |db.permissions|
      ensures Grant(userId, roleId, db.permissions[i].id) in db.grants
    {
      assert Grant(userId, roleId, db.permissions[i].id) in GrantsFor(userId, roleId, db.permissions);
    }
  }

  /** The per-user step: delete the user's triples for the role, then insert one per
      permission. Triples of any other (user, role) pair are left as they were. */
  method ReassignRole(db: Database, userId: nat, roleId: nat)
    modifies db`grants
    ensures db.grants == WithoutPair(old(db.grants), userId, roleId) + GrantsFor(userId, roleId, db.permissions)
    ensures forall g: Grant :: g.userId == userId && g.roleId == roleId ==>
              (g in db.grants <==> exists i :: 0 <= i < |db.permissions| && db.permissions[i].id == g.permissionId)
    ensures forall g: Grant :: !(g.userId == userId && g.roleId == roleId) ==> (g in db.grants <==> g in old(db.grants))
  {
    db.grants := WithoutPair(db.grants, userId, roleId);
    var perms := db.permissions;
    for i := 0 to |perms|
      invariant db.grants == WithoutPair(old(db.grants), userId, roleId) + GrantsFor(userId, roleId, perms[..i])
    {
      assert perms[..i + 1][..i] == perms[..i];
      db.grants := db.grants + {Grant(userId, roleId, perms[i].id)};
    }
    assert perms[..|perms|] == perms;
  }

  /** One iteration of the `users_to_add` loop. A role that does not exist skips the
      user: no triple is added or deleted. */
  method AssignAccount(db: Database, account: Account, passwordHash: string, now: string)
    returns (user: User)
    modifies db`users, db`grants
    ensures First(db.users, HasUsername(account.username)) == Some(user)
    ensures db.users == old(db.users) || db.users == old(db.users) + [user]
    ensures old(db.users) <= db.users && HasAccount(db.users, account.username)
    ensures HasAccount(old(db.users), account.username) ==> db.users == old(db.users)
    ensures var role := First(db.roles, HasRoleName(account.role));
            (role.None? ==> db.grants == old(db.grants))
            && (role.Some? ==>
                  db.grants == WithoutPair(old(db.grants), user.id, role.value.id)
                               + GrantsFor(user.id, role.value.id, db.permissions))
  {
    user := GetOrCreateUser(db, account, passwordHash, now);
    var role := First(db.roles, HasRoleName(account.role));
    if role.Some? {
      ReassignRole(db, user.id, role.value.id);
    }
  }

  // ----- what the script does to the user-role-permission table -----

  /** The (user id, role id) pair a step of the script works on: the first account with
      the username and the first role with the name, when both exist. */
  function PairOf(users: seq<User>, roles: seq<Role>, account: Account): (p: Option<(nat, nat)>)
    ensures p.Some? <==> HasAccount(users, account.username) && First(roles, HasRoleName(account.role)).Some?
  {
    var user := First(users, HasUsername(account.username));
    var role := First(roles, HasRoleName(account.role));
    if user.Some? && role.Some? then Some((user.value.id, role.value.id)) else None
  }

  /** Rows appended to the users table do not change the pair of an account it had. */
  lemma PairOfAfterGrowth(users: seq<User>, more: seq<User>, roles: seq<Role>, account: Account)
    requires users <= more && HasAccount(users, account.username)
    ensures PairOf(more, roles, account) == PairOf(users, roles, account)
  {
    FirstIndexAfterGrowth(users, more, HasUsername(account.username));
  }

  /** The table after the Admin step for 'abhi': its missing Admin triples are added. */
  function AdminStep(grants: set<Grant>, users: seq<User>, roles: seq<Role>, perms: seq<Permission>): set<Grant> {
    var p := PairOf(users, roles, AdminAccount);
    if p.None? then grants else grants + GrantsFor(p.value.0, p.value.1, perms)
  }

  /** The table after one iteration of the `users_to_add` loop. */
  function AccountStep(grants: set<Grant>, users: seq<User>, roles: seq<Role>, perms: seq<Permission>,
                       account: Account): set<Grant> {
    var p := PairOf(users, roles, account);
    if p.None? then grants else WithoutPair(grants, p.value.0, p.value.1) + GrantsFor(p.value.0, p.value.1, perms)
  }

  /** The table after the iterations for `accounts`, in order. */
  function AccountSteps(grants: set<Grant>, users: seq<User>, roles: seq<Role>, perms: seq<Permission>,
                        accounts: seq<Account>): set<Grant>
    decreases |accounts|
  {
    if accounts == [] then grants
    else
      AccountStep(AccountSteps(grants, users, roles, perms, accounts[..|accounts| - 1]),
                  users, roles, perms, accounts[|accounts| - 1])
  }

  /** The pairs those iterations work on. */
  function StepPairs(users: seq<User>, roles: seq<Role>, accounts: seq<Account>): set<(nat, nat)>
    decreases |accounts|
  {
    if accounts == [] then {}
    else
      var p := PairOf(users, roles, accounts[|accounts| - 1]);
      StepPairs(users, roles, accounts[..|accounts| - 1]) + (if p.Some? then {p.value} else {})
  }

  /** A pair is worked on exactly when some listed account has it. */
  lemma {:induction false} StepPairsMembers(users: seq<User>, roles: seq<Role>, accounts: seq<Account>)
    ensures forall p :: p in StepPairs(users, roles, accounts) <==>
              exists k :: 0 <= k < |accounts| && PairOf(users, roles, accounts[k]) == Some(p)
    decreases |accounts|
  {
    if accounts != [] {
      var init := accounts[..|accounts| - 1];
      assert forall k :: 0 <= k < |init| ==> init[k] == accounts[k];
      StepPairsMembers(users, roles, init);
    }
  }

  /** The table after the whole script. */
  function RunGrants(grants: set<Grant>, users: seq<User>, roles: seq<Role>, perms: seq<Permission>): set<Grant> {
    AccountSteps(AdminStep(grants, users, roles, perms), users, roles, perms, UsersToAdd)
  }

  /** After the loop, each pair it worked on holds exactly one triple per permission,
      whatever it held before and however often it came up; every other triple is as it
      was. */
  lemma {:induction false} AccountStepsMembers(grants: set<Grant>, users: seq<User>, roles: seq<Role>,
                                               perms: seq<Permission>, accounts: seq<Account>)
    ensures forall g: Grant :: (g.userId, g.roleId) in StepPairs(users, roles, accounts) ==>
              (g in AccountSteps(grants, users, roles, perms, accounts) <==>
                 exists i :: 0 <= i < |perms| && perms[i].id == g.permissionId)
    ensures forall g: Grant :: (g.userId, g.roleId) !in StepPairs(users, roles, accounts) ==>
              (g in AccountSteps(grants, users, roles, perms, accounts) <==> g in grants)
    decreases |accounts|
  {
    if accounts != [] {
      var init := accounts[..|accounts| - 1];
      assert forall k :: 0 <= k < |init| ==> init[k] == accounts[k];
      AccountStepsMembers(grants, users, roles, perms, init);
    }
  }

  /** The loop's outcome, computed over a users table that grew afterwards, is the same
      when every account it names was already there. */
  lemma {:induction false} AccountStepsAfterGrowth(grants: set<Grant>, users: seq<User>, more: seq<User>,
                                                   roles: seq<Role>, perms: seq<Permission>, accounts: seq<Account>)
    requires users <= more
    requires forall k :: 0 <= k < |accounts| ==> HasAccount(users, accounts[k].username)
    ensures AccountSteps(grants, more, roles, perms, accounts) == AccountSteps(grants, users, roles, perms, accounts)
    decreases |accounts|
  {
    if accounts != [] {
      var init := accounts[..|accounts| - 1];
      assert forall k :: 0 <= k < |init| ==> init[k] == accounts[k];
      AccountStepsAfterGrowth(grants, users, more, roles, perms, init);
      PairOfAfterGrowth(users, more, roles, accounts[|accounts| - 1]);
    }
  }

  /** What the script leaves in the table: the pairs of the listed accounts hold exactly
      one triple per permission; 'abhi' holds every Admin triple (it may hold others it
      had); every other triple is as it was. */
  lemma RunGrantsMembers(grants: set<Grant>, users: seq<User>, roles: seq<Role>, perms: seq<Permission>)
    ensures var r := RunGrants(grants, users, roles, perms);
            var ps := StepPairs(users, roles, UsersToAdd);
            var admin := PairOf(users, roles, AdminAccount);
            (forall g: Grant :: (g.userId, g.roleId) in ps ==>
               (g in r <==> exists i :: 0 <= i < |perms| && perms[i].id == g.permissionId))
            && (forall g: Grant :: (g.userId, g.roleId) !in ps && admin == Some((g.userId, g.roleId)) ==>
                  (g in r <==> g in grants || exists i :: 0 <= i < |perms| && perms[i].id == g.permissionId))
            && (forall g: Grant :: (g.userId, g.roleId) !in ps && admin != Some((g.userId, g.roleId)) ==>
                  (g in r <==> g in grants))
            && (admin.Some? ==> GrantsFor(admin.value.0, admin.value.1, perms) <= r)
  {
    AccountStepsMembers(AdminStep(grants, users, roles, perms), users, roles, perms, UsersToAdd);
  }

  /** Running the script on the table it produced changes nothing more. */
  lemma RunGrantsIdempotent(grants: set<Grant>, users: seq<User>, roles: seq<Role>, perms: seq<Permission>)
    ensures RunGrants(RunGrants(grants, users, roles, perms), users, roles, perms) == RunGrants(grants, users, roles, perms)
  {
    var once := RunGrants(grants, users, roles, perms);
    RunGrantsMembers(grants, users, roles, perms);
    RunGrantsMembers(once, users, roles, perms);
  }

  /** The first part of the script: the 'abhi' account and its Admin triples. */
  method SeedAdmin(db: Database, hash: string -> string, now: string)
    modifies db`users, db`grants
    ensures old(db.users) <= db.users && HasAccount(db.users, AdminAccount.username)
    ensures HasAccount(old(db.users), AdminAccount.username) ==> db.users == old(db.users)
    ensures db.grants == AdminStep(old(db.grants), db.users, db.roles, db.permissions)
  {
    var admin := GetOrCreateUser(db, AdminAccount, hash(AdminAccount.password), now);
    var adminRole := First(db.roles, HasRoleName("Admin"));
    if adminRole.Some? {
      GrantAllIfAbsent(db, admin.id, adminRole.value.id);
    }
  }

  /** Every account of `users_to_add` exists. */
  predicate AllListed(users: seq<User>) {
    forall k :: 0 <= k < |UsersToAdd| ==> HasAccount(users, UsersToAdd[k].username)
  }

  /** A table that only grew keeps every account it had. */
  lemma GrowthKeepsAccounts(before: seq<User>, after: seq<User>, username: string)
    requires before <= after && HasAccount(before, username)
    ensures HasAccount(after, username)
  {
    var i :| 0 <= i < |before| && before[i].username == username;
    assert after[i] == before[i];
  }

  /** One iteration of the `users_to_add` loop, with what it keeps of the loop's
      invariant. */
  method AssignListed(db: Database, k: nat, hash: string -> string, now: string)
    requires k < |UsersToAdd|
    requires forall j :: 0 <= j < k ==> HasAccount(db.users, UsersToAdd[j].username)
    modifies db`users, db`grants
    ensures old(db.users) <= db.users
    ensures forall j :: 0 <= j <= k ==> HasAccount(db.users, UsersToAdd[j].username)
    ensures HasAccount(old(db.users), UsersToAdd[k].username) ==> db.users == old(db.users)
    ensures forall start :: AccountSteps(start, old(db.users), db.roles, db.permissions, UsersToAdd[..k]) == old(db.grants)
              ==> AccountSteps(start, db.users, db.roles, db.permissions, UsersToAdd[..k + 1]) == db.grants
  {
    var account := UsersToAdd[k];
    ghost var before := db.users;
    ghost var beforeGrants := db.grants;
    var user := AssignAccount(db, account, hash(account.password), now);
    forall j | 0 <= j < k
      ensures HasAccount(db.users, UsersToAdd[j].username)
    {
      GrowthKeepsAccounts(before, db.users, UsersToAdd[j].username);
    }
    assert db.grants == AccountStep(beforeGrants, db.users, db.roles, db.permissions, account);
    assert UsersToAdd[..k + 1][..k] == UsersToAdd[..k];
    assert forall j :: 0 <= j < k ==> UsersToAdd[..k][j] == UsersToAdd[j];
    forall start
      ensures AccountSteps(start, before, db.roles, db.permissions, UsersToAdd[..k]) == beforeGrants
              ==> AccountSteps(start, db.users, db.roles, db.permissions, UsersToAdd[..k + 1]) == db.grants
    {
      AccountStepsAfterGrowth(start, before, db.users, db.roles, db.permissions, UsersToAdd[..k]);
    }
  }

  /** The `users_to_add` loop. */
  method SeedAccounts(db: Database, hash: string -> string, now: string)
    modifies db`users, db`grants
    ensures old(db.users) <= db.users && AllListed(db.users)
    ensures AllListed(old(db.users)) ==> db.users == old(db.users)
    ensures db.grants == AccountSteps(old(db.grants), db.users, db.roles, db.permissions, UsersToAdd)
  {
    for k := 0 to |UsersToAdd|
      invariant old(db.users) <= db.users
      invariant forall j :: 0 <= j < k ==> HasAccount(db.users, UsersToAdd[j].username)
      invariant AllListed(old(db.users)) ==> db.users == old(db.users)
      invariant db.grants == AccountSteps(old(db.grants), db.users, db.roles, db.permissions, UsersToAdd[..k])
    {
      AssignListed(db, k, hash, now);
    }
    assert UsersToAdd[..|UsersToAdd|] == UsersToAdd;
  }

  /** The whole script. `hash` is `get_password_hash`, `now` the creation time of any
      row added. The role and permission tables are only read. After it every account
      the script names exists, and the table holds what `RunGrants` describes; when the
      accounts all existed before, no account is added, so by `RunGrantsIdempotent` a
      second run changes nothing. */
  method Run(db: Database, hash: string -> string, now: string)
    modifies db`users, db`grants
    ensures old(db.users) <= db.users
    ensures HasAccount(db.users, AdminAccount.username) && AllListed(db.users)
    ensures HasAccount(old(db.users), AdminAccount.username) && AllListed(old(db.users))
            ==> db.users == old(db.users)
    ensures db.grants == RunGrants(old(db.grants), db.users, db.roles, db.permissions)
  {
    SeedAdmin(db, hash, now);
    ghost var middle := db.users;
    SeedAccounts(db, hash, now);
    GrowthKeepsAccounts(middle, db.users, AdminAccount.username);
    PairOfAfterGrowth(middle, db.users, db.roles, AdminAccount);
    if AllListed(old(db.users)) {
      forall k | 0 <= k < |UsersToAdd|
        ensures HasAccount(middle, UsersToAdd[k].username)
      {
        GrowthKeepsAccounts(old(db.users), middle, UsersToAdd[k].username);
      }
    }
  }
}
