/** `SeedDefaults`: the startup reconciliation that makes the baseline permissions, the
    "admin" and "user" roles with their grants, and the bootstrap admin account exist.
    Every step is a find-or-create or a replace, so the routine converges: its result is
    a `Seeded` store, and seeding a `Seeded` store changes nothing. */
module Seeding {
  import opened Strings
  import opened Models
  import opened Collaborators

  const BaselinePermissions: seq<PermissionRecord> := [
    PermissionRecord("user:read", "Read users"),
    PermissionRecord("user:create", "Create users"),
    PermissionRecord("post:create", "Create posts"),
    PermissionRecord("post:read", "Read posts")
  ]

  const AdminRole := RoleRecord("admin", "Administrator")
  const UserRoleRecord := RoleRecord("user", "Regular user")
  const AdminUsername := "admin"
  const AdminEmail := "admin@example.com"
  const AdminPassword := "password"
  const ReadSuffix := ":read"

  /** Exactly one role carries this name. */
  predicate RoleNamedOnce(s: Store, name: string)
  {
    exists a :: a in s.roles && s.roles[a].name == name && forall b :: b in s.roles && s.roles[b].name == name ==> b == a
  }

  /** The permissions matched by `LIKE '%:read'`. */
  function ReadPermissionIds(s: Store): set<Id>
  {
    set id | id in s.permissions && HasSuffix(s.permissions[id].name, ReadSuffix)
  }

  /** `t` differs from `s` only by new permission rows, each one of `ps` whose name `s` lacked. */
  predicate PermissionsGrown(s: Store, t: Store, ps: seq<PermissionRecord>)
  {
    && t.(permissions := s.permissions, nextPermissionId := s.nextPermissionId) == s
    && (forall id :: id in s.permissions ==> id in t.permissions && t.permissions[id] == s.permissions[id])
    && (forall id :: id in t.permissions && id !in s.permissions ==>
          t.permissions[id] in ps && !HasPermissionNamed(s, t.permissions[id].name))
  }

  // ---------------------------------------------------------------------------
  // Step 1: the baseline permissions, created when their name is not found

  function EnsurePermission(s: Store, p: PermissionRecord): (t: Store)
    requires Valid(s)
    ensures Valid(t) && PermissionsGrown(s, t, [p])
    ensures s.online ==> HasPermissionNamed(t, p.name)
    ensures HasPermissionNamed(s, p.name) || !s.online ==> t == s
  {
    match FindPermissionByName(s, p.name)
    case Err(NotFound) =>
      (match InsertPermission(s, p)
       case Ok(created) => created.0
       case Err(_) => s)
    case _ => s
  }

  function EnsurePermissions(s: Store, ps: seq<PermissionRecord>): (t: Store)
    requires Valid(s)
    decreases |ps|
    ensures Valid(t) && PermissionsGrown(s, t, ps)
    ensures t.roles == s.roles && t.rolePermissions == s.rolePermissions && t.online == s.online
    ensures t.users == s.users && t.userRoles == s.userRoles && t.nextUserId == s.nextUserId
    ensures s.online ==> forall p :: p in ps ==> HasPermissionNamed(t, p.name)
    ensures (forall p :: p in ps ==> HasPermissionNamed(s, p.name)) || !s.online ==> t == s
  {
    if |ps| == 0 then s
    else
      var s1 := EnsurePermission(s, ps[0]);
      var t := EnsurePermissions(s1, ps[1..]);
      assert forall p :: p in ps <==> p == ps[0] || p in ps[1..];
      assert forall n :: HasPermissionNamed(s1, n) ==> HasPermissionNamed(t, n) by {
        forall n | HasPermissionNamed(s1, n) ensures HasPermissionNamed(t, n) {
          var id :| id in s1.permissions && s1.permissions[id].name == n;
          assert t.permissions[id] == s1.permissions[id];
        }
      }
      assert forall n :: HasPermissionNamed(s, n) ==> HasPermissionNamed(s1, n) by {
        forall n | HasPermissionNamed(s, n) ensures HasPermissionNamed(s1, n) {
          var id :| id in s.permissions && s.permissions[id].name == n;
          assert s1.permissions[id] == s.permissions[id];
        }
      }
      t
  }

  // ---------------------------------------------------------------------------
  // Step 2: the two roles, by `FirstOrCreate` on the name

  /** The primary key of a struct that was never saved. */
  const UnsetId: Id := 0

  /** The role's id, or `UnsetId` when the call failed. */
  function FirstOrCreateRole(s: Store, rec: RoleRecord): (r: (Store, Id))
    requires Valid(s)
    ensures Valid(r.0)
    ensures r.0.(roles := s.roles, nextRoleId := s.nextRoleId) == s
    ensures !s.online ==> r == (s, UnsetId)
    ensures s.online ==> r.1 in r.0.roles && r.0.roles[r.1].name == rec.name
    ensures forall id :: id in s.roles ==> id in r.0.roles && r.0.roles[id] == s.roles[id]
    ensures forall id :: id in r.0.roles && id !in s.roles ==> id == r.1 && r.0.roles[id] == rec
    ensures (exists id :: id in s.roles && s.roles[id].name == rec.name) ==> r.0 == s
  {
    match FindRoleByName(s, rec.name)
    case Ok(id) => (s, id)
    case Err(NotFound) =>
      (match InsertRole(s, rec)
       case Ok(created) => created
       case Err(_) => (s, UnsetId))
    case Err(_) => (s, UnsetId)
  }

  datatype SeededRoles = SeededRoles(store: Store, admin: Id, user: Id)

  function SeedRoles(s: Store): (r: SeededRoles)
    requires Valid(s)
    ensures Valid(r.store)
    ensures r.store.(roles := s.roles, nextRoleId := s.nextRoleId) == s
    ensures r.store.permissions == s.permissions && r.store.online == s.online
    ensures r.store.rolePermissions == s.rolePermissions && r.store.users == s.users
    ensures r.store.userRoles == s.userRoles && r.store.nextUserId == s.nextUserId
    ensures !s.online ==> r == SeededRoles(s, UnsetId, UnsetId)
    ensures s.online ==> r.admin in r.store.roles && r.store.roles[r.admin].name == AdminRole.name
    ensures s.online ==> r.user in r.store.roles && r.store.roles[r.user].name == UserRoleRecord.name
    ensures forall id :: id in s.roles ==> id in r.store.roles && r.store.roles[id] == s.roles[id]
    ensures forall id :: id in r.store.roles && id !in s.roles ==>
      r.store.roles[id] == AdminRole || r.store.roles[id] == UserRoleRecord
  {
    var a := FirstOrCreateRole(s, AdminRole);
    var u := FirstOrCreateRole(a.0, UserRoleRecord);
    SeededRoles(u.0, a.1, u.1)
  }

  // ---------------------------------------------------------------------------
  // Step 3: the grants, replaced when any permission exists

  /** `db.Find(&allPerms)`: every permission id, none when the call fails. */
  function FindAllPermissions(s: Store): (r: set<Id>)
    ensures forall id :: id in r <==> s.online && id in s.permissions
  {
    if s.online then s.permissions.Keys else {}
  }

  /** `db.Where("name LIKE ?", "%:read").Find(&readPerms)`. */
  function FindReadPermissions(s: Store): (r: set<Id>)
    ensures r <= FindAllPermissions(s)
    ensures forall id :: id in r <==>
      s.online && id in s.permissions && exists head :: head + ReadSuffix == s.permissions[id].name
  {
    if s.online then ReadPermissionIds(s) else {}
  }

  function GrantDefaults(s: Store, admin: Id, user: Id): (t: Store)
    requires Valid(s)
    ensures Valid(t)
    ensures t.(rolePermissions := s.rolePermissions) == s
    ensures t.permissions == s.permissions && t.roles == s.roles && t.online == s.online
    ensures !s.online || s.permissions.Keys == {} ==> t == s
    ensures s.online && s.permissions.Keys != {} && admin in s.roles && user in s.roles && admin != user ==>
      PermissionIdsOf(t, admin) == s.permissions.Keys && PermissionIdsOf(t, user) == ReadPermissionIds(s)
    ensures forall other :: other != admin && other != user ==> PermissionIdsOf(t, other) == PermissionIdsOf(s, other)
  {
    var allPerms := FindAllPermissions(s);
    if allPerms != {} then
      var s1 := ReplaceRolePermissions(s, admin, allPerms);
      ReplaceRolePermissions(s1, user, FindReadPermissions(s1))
    else s
  }

  // ---------------------------------------------------------------------------
  // Step 4: the admin account, created when no user is named "admin"

  function SeedAdminUser(s: Store, adminRole: Id, hash: string -> HashOutcome): (t: Store)
    requires Valid(s)
    ensures Valid(t)
    ensures t.(users := s.users, userRoles := s.userRoles, nextUserId := s.nextUserId) == s
    ensures t.permissions == s.permissions && t.roles == s.roles && t.rolePermissions == s.rolePermissions
    ensures var creates := s.online && !HasUserNamed(s, AdminUsername) && !HasUserWithEmail(s, AdminEmail);
      && (creates ==> t.users == s.users[s.nextUserId := UserRecord(AdminUsername, AdminEmail, hash(AdminPassword).digest)])
      && (creates && adminRole in s.roles ==> t.userRoles == s.userRoles + {UserRole(s.nextUserId, adminRole)})
      && (creates && adminRole !in s.roles ==> t.userRoles == s.userRoles)
      && (!creates ==> t == s)
  {
    match FindUserByUsername(s, AdminUsername)
    case Err(NotFound) =>
      (match InsertUser(s, UserRecord(AdminUsername, AdminEmail, hash(AdminPassword).digest))
       case Ok(created) => AppendUserRole(created.0, created.1, adminRole)
       case Err(_) => s)
    case _ => s
  }

  // ---------------------------------------------------------------------------
  // The routine

  function SeedDefaults(s: Store, x: Services): (t: Store)
    requires Valid(s)
    ensures Valid(t)
    ensures !s.online ==> t == s
  {
    var s1 := EnsurePermissions(s, BaselinePermissions);
    var r := SeedRoles(s1);
    var s3 := GrantDefaults(r.store, r.admin, r.user);
    SeedAdminUser(s3, r.admin, x.hashPassword)
  }

  /** The state seeding reconciles towards. */
  ghost predicate Seeded(t: Store)
  {
    && t.online && Valid(t)
    && (forall p :: p in BaselinePermissions ==> HasPermissionNamed(t, p.name))
    && (exists a, u ::
          && a in t.roles && t.roles[a].name == AdminRole.name
          && u in t.roles && t.roles[u].name == UserRoleRecord.name
          && PermissionIdsOf(t, a) == t.permissions.Keys
          && PermissionIdsOf(t, u) == ReadPermissionIds(t))
    && (HasUserNamed(t, AdminUsername) || HasUserWithEmail(t, AdminEmail))
  }

  /** The store the admin-account step starts from in a run on a reachable store that is
      up: baseline present, both roles present with their grants. */
  ghost predicate GrantsInPlace(s3: Store, a: Id, u: Id)
  {
    && Valid(s3) && s3.online
    && a in s3.roles && s3.roles[a].name == AdminRole.name
    && u in s3.roles && s3.roles[u].name == UserRoleRecord.name
    && PermissionIdsOf(s3, a) == s3.permissions.Keys
    && PermissionIdsOf(s3, u) == ReadPermissionIds(s3)
    && (forall p :: p in BaselinePermissions ==> HasPermissionNamed(s3, p.name))
  }

  /** The first three stages of one run establish the grants. */
  lemma SeedStages(s: Store, x: Services)
    requires Valid(s) && s.online
    ensures var s1 := EnsurePermissions(s, BaselinePermissions);
      var r := SeedRoles(s1);
      var s3 := GrantDefaults(r.store, r.admin, r.user);
      && SeedDefaults(s, x) == SeedAdminUser(s3, r.admin, x.hashPassword)
      && GrantsInPlace(s3, r.admin, r.user)
  {
    var s1 := EnsurePermissions(s, BaselinePermissions);
    var r := SeedRoles(s1);
    GrantStageEstablishes(s1, r);
  }

  lemma GrantStageEstablishes(s1: Store, r: SeededRoles)
    requires Valid(s1) && s1.online && r == SeedRoles(s1)
    requires forall p :: p in BaselinePermissions ==> HasPermissionNamed(s1, p.name)
    ensures GrantsInPlace(GrantDefaults(r.store, r.admin, r.user), r.admin, r.user)
  {
    assert BaselinePermissions[0] in BaselinePermissions;
    assert HasPermissionNamed(s1, BaselinePermissions[0].name);
    var s3 := GrantDefaults(r.store, r.admin, r.user);
    forall p | p in BaselinePermissions ensures HasPermissionNamed(s3, p.name) {
      assert HasPermissionNamed(s1, p.name);
    }
  }

  /** The admin-account step keeps the grants and leaves an account named "admin", or one
      holding its email, behind. */
  lemma AdminStageSeeds(s3: Store, a: Id, u: Id, hash: string -> HashOutcome)
    requires GrantsInPlace(s3, a, u)
    ensures Seeded(SeedAdminUser(s3, a, hash))
  {
    var t := SeedAdminUser(s3, a, hash);
    assert t.permissions == s3.permissions && t.roles == s3.roles && t.rolePermissions == s3.rolePermissions;
    assert PermissionIdsOf(t, a) == PermissionIdsOf(s3, a);
    assert PermissionIdsOf(t, u) == PermissionIdsOf(s3, u);
    assert ReadPermissionIds(t) == ReadPermissionIds(s3);
    forall p | p in BaselinePermissions ensures HasPermissionNamed(t, p.name) {
      assert HasPermissionNamed(s3, p.name);
    }
    if !HasUserNamed(s3, AdminUsername) && !HasUserWithEmail(s3, AdminEmail) {
      assert t.users[s3.nextUserId].username == AdminUsername;
    } else if HasUserNamed(s3, AdminUsername) {
      assert t == s3;
    } else {
      assert t == s3;
    }
  }

  /** Seeding a reachable store that is up yields a `Seeded` store. */
  lemma {:induction false} SeedEstablishesSeeded(s: Store, x: Services)
    requires Valid(s) && s.online
    ensures Seeded(SeedDefaults(s, x))
  {
    SeedStages(s, x);
    var r := SeedRoles(EnsurePermissions(s, BaselinePermissions));
    AdminStageSeeds(GrantDefaults(r.store, r.admin, r.user), r.admin, r.user, x.hashPassword);
  }

  /** Replacing a role's permissions by the ones it already holds changes nothing. */
  lemma ReplaceWithCurrentIsIdentity(s: Store, rid: Id)
    requires Valid(s)
    ensures ReplaceRolePermissions(s, rid, PermissionIdsOf(s, rid)) == s
  {
    var pids := PermissionIdsOf(s, rid);
    if s.online && rid in s.roles && pids <= s.permissions.Keys {
      var kept := set e | e in s.rolePermissions && e.roleId != rid;
      var added := set p | p in pids :: RolePermission(rid, p);
      forall e | e in s.rolePermissions ensures e in kept + added {
        if e.roleId == rid {
          assert e.permissionId in pids;
          assert e == RolePermission(rid, e.permissionId);
        }
      }
      assert kept + added == s.rolePermissions;
    }
  }

  /** On a `Seeded` store both find-or-create calls find, and return the existing roles. */
  lemma RolesFound(t: Store, a: Id, u: Id)
    requires Valid(t) && t.online
    requires a in t.roles && t.roles[a].name == AdminRole.name
    requires u in t.roles && t.roles[u].name == UserRoleRecord.name
    ensures SeedRoles(t) == SeededRoles(t, a, u)
  {
    var ra := FirstOrCreateRole(t, AdminRole);
    assert ra.0 == t;
    var ru := FirstOrCreateRole(t, UserRoleRecord);
    assert ru.0 == t;
  }

  /** Re-granting what a `Seeded` store already grants changes nothing. */
  lemma GrantsUnchanged(t: Store, a: Id, u: Id)
    requires GrantsInPlace(t, a, u)
    ensures GrantDefaults(t, a, u) == t
  {
    assert t.permissions.Keys != {} by {
      assert BaselinePermissions[0] in BaselinePermissions;
      assert HasPermissionNamed(t, BaselinePermissions[0].name);
    }
    ReplaceWithCurrentIsIdentity(t, a);
    ReplaceWithCurrentIsIdentity(t, u);
  }

  /** A `Seeded` store is a fixpoint of seeding. */
  lemma {:induction false} SeedFixesSeeded(t: Store, x: Services)
    requires Seeded(t)
    ensures SeedDefaults(t, x) == t
  {
    var a, u :|
      && a in t.roles && t.roles[a].name == AdminRole.name
      && u in t.roles && t.roles[u].name == UserRoleRecord.name
      && PermissionIdsOf(t, a) == t.permissions.Keys
      && PermissionIdsOf(t, u) == ReadPermissionIds(t);
    assert EnsurePermissions(t, BaselinePermissions) == t;
    RolesFound(t, a, u);
    GrantsUnchanged(t, a, u);
    assert SeedAdminUser(t, a, x.hashPassword) == t;
  }

  /** Seeding twice yields the same store as seeding once. */
  lemma SeedIdempotent(s: Store, x: Services)
    requires Valid(s)
    ensures SeedDefaults(SeedDefaults(s, x), x) == SeedDefaults(s, x)
  {
    if s.online {
      SeedEstablishesSeeded(s, x);
      SeedFixesSeeded(SeedDefaults(s, x), x);
    }
  }

  // ---------------------------------------------------------------------------
  // The post-state of one run, property by property

  /** The stores between the stages of one run. */
  datatype Run = Run(afterPermissions: Store, roles: SeededRoles, afterGrants: Store, result: Store)

  function Stages(s: Store, x: Services): (r: Run)
    requires Valid(s)
    ensures r.result == SeedDefaults(s, x)
  {
    var s1 := EnsurePermissions(s, BaselinePermissions);
    var r := SeedRoles(s1);
    var s3 := GrantDefaults(r.store, r.admin, r.user);
    Run(s1, r, s3, SeedAdminUser(s3, r.admin, x.hashPassword))
  }

  /** All four baseline permissions exist afterwards; every permission row already present
      is kept as it was, and every new row is a baseline record whose name was absent. */
  lemma SeedPermissions(s: Store, x: Services)
    requires Valid(s) && s.online
    ensures var t := SeedDefaults(s, x);
      && (forall p :: p in BaselinePermissions ==> HasPermissionNamed(t, p.name))
      && (forall id :: id in s.permissions ==> id in t.permissions && t.permissions[id] == s.permissions[id])
      && (forall id :: id in t.permissions && id !in s.permissions ==>
            t.permissions[id] in BaselinePermissions && !HasPermissionNamed(s, t.permissions[id].name))
  {
    var run := Stages(s, x);
    assert run.result.permissions == run.afterPermissions.permissions;
    forall p | p in BaselinePermissions ensures HasPermissionNamed(run.result, p.name) {
      assert HasPermissionNamed(run.afterPermissions, p.name);
    }
  }

  /** Exactly one "admin" and one "user" role exist afterwards; the roles already present
      are kept, and any new role is one of those two. */
  lemma SeedRolesOnce(s: Store, x: Services)
    requires Valid(s) && s.online
    ensures var t := SeedDefaults(s, x);
      && RoleNamedOnce(t, AdminRole.name) && RoleNamedOnce(t, UserRoleRecord.name)
      && (forall id :: id in s.roles ==> id in t.roles && t.roles[id] == s.roles[id])
      && (forall id :: id in t.roles && id !in s.roles ==> t.roles[id] == AdminRole || t.roles[id] == UserRoleRecord)
  {
    var run := Stages(s, x);
    var t := run.result;
    assert t.roles == run.roles.store.roles;
    assert run.roles.store.(roles := run.afterPermissions.roles, nextRoleId := run.afterPermissions.nextRoleId) == run.afterPermissions;
    assert run.afterPermissions.roles == s.roles;
    assert Valid(t);
    assert run.roles.admin in t.roles && t.roles[run.roles.admin].name == AdminRole.name;
    assert run.roles.user in t.roles && t.roles[run.roles.user].name == UserRoleRecord.name;
  }

  /** Afterwards the admin role holds every permission and the user role exactly the
      permissions whose name ends in ":read", whatever either held before. */
  lemma SeedGrants(s: Store, x: Services)
    requires Valid(s) && s.online
    ensures var t := SeedDefaults(s, x);
      forall a :: a in t.roles ==>
        && (t.roles[a].name == AdminRole.name ==> PermissionIdsOf(t, a) == t.permissions.Keys)
        && (t.roles[a].name == UserRoleRecord.name ==> PermissionIdsOf(t, a) == ReadPermissionIds(t))
  {
    SeedEstablishesSeeded(s, x);
  }

  /** Of the baseline names, exactly "user:read" and "post:read" end in ":read". */
  lemma BaselineReadNames()
    ensures forall p :: p in BaselinePermissions ==>
      (HasSuffix(p.name, ReadSuffix) <==> p.name == "user:read" || p.name == "post:read")
  {
    assert !HasSuffix("user:create", ReadSuffix) by { assert "user:create"[6..] != ReadSuffix; }
    assert !HasSuffix("post:create", ReadSuffix) by { assert "post:create"[6..] != ReadSuffix; }
    assert HasSuffix("user:read", ReadSuffix) by { assert "user:read"[4..] == ReadSuffix; }
    assert HasSuffix("post:read", ReadSuffix) by { assert "post:read"[4..] == ReadSuffix; }
  }

  /** In a store whose permissions are the baseline ones, the read grants name exactly
      "user:read" and "post:read". */
  lemma ReadGrantsOfBaseline(t: Store, u: Id)
    requires forall id :: id in t.permissions ==> t.permissions[id] in BaselinePermissions
    requires forall p :: p in BaselinePermissions ==> HasPermissionNamed(t, p.name)
    requires PermissionIdsOf(t, u) == ReadPermissionIds(t)
    ensures (set pid | pid in PermissionIdsOf(t, u) :: t.permissions[pid].name) == {"user:read", "post:read"}
  {
    BaselineReadNames();
    var names := set pid | pid in PermissionIdsOf(t, u) :: t.permissions[pid].name;
    forall n | n in names ensures n == "user:read" || n == "post:read" {
      var pid :| pid in PermissionIdsOf(t, u) && t.permissions[pid].name == n;
      assert t.permissions[pid] in BaselinePermissions;
    }
    assert BaselinePermissions[0] in BaselinePermissions && BaselinePermissions[3] in BaselinePermissions;
    assert HasPermissionNamed(t, "user:read") && HasPermissionNamed(t, "post:read");
    var r :| r in t.permissions && t.permissions[r].name == "user:read";
    assert r in ReadPermissionIds(t);
    var q :| q in t.permissions && t.permissions[q].name == "post:read";
    assert q in ReadPermissionIds(t);
    assert "user:read" in names && "post:read" in names;
  }

  /** Seeding a store whose permissions are all baseline records, the empty store among
      them, gives the user role exactly "user:read" and "post:read". */
  lemma SeedBaselineReadGrants(s: Store, x: Services)
    requires Valid(s) && s.online
    requires forall id :: id in s.permissions ==> s.permissions[id] in BaselinePermissions
    ensures var t := SeedDefaults(s, x);
      forall u :: u in t.roles && t.roles[u].name == UserRoleRecord.name ==>
        (set pid | pid in PermissionIdsOf(t, u) :: t.permissions[pid].name) == {"user:read", "post:read"}
  {
    var t := SeedDefaults(s, x);
    SeedPermissions(s, x);
    SeedGrants(s, x);
    assert forall id :: id in t.permissions ==> t.permissions[id] in BaselinePermissions;
    forall u | u in t.roles && t.roles[u].name == UserRoleRecord.name
      ensures (set pid | pid in PermissionIdsOf(t, u) :: t.permissions[pid].name) == {"user:read", "post:read"}
    {
      ReadGrantsOfBaseline(t, u);
    }
  }

  /** The admin account is created only when no user is named "admin" and its email is
      free; the admin role is attached to it only then; otherwise the users and their roles
      are left exactly as they were. */
  lemma SeedAdminAccount(s: Store, x: Services)
    requires Valid(s) && s.online
    ensures var t := SeedDefaults(s, x);
      var creates := !HasUserNamed(s, AdminUsername) && !HasUserWithEmail(s, AdminEmail);
      && (creates ==>
            && t.users == s.users[s.nextUserId := UserRecord(AdminUsername, AdminEmail, x.hashPassword(AdminPassword).digest)]
            && exists a :: a in t.roles && t.roles[a].name == AdminRole.name && t.userRoles == s.userRoles + {UserRole(s.nextUserId, a)})
      && (!creates ==> t.users == s.users && t.userRoles == s.userRoles)
  {
    var run := Stages(s, x);
    var s3 := run.afterGrants;
    SeedStages(s, x);
    assert s3.users == s.users && s3.userRoles == s.userRoles && s3.nextUserId == s.nextUserId by {
      assert run.afterPermissions.users == s.users && run.afterPermissions.userRoles == s.userRoles;
      assert run.afterPermissions.nextUserId == s.nextUserId;
      assert run.roles.store.(roles := run.afterPermissions.roles, nextRoleId := run.afterPermissions.nextRoleId) == run.afterPermissions;
    }
    assert HasUserNamed(s3, AdminUsername) == HasUserNamed(s, AdminUsername);
    assert HasUserWithEmail(s3, AdminEmail) == HasUserWithEmail(s, AdminEmail);
  }

  /** Roles other than "admin" and "user" keep their permissions. */
  lemma SeedLeavesOtherRoles(s: Store, x: Services, rid: Id)
    requires Valid(s) && rid in s.roles
    requires s.roles[rid].name != AdminRole.name && s.roles[rid].name != UserRoleRecord.name
    ensures PermissionIdsOf(SeedDefaults(s, x), rid) == PermissionIdsOf(s, rid)
  {
    var run := Stages(s, x);
    if s.online {
      assert run.roles.store.rolePermissions == s.rolePermissions;
      assert run.roles.store.roles[rid] == s.roles[rid];
      assert rid != run.roles.admin && rid != run.roles.user;
      assert PermissionIdsOf(run.afterGrants, rid) == PermissionIdsOf(run.roles.store, rid);
      assert run.result.rolePermissions == run.afterGrants.rolePermissions;
    }
  }
}
