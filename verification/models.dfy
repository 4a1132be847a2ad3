/** The credential store: three entity tables, two join tables, the schema's constraints,
    the queries and writes the handlers issue against it, and the in-memory values
    (users with roles and permissions preloaded) those queries produce. */
module Models {
  import opened Strings

  type Id = nat

  datatype Option<T> = None | Some(value: T)

  /** Why a store call failed: no row matched a `First`, a unique index or foreign key
      refused a write, or the database could not be reached at all. */
  datatype DbError = NotFound | Conflict | Unavailable

  datatype Result<T> = Ok(value: T) | Err(error: DbError)

  /** Rows of the `users`, `roles` and `permissions` tables, without their associations. */
  datatype UserRecord = UserRecord(username: string, email: string, passwordHash: string)
  datatype RoleRecord = RoleRecord(name: string, description: string)
  datatype PermissionRecord = PermissionRecord(name: string, description: string)

  /** Rows of the `user_roles` and `role_permissions` join tables; a row is its composite key. */
  datatype UserRole = UserRole(userId: Id, roleId: Id)
  datatype RolePermission = RolePermission(roleId: Id, permissionId: Id)

  /** The whole database. Each table hands out ids from its own counter; `online` is false
      when every call errors, the one failure that is not a constraint violation. */
  datatype Store = Store(
    users: map<Id, UserRecord>,
    roles: map<Id, RoleRecord>,
    permissions: map<Id, PermissionRecord>,
    userRoles: set<UserRole>,
    rolePermissions: set<RolePermission>,
    nextUserId: Id,
    nextRoleId: Id,
    nextPermissionId: Id,
    online: bool)

  /** The Go structs as handlers hold them: a `Role` carries its preloaded permissions,
      a `User` its preloaded roles. */
  datatype Permission = Permission(id: Id, name: string, description: string)
  datatype Role = Role(id: Id, name: string, description: string, permissions: seq<Permission>)
  datatype User = User(id: Id, username: string, email: string, passwordHash: string, roles: seq<Role>)

  /** The JSON a user serializes to: the password hash has no field here at all. */
  datatype UserJson = UserJson(id: Id, username: string, email: string, roles: seq<Role>)

  // ---------------------------------------------------------------------------
  // Schema constraints

  /** Primary keys are positive and below their table's counter, which starts at 1. */
  predicate KeysAllocated(s: Store)
  {
    && 0 < s.nextUserId && 0 < s.nextRoleId && 0 < s.nextPermissionId
    && (forall id :: id in s.users ==> 0 < id < s.nextUserId)
    && (forall id :: id in s.roles ==> 0 < id < s.nextRoleId)
    && (forall id :: id in s.permissions ==> 0 < id < s.nextPermissionId)
  }

  /** The join tables' foreign keys point at existing rows. */
  predicate EdgesResolve(s: Store)
  {
    && (forall e :: e in s.userRoles ==> e.userId in s.users && e.roleId in s.roles)
    && (forall e :: e in s.rolePermissions ==> e.roleId in s.roles && e.permissionId in s.permissions)
  }

  /** The unique indexes on username, email, role name and permission name. */
  predicate Unique(s: Store)
  {
    && (forall a, b :: a in s.users && b in s.users && s.users[a].username == s.users[b].username ==> a == b)
    && (forall a, b :: a in s.users && b in s.users && s.users[a].email == s.users[b].email ==> a == b)
    && (forall a, b :: a in s.roles && b in s.roles && s.roles[a].name == s.roles[b].name ==> a == b)
    && (forall a, b :: a in s.permissions && b in s.permissions && s.permissions[a].name == s.permissions[b].name ==> a == b)
  }

  /** Every state the database can be in. */
  predicate Valid(s: Store)
  {
    KeysAllocated(s) && EdgesResolve(s) && Unique(s)
  }

  predicate HasUserNamed(s: Store, name: string)
  {
    exists id :: id in s.users && s.users[id].username == name
  }

  predicate HasUserWithEmail(s: Store, email: string)
  {
    exists id :: id in s.users && s.users[id].email == email
  }

  predicate HasPermissionNamed(s: Store, name: string)
  {
    exists id :: id in s.permissions && s.permissions[id].name == name
  }

  /** The ids of the roles named `name`: one at most, by the unique index. */
  function RolesNamed(s: Store, name: string): set<Id>
  {
    set id | id in s.roles && s.roles[id].name == name
  }

  // ---------------------------------------------------------------------------
  // Ordered scans: `First` orders by primary key and returns the least matching row.
  // A plain `Find` or `Preload` sends no ORDER BY, so the database may list rows in
  // any order; the model fixes one, ascending keys.

  /** The least key in `[from, bound)` whose row satisfies `p`. */
  function LeastMatch<V>(m: map<Id, V>, p: V -> bool, from: nat, bound: nat): (r: Option<Id>)
    decreases bound - from
    ensures r.Some? ==> from <= r.value < bound && r.value in m && p(m[r.value])
    ensures r.Some? ==> forall k :: from <= k < r.value && k in m ==> !p(m[k])
    ensures r.None? ==> forall k :: from <= k < bound && k in m ==> !p(m[k])
  {
    if from >= bound then None
    else if from in m && p(m[from]) then Some(from)
    else LeastMatch(m, p, from + 1, bound)
  }

  /** The members of `keys` in `[from, bound)`, in increasing order. */
  function Ascending(keys: set<Id>, from: nat, bound: nat): (r: seq<Id>)
    decreases bound - from
    ensures forall k :: k in r <==> k in keys && from <= k < bound
    ensures forall i, j :: 0 <= i < j < |r| ==> r[i] < r[j]
    ensures forall i :: 0 <= i < |r| ==> from <= r[i] && r[i] in keys
  {
    if from >= bound then []
    else if from in keys then [from] + Ascending(keys, from + 1, bound)
    else Ascending(keys, from + 1, bound)
  }

  // ---------------------------------------------------------------------------
  // Queries

  /** `Where("username = ?", name).First(&user)`. */
  function FindUserByUsername(s: Store, name: string): (r: Result<Id>)
    requires Valid(s)
    ensures !s.online ==> r == Err(Unavailable)
    ensures s.online && r.Ok? ==> r.value in s.users && s.users[r.value].username == name
    ensures s.online && r.Err? ==> r.error == NotFound && forall id :: id in s.users ==> s.users[id].username != name
  {
    if !s.online then Err(Unavailable)
    else match LeastMatch(s.users, (u: UserRecord) => u.username == name, 0, s.nextUserId)
      case Some(id) => Ok(id)
      case None => Err(NotFound)
  }

  /** `Where("name = ?", name).First(&role)`. */
  function FindRoleByName(s: Store, name: string): (r: Result<Id>)
    requires Valid(s)
    ensures !s.online ==> r == Err(Unavailable)
    ensures s.online && r.Ok? ==> r.value in s.roles && s.roles[r.value].name == name
    ensures s.online && r.Err? ==> r.error == NotFound && forall id :: id in s.roles ==> s.roles[id].name != name
  {
    if !s.online then Err(Unavailable)
    else match LeastMatch(s.roles, (x: RoleRecord) => x.name == name, 0, s.nextRoleId)
      case Some(id) => Ok(id)
      case None => Err(NotFound)
  }

  /** `Where("name = ?", name).First(&permission)`. */
  function FindPermissionByName(s: Store, name: string): (r: Result<Id>)
    requires Valid(s)
    ensures !s.online ==> r == Err(Unavailable)
    ensures s.online && r.Ok? ==> r.value in s.permissions && s.permissions[r.value].name == name
    ensures s.online && r.Err? ==> r.error == NotFound && forall id :: id in s.permissions ==> s.permissions[id].name != name
  {
    if !s.online then Err(Unavailable)
    else match LeastMatch(s.permissions, (x: PermissionRecord) => x.name == name, 0, s.nextPermissionId)
      case Some(id) => Ok(id)
      case None => Err(NotFound)
  }

  /** `Preload("Roles.Permissions").First(&user, uid)`: lookup by primary key. */
  function FindUserById(s: Store, uid: Id): (r: Result<User>)
    requires Valid(s)
    ensures !s.online ==> r == Err(Unavailable)
    ensures s.online && uid in s.users ==> r == Ok(LoadUser(s, uid))
    ensures s.online && uid !in s.users ==> r == Err(NotFound)
    ensures r.Ok? ==> && uid in s.users && r.value.id == uid
                      && r.value.passwordHash == s.users[uid].passwordHash
                      && EffectivePermissions(r.value) == GrantedNames(s, uid)
  {
    if !s.online then Err(Unavailable)
    else if uid in s.users then LoadedGrantsMatchStore(s, uid); Ok(LoadUser(s, uid))
    else Err(NotFound)
  }

  /** The ids of the roles attached to user `uid`. */
  function RoleIdsOf(s: Store, uid: Id): set<Id>
  {
    set e | e in s.userRoles && e.userId == uid :: e.roleId
  }

  /** The ids of the permissions attached to role `rid`. */
  function PermissionIdsOf(s: Store, rid: Id): set<Id>
  {
    set e | e in s.rolePermissions && e.roleId == rid :: e.permissionId
  }

  /** The names of the permissions reachable from user `uid` through its roles, read off the join tables. */
  function GrantedNames(s: Store, uid: Id): set<string>
    requires Valid(s)
  {
    set e, f | e in s.userRoles && f in s.rolePermissions && e.userId == uid && f.roleId == e.roleId
      :: s.permissions[f.permissionId].name
  }

  function LoadPermission(s: Store, pid: Id): Permission
    requires pid in s.permissions
  {
    Permission(pid, s.permissions[pid].name, s.permissions[pid].description)
  }

  /** A role as `Preload("Roles.Permissions")` returns it. The preload query has no ORDER BY;
      the model lists the permissions in key order. */
  function LoadRole(s: Store, rid: Id): (r: Role)
    requires Valid(s) && rid in s.roles
    ensures r.id == rid && r.name == s.roles[rid].name && r.description == s.roles[rid].description
    ensures forall q :: q in r.permissions <==> exists pid :: pid in PermissionIdsOf(s, rid) && q == LoadPermission(s, pid)
  {
    var ids := Ascending(PermissionIdsOf(s, rid), 0, s.nextPermissionId);
    assert forall pid :: pid in PermissionIdsOf(s, rid) ==> pid in s.permissions;
    var perms := seq(|ids|, i requires 0 <= i < |ids| => LoadPermission(s, ids[i]));
    assert forall pid :: pid in PermissionIdsOf(s, rid) ==> LoadPermission(s, pid) in perms by {
      forall pid | pid in PermissionIdsOf(s, rid) ensures LoadPermission(s, pid) in perms {
        var i :| 0 <= i < |ids| && ids[i] == pid;
        assert perms[i] == LoadPermission(s, pid);
      }
    }
    Role(rid, s.roles[rid].name, s.roles[rid].description, perms)
  }

  /** A role as a plain `First(&role)` returns it: no permissions loaded. */
  function LoadBareRole(s: Store, rid: Id): (r: Role)
    requires rid in s.roles
  {
    Role(rid, s.roles[rid].name, s.roles[rid].description, [])
  }

  /** A user as `Preload("Roles.Permissions").First(&user, uid)` returns it, each role with
      its permissions. The preload has no ORDER BY; the model lists the roles in key order. */
  function LoadUser(s: Store, uid: Id): (u: User)
    requires Valid(s) && uid in s.users
    ensures u.id == uid && u.username == s.users[uid].username && u.email == s.users[uid].email
    ensures u.passwordHash == s.users[uid].passwordHash
    ensures forall x :: x in u.roles <==> exists rid :: rid in RoleIdsOf(s, uid) && x == LoadRole(s, rid)
  {
    var ids := Ascending(RoleIdsOf(s, uid), 0, s.nextRoleId);
    assert forall rid :: rid in RoleIdsOf(s, uid) ==> rid in s.roles;
    var roles := seq(|ids|, i requires 0 <= i < |ids| => LoadRole(s, ids[i]));
    assert forall rid :: rid in RoleIdsOf(s, uid) ==> LoadRole(s, rid) in roles by {
      forall rid | rid in RoleIdsOf(s, uid) ensures LoadRole(s, rid) in roles {
        var i :| 0 <= i < |ids| && ids[i] == rid;
        assert roles[i] == LoadRole(s, rid);
      }
    }
    User(uid, s.users[uid].username, s.users[uid].email, s.users[uid].passwordHash, roles)
  }

  /** The users under `ids`, loaded one by one, in the order given. */
  function LoadUsers(s: Store, ids: seq<Id>): (r: seq<User>)
    requires Valid(s) && forall i :: 0 <= i < |ids| ==> ids[i] in s.users
    ensures |r| == |ids|
    ensures forall i :: 0 <= i < |r| ==> r[i].id == ids[i] && r[i] == LoadUser(s, ids[i])
  {
    seq(|ids|, i requires 0 <= i < |ids| => LoadUser(s, ids[i]))
  }

  /** `Preload("Roles.Permissions").Find(&users)`: every user. The query has no ORDER BY;
      the model lists the users in key order. A failed call leaves the slice empty. */
  function LoadAllUsers(s: Store): (r: seq<User>)
    requires Valid(s)
    ensures !s.online ==> r == []
    ensures s.online ==> forall id :: id in s.users <==> exists i :: 0 <= i < |r| && r[i].id == id
    ensures forall i :: 0 <= i < |r| ==> r[i].id in s.users && r[i] == LoadUser(s, r[i].id)
    ensures forall i, j :: 0 <= i < j < |r| ==> r[i].id < r[j].id
  {
    if !s.online then []
    else
      var ids := Ascending(s.users.Keys, 0, s.nextUserId);
      var r := LoadUsers(s, ids);
      assert forall id :: id in s.users ==> exists i :: 0 <= i < |r| && r[i].id == id by {
        forall id | id in s.users ensures exists i :: 0 <= i < |r| && r[i].id == id {
          var i :| 0 <= i < |ids| && ids[i] == id;
          assert r[i].id == id;
        }
      }
      r
  }

  // ---------------------------------------------------------------------------
  // Writes

  /** `Create(&user)`: refused by the unique indexes on username and email. */
  function InsertUser(s: Store, rec: UserRecord): (r: Result<(Store, Id)>)
    requires Valid(s)
    ensures r.Err? <==> !s.online || exists id :: id in s.users && (s.users[id].username == rec.username || s.users[id].email == rec.email)
    ensures r.Err? ==> r.error == (if s.online then Conflict else Unavailable)
    ensures r.Ok? ==> r.value.1 == s.nextUserId && r.value.1 !in s.users && Valid(r.value.0)
    ensures r.Ok? ==> r.value.0 == s.(users := s.users[s.nextUserId := rec], nextUserId := s.nextUserId + 1)
  {
    if !s.online then Err(Unavailable)
    else if exists id :: id in s.users && (s.users[id].username == rec.username || s.users[id].email == rec.email) then Err(Conflict)
    else Ok((s.(users := s.users[s.nextUserId := rec], nextUserId := s.nextUserId + 1), s.nextUserId))
  }

  /** `Create(&role)`: refused by the unique index on the role name. */
  function InsertRole(s: Store, rec: RoleRecord): (r: Result<(Store, Id)>)
    requires Valid(s)
    ensures r.Err? <==> !s.online || exists id :: id in s.roles && s.roles[id].name == rec.name
    ensures r.Ok? ==> r.value.1 == s.nextRoleId && r.value.1 !in s.roles && Valid(r.value.0)
    ensures r.Ok? ==> r.value.0 == s.(roles := s.roles[s.nextRoleId := rec], nextRoleId := s.nextRoleId + 1)
  {
    if !s.online then Err(Unavailable)
    else if exists id :: id in s.roles && s.roles[id].name == rec.name then Err(Conflict)
    else Ok((s.(roles := s.roles[s.nextRoleId := rec], nextRoleId := s.nextRoleId + 1), s.nextRoleId))
  }

  /** `Create(&permission)`: refused by the unique index on the permission name. */
  function InsertPermission(s: Store, rec: PermissionRecord): (r: Result<(Store, Id)>)
    requires Valid(s)
    ensures r.Err? <==> !s.online || exists id :: id in s.permissions && s.permissions[id].name == rec.name
    ensures r.Ok? ==> r.value.1 == s.nextPermissionId && r.value.1 !in s.permissions && Valid(r.value.0)
    ensures r.Ok? ==> r.value.0 == s.(permissions := s.permissions[s.nextPermissionId := rec], nextPermissionId := s.nextPermissionId + 1)
  {
    if !s.online then Err(Unavailable)
    else if exists id :: id in s.permissions && s.permissions[id].name == rec.name then Err(Conflict)
    else Ok((s.(permissions := s.permissions[s.nextPermissionId := rec], nextPermissionId := s.nextPermissionId + 1), s.nextPermissionId))
  }

  /** `Model(&user).Association("Roles").Append(&role)`. The error is ignored by every
      caller, so a refused append (store down) leaves the store as it was; an edge already
      present is not duplicated. Every caller appends a role it has just read, so the
      guard on a missing user or role only keeps the join rows resolving. */
  function AppendUserRole(s: Store, uid: Id, rid: Id): (t: Store)
    requires Valid(s)
    ensures Valid(t)
    ensures t.userRoles == if s.online && uid in s.users && rid in s.roles then s.userRoles + {UserRole(uid, rid)} else s.userRoles
    ensures t.(userRoles := s.userRoles) == s
  {
    if s.online && uid in s.users && rid in s.roles then s.(userRoles := s.userRoles + {UserRole(uid, rid)})
    else s
  }

  /** `Model(&role).Association("Permissions").Replace(perms)`: afterwards the role holds
      exactly `pids`, and no other role's edges move. Refused like `AppendUserRole`. */
  function ReplaceRolePermissions(s: Store, rid: Id, pids: set<Id>): (t: Store)
    requires Valid(s)
    ensures Valid(t)
    ensures t.(rolePermissions := s.rolePermissions) == s
    ensures s.online && rid in s.roles && pids <= s.permissions.Keys ==> PermissionIdsOf(t, rid) == pids
    ensures !(s.online && rid in s.roles && pids <= s.permissions.Keys) ==> t == s
    ensures forall other :: other != rid ==> PermissionIdsOf(t, other) == PermissionIdsOf(s, other)
  {
    if s.online && rid in s.roles && pids <= s.permissions.Keys then
      var kept := set e | e in s.rolePermissions && e.roleId != rid;
      var added := set p | p in pids :: RolePermission(rid, p);
      var t := s.(rolePermissions := kept + added);
      assert forall p :: p in pids ==> RolePermission(rid, p) in t.rolePermissions;
      t
    else s
  }

  /** `t` is `s` with one more user: `rec` under the next user id, attached to `roleIds`;
      nothing else differs. */
  predicate Enrolled(s: Store, t: Store, rec: UserRecord, roleIds: set<Id>)
  {
    && t.users == s.users[s.nextUserId := rec]
    && t.nextUserId == s.nextUserId + 1
    && t.userRoles == s.userRoles + (set r | r in roleIds :: UserRole(s.nextUserId, r))
    && t.(users := s.users, nextUserId := s.nextUserId, userRoles := s.userRoles) == s
  }

  /** The new user holds exactly `roleIds`, and every other user keeps its roles. */
  lemma EnrolledRoles(s: Store, t: Store, rec: UserRecord, roleIds: set<Id>)
    requires Valid(s) && Enrolled(s, t, rec, roleIds)
    ensures RoleIdsOf(t, s.nextUserId) == roleIds
    ensures forall uid :: uid != s.nextUserId ==> RoleIdsOf(t, uid) == RoleIdsOf(s, uid)
  {
    assert RoleIdsOf(s, s.nextUserId) == {};
    forall r | r in roleIds ensures r in RoleIdsOf(t, s.nextUserId) {
      assert UserRole(s.nextUserId, r) in t.userRoles;
    }
  }

  // ---------------------------------------------------------------------------
  // Effective permissions and the outward view of a user

  /** The names granted by a list of roles: the union over the roles of their permissions. */
  function Grants(roles: seq<Role>): set<string>
  {
    set r, p | r in roles && p in r.permissions :: p.name
  }

  /** A user's effective permission set. */
  function EffectivePermissions(u: User): set<string>
  {
    Grants(u.roles)
  }

  /** The effective set is a union law: granting through two role lists grants exactly the
      names either grants, with nothing extra. */
  lemma GrantsOfConcatenation(a: seq<Role>, b: seq<Role>)
    ensures Grants(a + b) == Grants(a) + Grants(b)
  {
    assert forall r :: r in a + b <==> r in a || r in b;
  }

  /** Loading a user reproduces the join tables' grant relation exactly. */
  lemma LoadedGrantsMatchStore(s: Store, uid: Id)
    requires Valid(s) && uid in s.users
    ensures EffectivePermissions(LoadUser(s, uid)) == GrantedNames(s, uid)
  {
    var u := LoadUser(s, uid);
    forall n | n in EffectivePermissions(u) ensures n in GrantedNames(s, uid) {
      var r, p :| r in u.roles && p in r.permissions && p.name == n;
      var rid :| rid in RoleIdsOf(s, uid) && r == LoadRole(s, rid);
      var pid :| pid in PermissionIdsOf(s, rid) && p == LoadPermission(s, pid);
      var e :| e in s.userRoles && e.userId == uid && e.roleId == rid;
      var f :| f in s.rolePermissions && f.roleId == rid && f.permissionId == pid;
      assert s.permissions[f.permissionId].name == n;
    }
    forall n | n in GrantedNames(s, uid) ensures n in EffectivePermissions(u) {
      var e, f :| e in s.userRoles && f in s.rolePermissions && e.userId == uid && f.roleId == e.roleId
        && s.permissions[f.permissionId].name == n;
      var r := LoadRole(s, e.roleId);
      assert r in u.roles;
      var p := LoadPermission(s, f.permissionId);
      assert p in r.permissions;
    }
  }

  /** `json:"-"` on the hash: what a user serializes to. */
  function ToJson(u: User): (j: UserJson)
    ensures j.id == u.id && j.username == u.username && j.email == u.email && j.roles == u.roles
  {
    UserJson(u.id, u.username, u.email, u.roles)
  }

  /** The serialized view of a user does not depend on its password hash. */
  lemma JsonOmitsHash(u: User, hash: string)
    ensures ToJson(u.(passwordHash := hash)) == ToJson(u)
  {
  }

  /** `user.PasswordHash = ""`: the copy of a user a handler puts into a response. */
  function Sanitize(u: User): (v: User)
    ensures v.passwordHash == ""
    ensures v.(passwordHash := u.passwordHash) == u
  {
    u.(passwordHash := "")
  }
}
