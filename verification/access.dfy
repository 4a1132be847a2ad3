/** What the seeded roles let their holders do, end to end through the router. */
module Access {
  import opened Strings
  import opened Models
  import opened Collaborators
  import opened Http
  import opened Middleware
  import Controllers
  import Auth
  import Seeding
  import opened Api

  // ---------------------------------------------------------------------------
  // Grants read off the join tables

  /** A permission of one of the user's roles is granted to the user. */
  lemma GrantedThroughRole(s: Store, uid: Id, rid: Id, pid: Id)
    requires Valid(s) && rid in RoleIdsOf(s, uid) && pid in PermissionIdsOf(s, rid)
    ensures pid in s.permissions && s.permissions[pid].name in GrantedNames(s, uid)
  {
    var e :| e in s.userRoles && e.userId == uid && e.roleId == rid;
    var f :| f in s.rolePermissions && f.roleId == rid && f.permissionId == pid;
  }

  /** Every granted name is the name of a permission of one of the user's roles. */
  lemma GrantedComesFromRole(s: Store, uid: Id, n: string)
    requires Valid(s) && n in GrantedNames(s, uid)
    ensures exists rid, pid :: && rid in RoleIdsOf(s, uid) && pid in PermissionIdsOf(s, rid)
                               && pid in s.permissions && s.permissions[pid].name == n
  {
    var e, f :| && e in s.userRoles && f in s.rolePermissions && e.userId == uid && f.roleId == e.roleId
                && s.permissions[f.permissionId].name == n;
    assert e.roleId in RoleIdsOf(s, uid);
    assert f.permissionId in PermissionIdsOf(s, e.roleId);
  }

  // ---------------------------------------------------------------------------
  // The seeded roles

  /** The two roles a seeded store is guaranteed to hold, with their permission sets. */
  lemma SeededRoles(t: Store) returns (a: Id, u: Id)
    requires Seeding.Seeded(t)
    ensures a in t.roles && t.roles[a].name == Seeding.AdminRole.name && PermissionIdsOf(t, a) == t.permissions.Keys
    ensures u in t.roles && t.roles[u].name == Seeding.UserRoleRecord.name
    ensures PermissionIdsOf(t, u) == Seeding.ReadPermissionIds(t)
    ensures RolesNamed(t, Seeding.UserRoleRecord.name) == {u}
  {
    a, u :| && a in t.roles && t.roles[a].name == Seeding.AdminRole.name
            && u in t.roles && t.roles[u].name == Seeding.UserRoleRecord.name
            && PermissionIdsOf(t, a) == t.permissions.Keys
            && PermissionIdsOf(t, u) == Seeding.ReadPermissionIds(t);
  }

  /** A holder of exactly the "user" role of a seeded store may read users and posts. */
  lemma ReaderMayRead(t: Store, uid: Id)
    requires Seeding.Seeded(t) && RoleIdsOf(t, uid) == RolesNamed(t, Seeding.UserRoleRecord.name)
    ensures "user:read" in GrantedNames(t, uid) && "post:read" in GrantedNames(t, uid)
  {
    var a, u := SeededRoles(t);
    assert Seeding.BaselinePermissions[0].name == "user:read" && Seeding.BaselinePermissions[3].name == "post:read";
    forall n | n == "user:read" || n == "post:read" ensures n in GrantedNames(t, uid) {
      assert HasPermissionNamed(t, n);
      var pid :| pid in t.permissions && t.permissions[pid].name == n;
      assert HasSuffix(n, Seeding.ReadSuffix);
      assert pid in Seeding.ReadPermissionIds(t);
      GrantedThroughRole(t, uid, u, pid);
    }
  }

  /** Everything granted to a holder of exactly the "user" role of a seeded store is a
      read permission. */
  lemma ReaderGrantsOnlyReads(t: Store, uid: Id)
    requires Seeding.Seeded(t) && RoleIdsOf(t, uid) == RolesNamed(t, Seeding.UserRoleRecord.name)
    ensures forall n :: n in GrantedNames(t, uid) ==> HasSuffix(n, Seeding.ReadSuffix)
  {
    var a, u := SeededRoles(t);
    forall n | n in GrantedNames(t, uid) ensures HasSuffix(n, Seeding.ReadSuffix) {
      GrantedComesFromRole(t, uid, n);
      var rid, pid :| && rid in RoleIdsOf(t, uid) && pid in PermissionIdsOf(t, rid)
                      && pid in t.permissions && t.permissions[pid].name == n;
      assert pid in Seeding.ReadPermissionIds(t);
    }
  }

  /** In a seeded store, a user holding exactly the "user" role may read users and posts
      and may create neither. */
  lemma ReaderGrants(t: Store, uid: Id)
    requires Seeding.Seeded(t) && RoleIdsOf(t, uid) == RolesNamed(t, Seeding.UserRoleRecord.name)
    ensures "user:read" in GrantedNames(t, uid) && "post:read" in GrantedNames(t, uid)
    ensures "user:create" !in GrantedNames(t, uid) && "post:create" !in GrantedNames(t, uid)
  {
    ReaderMayRead(t, uid);
    ReaderGrantsOnlyReads(t, uid);
    assert !HasSuffix("user:create", Seeding.ReadSuffix) && !HasSuffix("post:create", Seeding.ReadSuffix);
  }

  /** In a seeded store, a user holding the "admin" role is granted every baseline
      permission. */
  lemma AdminGrants(t: Store, uid: Id, a: Id)
    requires Seeding.Seeded(t) && a in RoleIdsOf(t, uid) && a in t.roles && t.roles[a].name == Seeding.AdminRole.name
    ensures forall p :: p in Seeding.BaselinePermissions ==> p.name in GrantedNames(t, uid)
    ensures "user:read" in GrantedNames(t, uid) && "user:create" in GrantedNames(t, uid)
    ensures "post:read" in GrantedNames(t, uid) && "post:create" in GrantedNames(t, uid)
  {
    var a', u := SeededRoles(t);
    assert a' == a;
    forall p | p in Seeding.BaselinePermissions ensures p.name in GrantedNames(t, uid) {
      assert HasPermissionNamed(t, p.name);
      var pid :| pid in t.permissions && t.permissions[pid].name == p.name;
      GrantedThroughRole(t, uid, a, pid);
    }
    assert Seeding.BaselinePermissions[0].name == "user:read" && Seeding.BaselinePermissions[1].name == "user:create";
    assert Seeding.BaselinePermissions[2].name == "post:create" && Seeding.BaselinePermissions[3].name == "post:read";
  }

  // ---------------------------------------------------------------------------
  // Through the router

  /** The Authorization header carries a token that verifies and claims user `uid`. */
  ghost predicate Bears(cfg: Config, x: Services, h: string, uid: Id)
  {
    exists token :: Presents(h, token) && x.parseJwt(cfg.jwtSecret, token) == Claims(uid)
  }

  /** A token for a stored user gets that user through the middleware. */
  lemma BearerResolves(cfg: Config, x: Services, s: Store, h: string, uid: Id)
    requires Valid(s) && s.online && uid in s.users && Bears(cfg, x, h, uid)
    ensures MiddlewareFunc(cfg, x, s, h) == Resolved(LoadUser(s, uid))
  {
    var token :| Presents(h, token) && x.parseJwt(cfg.jwtSecret, token) == Claims(uid);
  }

  /** A request to route `i` of the table, by a resolved user, is gated by the store's
      grants of the route's permission. */
  lemma GatedRequest(cfg: Config, x: Services, s: Store, uid: Id, req: Request, i: nat, permission: string, e: Endpoint)
    requires Valid(s) && s.online && uid in s.users && Bears(cfg, x, req.authorization, uid)
    requires i < |Routes| && req.verb == Routes[i].verb && req.path == Routes[i].path
    requires Routes[i].guard == Requires(permission) && Routes[i].endpoint == e
    ensures permission !in GrantedNames(s, uid) ==> Serve(cfg, x, s, req) == Exchange(s, Forbidden(permission))
    ensures permission in GrantedNames(s, uid) ==>
      Serve(cfg, x, s, req) == Dispatch(e, cfg, x, s, Holds(LoadUser(s, uid)), req.payload)
  {
    TableLookup(i);
    BearerResolves(cfg, x, s, req.authorization, uid);
    GateDecidesByStoreGrants(cfg, x, s, req, permission);
  }

  /** What the four gated endpoints answer a resolved user. */
  lemma DispatchesToListUsers(cfg: Config, x: Services, s: Store, u: User, p: Payload)
    requires Valid(s)
    ensures Dispatch(ListUsers, cfg, x, s, Holds(u), p) == Exchange(s, Controllers.ListUsers(s))
  {
  }

  lemma DispatchesToCreateUser(cfg: Config, x: Services, s: Store, u: User, p: Payload)
    requires Valid(s)
    ensures Dispatch(CreateUser, cfg, x, s, Holds(u), p) == Controllers.CreateUser(s, x, p)
  {
  }

  lemma DispatchesToListPosts(cfg: Config, x: Services, s: Store, u: User, p: Payload)
    requires Valid(s)
    ensures Dispatch(ListPosts, cfg, x, s, Holds(u), p) == Exchange(s, Response(StatusOK, PostsBody))
  {
  }

  lemma DispatchesToCreatePost(cfg: Config, x: Services, s: Store, u: User, p: Payload)
    requires Valid(s)
    ensures Dispatch(CreatePost, cfg, x, s, Holds(u), p) == Exchange(s, Posts(CreatePost, p))
  {
  }

  /** GET /api/users lists the users exactly when the caller is granted "user:read". */
  lemma UsersListing(cfg: Config, x: Services, s: Store, uid: Id, h: string, p: Payload)
    requires Valid(s) && s.online && uid in s.users && Bears(cfg, x, h, uid)
    ensures "user:read" in GrantedNames(s, uid) ==>
      Serve(cfg, x, s, Request(Get, "/api/users", h, p)) == Exchange(s, Controllers.ListUsers(s))
    ensures "user:read" !in GrantedNames(s, uid) ==>
      Serve(cfg, x, s, Request(Get, "/api/users", h, p)) == Exchange(s, Forbidden("user:read"))
  {
    GatedRequest(cfg, x, s, uid, Request(Get, "/api/users", h, p), 3, "user:read", ListUsers);
    DispatchesToListUsers(cfg, x, s, LoadUser(s, uid), p);
  }

  /** POST /api/users runs the user-creation handler exactly when the caller is granted
      "user:create". */
  lemma UserCreation(cfg: Config, x: Services, s: Store, uid: Id, h: string, p: Payload)
    requires Valid(s) && s.online && uid in s.users && Bears(cfg, x, h, uid)
    ensures "user:create" in GrantedNames(s, uid) ==>
      Serve(cfg, x, s, Request(Post, "/api/users", h, p)) == Controllers.CreateUser(s, x, p)
    ensures "user:create" !in GrantedNames(s, uid) ==>
      Serve(cfg, x, s, Request(Post, "/api/users", h, p)) == Exchange(s, Forbidden("user:create"))
  {
    GatedRequest(cfg, x, s, uid, Request(Post, "/api/users", h, p), 4, "user:create", CreateUser);
    DispatchesToCreateUser(cfg, x, s, LoadUser(s, uid), p);
  }

  /** GET /api/posts answers 200 exactly when the caller is granted "post:read". */
  lemma PostsListing(cfg: Config, x: Services, s: Store, uid: Id, h: string, p: Payload)
    requires Valid(s) && s.online && uid in s.users && Bears(cfg, x, h, uid)
    ensures "post:read" in GrantedNames(s, uid) ==>
      Serve(cfg, x, s, Request(Get, "/api/posts", h, p)) == Exchange(s, Response(StatusOK, PostsBody))
    ensures "post:read" !in GrantedNames(s, uid) ==>
      Serve(cfg, x, s, Request(Get, "/api/posts", h, p)) == Exchange(s, Forbidden("post:read"))
  {
    GatedRequest(cfg, x, s, uid, Request(Get, "/api/posts", h, p), 5, "post:read", ListPosts);
    DispatchesToListPosts(cfg, x, s, LoadUser(s, uid), p);
  }

  /** POST /api/posts reaches the post-creation handler exactly when the caller is granted
      "post:create". */
  lemma PostCreation(cfg: Config, x: Services, s: Store, uid: Id, h: string, p: Payload)
    requires Valid(s) && s.online && uid in s.users && Bears(cfg, x, h, uid)
    ensures "post:create" in GrantedNames(s, uid) ==>
      Serve(cfg, x, s, Request(Post, "/api/posts", h, p)) == Exchange(s, Posts(CreatePost, p))
    ensures "post:create" !in GrantedNames(s, uid) ==>
      Serve(cfg, x, s, Request(Post, "/api/posts", h, p)) == Exchange(s, Forbidden("post:create"))
  {
    GatedRequest(cfg, x, s, uid, Request(Post, "/api/posts", h, p), 6, "post:create", CreatePost);
    DispatchesToCreatePost(cfg, x, s, LoadUser(s, uid), p);
  }

  /** In a seeded store, a holder of the "user" role lists users and posts and is refused
      with 403 when creating either, and nothing is written. */
  lemma ReaderRequests(cfg: Config, x: Services, t: Store, uid: Id, h: string, p: Payload)
    requires Seeding.Seeded(t) && uid in t.users && RoleIdsOf(t, uid) == RolesNamed(t, Seeding.UserRoleRecord.name)
    requires Bears(cfg, x, h, uid)
    ensures Serve(cfg, x, t, Request(Get, "/api/users", h, p)) == Exchange(t, Controllers.ListUsers(t))
    ensures Serve(cfg, x, t, Request(Post, "/api/users", h, p)) == Exchange(t, Forbidden("user:create"))
    ensures Serve(cfg, x, t, Request(Get, "/api/posts", h, p)) == Exchange(t, Response(StatusOK, PostsBody))
    ensures Serve(cfg, x, t, Request(Post, "/api/posts", h, p)) == Exchange(t, Forbidden("post:create"))
  {
    ReaderGrants(t, uid);
    UsersListing(cfg, x, t, uid, h, p);
    UserCreation(cfg, x, t, uid, h, p);
    PostsListing(cfg, x, t, uid, h, p);
    PostCreation(cfg, x, t, uid, h, p);
  }

  /** In a seeded store, a holder of the "admin" role reaches all four gated endpoints. */
  lemma AdminRequests(cfg: Config, x: Services, t: Store, uid: Id, a: Id, h: string, p: Payload)
    requires Seeding.Seeded(t) && uid in t.users && a in RoleIdsOf(t, uid)
    requires a in t.roles && t.roles[a].name == Seeding.AdminRole.name
    requires Bears(cfg, x, h, uid)
    ensures Serve(cfg, x, t, Request(Get, "/api/users", h, p)) == Exchange(t, Controllers.ListUsers(t))
    ensures Serve(cfg, x, t, Request(Post, "/api/users", h, p)) == Controllers.CreateUser(t, x, p)
    ensures Serve(cfg, x, t, Request(Get, "/api/posts", h, p)) == Exchange(t, Response(StatusOK, PostsBody))
    ensures Serve(cfg, x, t, Request(Post, "/api/posts", h, p)) == Exchange(t, Posts(CreatePost, p))
  {
    AdminGrants(t, uid, a);
    UsersListing(cfg, x, t, uid, h, p);
    UserCreation(cfg, x, t, uid, h, p);
    PostsListing(cfg, x, t, uid, h, p);
    PostCreation(cfg, x, t, uid, h, p);
  }

  /** Signing up on a seeded store makes a reader: once registered, the new account's
      token lists users but is refused user creation. */
  lemma SignedUpUserIsReader(cfg: Config, x: Services, t: Store, p: Payload, h: string, h': string, q: Payload)
    requires Seeding.Seeded(t)
    requires Serve(cfg, x, t, Request(Post, "/register", h, p)).response.status == StatusCreated
    requires Bears(cfg, x, h', t.nextUserId)
    ensures var t2 := Serve(cfg, x, t, Request(Post, "/register", h, p)).store;
      && Seeding.Seeded(t2)
      && Serve(cfg, x, t2, Request(Get, "/api/users", h', q)) == Exchange(t2, Controllers.ListUsers(t2))
      && Serve(cfg, x, t2, Request(Post, "/api/users", h', q)) == Exchange(t2, Forbidden("user:create"))
  {
    var req := Request(Post, "/register", h, p);
    TableLookup(0);
    assert Serve(cfg, x, t, req) == Controllers.Register(t, cfg, x, p);
    var t2 := Serve(cfg, x, t, req).store;
    var uid := t.nextUserId;
    assert Enrolled(t, t2, UserRecord(p.username, p.email, x.hashPassword(p.password).digest), RolesNamed(t, Auth.DefaultRoleName));
    EnrolledRoles(t, t2, UserRecord(p.username, p.email, x.hashPassword(p.password).digest), RolesNamed(t, Auth.DefaultRoleName));
    GrowsKeepsSeeded(t, t2);
    assert RolesNamed(t2, Seeding.UserRoleRecord.name) == RolesNamed(t, Auth.DefaultRoleName);
    assert uid in t2.users;
    ReaderRequests(cfg, x, t2, uid, h', q);
  }
}
