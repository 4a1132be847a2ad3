/** The program's entry point: seeding at start-up, then the router with its public
    routes and the `/api` group behind the identity middleware and per-route gates. */
module Api {
  import opened Models
  import opened Collaborators
  import opened Http
  import opened Middleware
  import Controllers
  import Seeding
  import Auth

  datatype Method = Get | Post

  /** The controller method a route ends in. */
  datatype Endpoint = Register | Login | Me | ListUsers | CreateUser | ListPosts | CreatePost

  /** What runs before the endpoint: nothing, the identity middleware alone, or the
      middleware and then the gate for one permission. */
  datatype Guard = Public | Authenticated | Requires(permission: string)

  datatype Route = Route(verb: Method, path: string, guard: Guard, endpoint: Endpoint)

  /** The route table as the router is built. */
  const Routes: seq<Route> := [
    Route(Post, "/register", Public, Register),
    Route(Post, "/login", Public, Login),
    Route(Get, "/api/me", Authenticated, Me),
    Route(Get, "/api/users", Requires("user:read"), ListUsers),
    Route(Post, "/api/users", Requires("user:create"), CreateUser),
    Route(Get, "/api/posts", Requires("post:read"), ListPosts),
    Route(Post, "/api/posts", Requires("post:create"), CreatePost)
  ]

  /** The parts of a request the program reads. */
  datatype Request = Request(verb: Method, path: string, authorization: string, payload: Payload)

  /** The router's match on method and exact path. */
  function FindRoute(routes: seq<Route>, m: Method, path: string): (r: Option<Route>)
    ensures r.Some? ==> r.value in routes && r.value.verb == m && r.value.path == path
    ensures r.None? ==> forall rt :: rt in routes ==> !(rt.verb == m && rt.path == path)
  {
    if |routes| == 0 then None
    else if routes[0].verb == m && routes[0].path == path then Some(routes[0])
    else
      assert forall rt :: rt in routes[1..] ==> rt in routes;
      FindRoute(routes[1..], m, path)
  }

  /** A route whose method and path no earlier route shares is the one the router finds. */
  lemma {:induction false} FindsFirstMatch(routes: seq<Route>, i: nat)
    requires i < |routes|
    requires forall j :: 0 <= j < i ==> routes[j].verb != routes[i].verb || routes[j].path != routes[i].path
    ensures FindRoute(routes, routes[i].verb, routes[i].path) == Some(routes[i])
    decreases i
  {
    if i > 0 {
      assert routes[1..][i - 1] == routes[i];
      FindsFirstMatch(routes[1..], i - 1);
    }
  }

  /** Every route of the table is reached by its own method and path. */
  lemma TableLookup(i: nat)
    requires i < |Routes|
    ensures FindRoute(Routes, Routes[i].verb, Routes[i].path) == Some(Routes[i])
  {
    RoutesDistinct();
    FindsFirstMatch(Routes, i);
  }

  /** Only `POST /register` and `POST /api/users` end in a sign-up endpoint. */
  lemma SignUpRoutes(m: Method, path: string)
    requires FindRoute(Routes, m, path).Some? && SignsUp(FindRoute(Routes, m, path).value.endpoint)
    ensures m == Post && (path == "/register" || path == "/api/users")
  {
    var r := FindRoute(Routes, m, path).value;
    assert r in Routes;
  }

  /** No two routes share a method and a path, so a match picks one route. */
  lemma RoutesDistinct()
    ensures forall i, j :: 0 <= i < j < |Routes| ==>
      Routes[i].verb != Routes[j].verb || Routes[i].path != Routes[j].path
  {
  }

  /** `PostController`: a fixed listing, and an echo of any well-formed body. */
  function Posts(e: Endpoint, p: Payload): (r: Response)
    requires e == ListPosts || e == CreatePost
    ensures r.status == StatusOK <==> e == ListPosts
    ensures r.status == StatusBadRequest <==> e == CreatePost && p.Unparsable?
    ensures r.status != StatusOK && r.status != StatusBadRequest ==> r.status == StatusCreated
    ensures r.body == if r.status == StatusBadRequest then BindErrorBody else PostsBody
  {
    if e == ListPosts then Response(StatusOK, PostsBody)
    else if p.Unparsable? then Response(StatusBadRequest, BindErrorBody)
    else Response(StatusCreated, PostsBody)
  }

  /** The status codes the program answers with. */
  predicate KnownStatus(status: int)
  {
    || status == StatusOK || status == StatusCreated || status == StatusBadRequest
    || status == StatusUnauthorized || status == StatusForbidden || status == StatusNotFound
    || status == StatusInternalServerError
  }

  /** The endpoint, given what the middleware left in the context. Only the two sign-up
      endpoints write, and only by enrolling a user. */
  function Dispatch(e: Endpoint, cfg: Config, x: Services, s: Store, current: ContextValue, p: Payload): (r: Exchange)
    requires Valid(s)
    ensures Valid(r.store) && Grows(s, r.store)
    ensures r.store != s ==> SignsUp(e)
    ensures KnownStatus(r.response.status)
  {
    match e
    case Register =>
      SignUpGrows(s, cfg, x, p);
      Controllers.Register(s, cfg, x, p)
    case Login => Exchange(s, Controllers.Login(s, cfg, x, p))
    case Me => Exchange(s, Controllers.Me(current))
    case ListUsers => Exchange(s, Controllers.ListUsers(s))
    case CreateUser =>
      SignUpGrows(s, cfg, x, p);
      Controllers.CreateUser(s, x, p)
    case _ => Exchange(s, Posts(e, p))
  }

  /** Enrolling a user is growth. */
  lemma EnrolledGrows(s: Store, t: Store, rec: UserRecord, roleIds: set<Id>)
    requires Valid(s) && Enrolled(s, t, rec, roleIds)
    ensures Grows(s, t)
  {
    assert t.(users := s.users, nextUserId := s.nextUserId, userRoles := s.userRoles).roles == s.roles;
  }

  /** Both sign-up endpoints either leave the store alone or enrol one user. */
  lemma SignUpGrows(s: Store, cfg: Config, x: Services, p: Payload)
    requires Valid(s)
    ensures Grows(s, Controllers.Register(s, cfg, x, p).store)
    ensures Grows(s, Controllers.CreateUser(s, x, p).store)
  {
    var r := Controllers.Register(s, cfg, x, p);
    if r.response.status == StatusCreated {
      EnrolledGrows(s, r.store, UserRecord(p.username, p.email, x.hashPassword(p.password).digest), RolesNamed(s, Auth.DefaultRoleName));
    }
    var c := Controllers.CreateUser(s, x, p);
    if c.response.status == StatusCreated {
      EnrolledGrows(s, c.store, UserRecord(p.username, p.email, x.hashPassword(p.password).digest), Controllers.RequestedRoles(s, p.role));
    }
  }

  /** The two endpoints that write to the store. */
  predicate SignsUp(e: Endpoint)
  {
    e.Register? || e.CreateUser?
  }

  /** `t` is `s` after serving requests: roles, permissions and grants are as they were,
      every existing user keeps its row and its roles, and new role links belong to new
      users. */
  predicate Grows(s: Store, t: Store)
  {
    && t.roles == s.roles && t.nextRoleId == s.nextRoleId
    && t.permissions == s.permissions && t.nextPermissionId == s.nextPermissionId
    && t.rolePermissions == s.rolePermissions && t.online == s.online
    && s.nextUserId <= t.nextUserId
    && (forall id :: id in s.users ==> id in t.users && t.users[id] == s.users[id])
    && s.userRoles <= t.userRoles
    && (forall e :: e in t.userRoles && e !in s.userRoles ==> e.userId !in s.users)
  }

  /** The handlers between the middleware and the endpoint: the route's gate, if any. */
  function Admit(g: Guard, db: Store, user: User): Verdict
  {
    match g
    case Requires(permission) => RequirePermission(db, permission, Holds(user))
    case _ => Next
  }

  /** A request on a matched route: its guard, then its endpoint. */
  function Handle(route: Route, cfg: Config, x: Services, s: Store, req: Request): (e: Exchange)
    requires Valid(s)
    ensures Valid(e.store) && Grows(s, e.store)
    ensures e.store != s ==> SignsUp(route.endpoint)
    ensures KnownStatus(e.response.status)
  {
    if route.guard.Public? then Dispatch(route.endpoint, cfg, x, s, Unset, req.payload)
    else
      match MiddlewareFunc(cfg, x, s, req.authorization)
      case Abort(response) => Exchange(s, response)
      case Resolved(user) =>
        match Admit(route.guard, s, user)
        case Deny(response) => Exchange(s, response)
        case Next => Dispatch(route.endpoint, cfg, x, s, Holds(user), req.payload)
  }

  /** A route behind the middleware answers with the middleware's abort, the gate's
      denial, or its endpoint with the resolved user in the context. */
  lemma GuardedRoute(route: Route, cfg: Config, x: Services, s: Store, req: Request)
    requires Valid(s) && !route.guard.Public?
    ensures var mw := MiddlewareFunc(cfg, x, s, req.authorization);
      && (mw.Abort? ==> Handle(route, cfg, x, s, req) == Exchange(s, mw.response))
      && (mw.Resolved? && Admit(route.guard, s, mw.user).Deny? ==>
            Handle(route, cfg, x, s, req) == Exchange(s, Admit(route.guard, s, mw.user).response))
      && (mw.Resolved? && Admit(route.guard, s, mw.user).Next? ==>
            Handle(route, cfg, x, s, req) == Dispatch(route.endpoint, cfg, x, s, Holds(mw.user), req.payload))
  {
  }

  /** The router: the matching route handles the request; no match is a 404. */
  function Serve(cfg: Config, x: Services, s: Store, req: Request): (e: Exchange)
    requires Valid(s)
    ensures Valid(e.store) && Grows(s, e.store)
    ensures FindRoute(Routes, req.verb, req.path).None? ==> e == Exchange(s, Response(StatusNotFound, EmptyBody))
    ensures e.store != s ==>
      (FindRoute(Routes, req.verb, req.path).Some? && SignsUp(FindRoute(Routes, req.verb, req.path).value.endpoint))
    ensures KnownStatus(e.response.status)
  {
    match FindRoute(Routes, req.verb, req.path)
    case None => Exchange(s, Response(StatusNotFound, EmptyBody))
    case Some(route) => Handle(route, cfg, x, s, req)
  }

  /** Requests in order, each against the store the previous one left. */
  function ServeAll(cfg: Config, x: Services, s: Store, reqs: seq<Request>): (r: (Store, seq<Response>))
    requires Valid(s)
    ensures Valid(r.0) && |r.1| == |reqs|
    ensures forall i :: 0 <= i < |reqs| ==> KnownStatus(r.1[i].status)
    decreases |reqs|
  {
    if |reqs| == 0 then (s, [])
    else
      var e := Serve(cfg, x, s, reqs[0]);
      var rest := ServeAll(cfg, x, e.store, reqs[1..]);
      var responses := [e.response] + rest.1;
      assert forall i :: 0 <= i < |responses| ==> KnownStatus(responses[i].status) by {
        forall i | 0 <= i < |responses| ensures KnownStatus(responses[i].status) {
          if i > 0 {
            assert responses[i] == rest.1[i - 1];
          }
        }
      }
      (rest.0, responses)
  }

  /** A run of requests only grows the store. */
  lemma {:induction false} ServeAllGrows(cfg: Config, x: Services, s: Store, reqs: seq<Request>)
    requires Valid(s)
    ensures Grows(s, ServeAll(cfg, x, s, reqs).0)
    decreases |reqs|
  {
    if |reqs| > 0 {
      var e := Serve(cfg, x, s, reqs[0]);
      ServeAllGrows(cfg, x, e.store, reqs[1..]);
      GrowsTransitive(s, e.store, ServeAll(cfg, x, e.store, reqs[1..]).0);
    }
  }

  lemma GrowsTransitive(s: Store, m: Store, t: Store)
    requires Valid(s) && Grows(s, m) && Grows(m, t)
    ensures Grows(s, t)
  {
    forall e | e in t.userRoles && e !in s.userRoles ensures e.userId !in s.users {
      if e in m.userRoles {
        assert e.userId !in s.users;
      } else {
        assert e.userId !in m.users;
      }
    }
  }

  /** `main`: seed, then serve. The seeded roles and grants survive every request. */
  function Program(cfg: Config, x: Services, s0: Store, reqs: seq<Request>): (r: (Store, seq<Response>))
    requires Valid(s0)
    ensures Valid(r.0) && |r.1| == |reqs|
    ensures s0.online ==> Seeding.Seeded(r.0)
  {
    SeedingSurvivesServing(cfg, x, s0, reqs);
    ServeAll(cfg, x, Seeding.SeedDefaults(s0, x), reqs)
  }

  lemma SeedingSurvivesServing(cfg: Config, x: Services, s0: Store, reqs: seq<Request>)
    requires Valid(s0)
    ensures s0.online ==> Seeding.Seeded(ServeAll(cfg, x, Seeding.SeedDefaults(s0, x), reqs).0)
  {
    if s0.online {
      var t := Seeding.SeedDefaults(s0, x);
      Seeding.SeedEstablishesSeeded(s0, x);
      ServeAllGrows(cfg, x, t, reqs);
      GrowsKeepsSeeded(t, ServeAll(cfg, x, t, reqs).0);
    }
  }

  /** Serving requests never undoes seeding: roles, permissions and grants stay, and the
      admin account only gains company. */
  lemma GrowsKeepsSeeded(s: Store, t: Store)
    requires Seeding.Seeded(s) && Valid(t) && Grows(s, t)
    ensures Seeding.Seeded(t)
  {
    assert forall rid :: PermissionIdsOf(t, rid) == PermissionIdsOf(s, rid);
    assert Seeding.ReadPermissionIds(t) == Seeding.ReadPermissionIds(s);
    assert forall n :: HasPermissionNamed(s, n) ==> HasPermissionNamed(t, n);
    assert HasUserNamed(s, Seeding.AdminUsername) ==> HasUserNamed(t, Seeding.AdminUsername);
    assert HasUserWithEmail(s, Seeding.AdminEmail) ==> HasUserWithEmail(t, Seeding.AdminEmail);
  }

  // ---------------------------------------------------------------------------
  // Properties of the router

  /** The two public routes never look at the Authorization header. */
  lemma PublicRoutesIgnoreHeader(cfg: Config, x: Services, s: Store, req: Request, h: string)
    requires Valid(s) && req.verb == Post && (req.path == "/register" || req.path == "/login")
    ensures Serve(cfg, x, s, req) == Serve(cfg, x, s, req.(authorization := h))
  {
  }

  /** The path prefix of the route group behind the middleware. */
  const ApiPrefix := "/api/"

  /** Every route but the two public ones lives under "/api/" and is behind the middleware. */
  lemma ApiRoutesAreGuarded()
    ensures forall r :: r in Routes ==> (r.guard.Public? <==> !(ApiPrefix <= r.path))
  {
    assert "/register"[1] != ApiPrefix[1] && "/login"[1] != ApiPrefix[1];
    forall r | r in Routes ensures r.guard.Public? <==> !(ApiPrefix <= r.path) {
      if r.guard.Public? {
        assert r.path == "/register" || r.path == "/login";
      } else {
        assert r.path[..5] == ApiPrefix;
      }
    }
  }

  /** On an `/api` route, a request the middleware aborts gets the middleware's response
      and changes nothing. */
  lemma MiddlewareRunsFirst(cfg: Config, x: Services, s: Store, req: Request)
    requires Valid(s)
    requires FindRoute(Routes, req.verb, req.path).Some? && !FindRoute(Routes, req.verb, req.path).value.guard.Public?
    requires MiddlewareFunc(cfg, x, s, req.authorization).Abort?
    ensures Serve(cfg, x, s, req) == Exchange(s, MiddlewareFunc(cfg, x, s, req.authorization).response)
  {
  }

  /** On a gated route, a user whose roles do not grant the permission gets 403 and
      changes nothing; one whose roles grant it reaches the endpoint. */
  lemma GateDecidesByStoreGrants(cfg: Config, x: Services, s: Store, req: Request, permission: string)
    requires Valid(s)
    requires FindRoute(Routes, req.verb, req.path).Some?
    requires FindRoute(Routes, req.verb, req.path).value.guard == Requires(permission)
    requires MiddlewareFunc(cfg, x, s, req.authorization).Resolved?
    ensures var u := MiddlewareFunc(cfg, x, s, req.authorization).user;
      && (permission !in GrantedNames(s, u.id) ==> Serve(cfg, x, s, req) == Exchange(s, Forbidden(permission)))
      && (permission in GrantedNames(s, u.id) ==>
            Serve(cfg, x, s, req) == Dispatch(FindRoute(Routes, req.verb, req.path).value.endpoint, cfg, x, s, Holds(u), req.payload))
  {
    var route := FindRoute(Routes, req.verb, req.path).value;
    assert Serve(cfg, x, s, req) == Handle(route, cfg, x, s, req);
    GuardedRoute(route, cfg, x, s, req);
    ResolvedUserHasStoreGrants(cfg, x, s, req.authorization);
  }

  /** A user is created through `POST /api/users` only on behalf of a caller whose roles
      grant "user:create". */
  lemma CreationNeedsUserCreate(cfg: Config, x: Services, s: Store, req: Request)
    requires Valid(s) && req.verb == Post && req.path == "/api/users"
    requires Serve(cfg, x, s, req).store != s
    ensures MiddlewareFunc(cfg, x, s, req.authorization).Resolved?
    ensures var u := MiddlewareFunc(cfg, x, s, req.authorization).user;
      u.id in s.users && "user:create" in GrantedNames(s, u.id)
  {
    var route := Routes[4];
    TableLookup(4);
    assert Serve(cfg, x, s, req) == Handle(route, cfg, x, s, req);
    GuardedRoute(route, cfg, x, s, req);
    var mw := MiddlewareFunc(cfg, x, s, req.authorization);
    if mw.Resolved? {
      ResolvedUserHasStoreGrants(cfg, x, s, req.authorization);
      assert Admit(route.guard, s, mw.user) == RequirePermission(s, "user:create", Holds(mw.user));
    }
  }

  /** Behind the middleware, `Me` always finds a user in the context, so its recovered
      panic never answers. */
  lemma MeNeverPanics(route: Route, cfg: Config, x: Services, s: Store, req: Request)
    requires Valid(s) && route.endpoint == Me && !route.guard.Public?
    ensures Handle(route, cfg, x, s, req).response.body != EmptyBody
    ensures Handle(route, cfg, x, s, req).response.status == StatusOK <==>
      (&& MiddlewareFunc(cfg, x, s, req.authorization).Resolved?
       && Admit(route.guard, s, MiddlewareFunc(cfg, x, s, req.authorization).user) == Next)
  {
    GuardedRoute(route, cfg, x, s, req);
    var mw := MiddlewareFunc(cfg, x, s, req.authorization);
    if mw.Resolved? && Admit(route.guard, s, mw.user) == Next {
      assert Dispatch(Me, cfg, x, s, Holds(mw.user), req.payload) == Exchange(s, Controllers.Me(Holds(mw.user)));
    }
  }

  /** `GET /api/me` answers 200 exactly when the middleware resolves a user, and never
      with the empty body of a recovered panic. */
  lemma MeRouteAnswers(cfg: Config, x: Services, s: Store, req: Request)
    requires Valid(s) && req.verb == Get && req.path == "/api/me"
    ensures Serve(cfg, x, s, req).response.body != EmptyBody
    ensures Serve(cfg, x, s, req).response.status == StatusOK <==> MiddlewareFunc(cfg, x, s, req.authorization).Resolved?
  {
    TableLookup(2);
    MeNeverPanics(Routes[2], cfg, x, s, req);
  }
}
