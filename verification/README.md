# Role-based access control of the Go-API service

This project models the access-control core of a small Go web service built on Gin and GORM:

- a credential store of users, roles and permissions, joined by many-to-many edges, with unique usernames, emails, role names and permission names;
- the start-up seeding routine that reconciles the store towards a baseline of four permissions, an "admin" and a "user" role, and an admin account;
- the identity-resolution middleware (Authorization header, token check, user load with roles and permissions) and the per-route permission gate;
- the sign-up, login, "me", user-listing and user-creation handlers, in both copies the repository carries (the `auth` package and `controllers`, and `handlers` and `controllers`);
- the route table of `main`, seeding before serving, and scenario lemmas that combine the routes with the seeded roles.

The store is an immutable value: maps from ids to records, sets of join rows, one id counter per table, and an `online` flag. When the flag is false, every store call fails the way a lost database connection does. Every handler is a pure function from the store and the request to the response and, when it writes, the new store (`Http.Exchange`).

The utilities the core calls but does not define are uninterpreted total functions in `Collaborators.Services`. These are password hashing and checking, token issue, the JWT library's parse-and-verify, and the validator's `email` rule. A round trip between two of them appears only as an explicit `requires`, for example in `Auth.RegisterThenLogin`.

Modules, in dependency order:

- `Strings`: ASCII case folding, `strings.EqualFold`, first index, suffix test.
- `Models`: entities, store invariants, GORM lookups and writes, loading with `Preload`, JSON view.
- `Collaborators`: the uninterpreted services and the configuration.
- `Http`: status codes, bodies, request binding with the `binding:"..."` tags.
- `Middleware`: header parsing, `MiddlewareFunc`, `RequirePermission`.
- `Seeding`: `SeedDefaults` stage by stage, and its post-state and idempotence.
- `Auth`: `auth.Login` and `auth.Register`.
- `Controllers`: `AuthController` and `UserController`.
- `Handlers`: the `handlers` package copies.
- `Api`: the route table, dispatch, serving, and `main`.
- `Access`: what the seeded roles let their holders do, end to end.

The model follows these details of the code:

- Registration answers 201 with the message "user created", not with a user view (internal/auth/auth.go:83, internal/controllers/auth_controller.go:47).
- The gate answers a missing context user with 401 "not authenticated", not with a server error (internal/middleware/auth_middleware.go:73-77).
- The middleware answers 500 for a store error other than "not found" (internal/middleware/auth_middleware.go:59-61).
- The middleware's 401 bodies name the failing step ("missing auth header", "invalid token claims", "user not found", and so on).
- The seeding routine creates the admin account only when no user is named "admin". A user holding the admin email makes that create fail, and then no role is appended.
- `UserController.CreateUser` discards the hashing error and stores the digest returned with it (internal/controllers/user_controller.go:45).

## Model

| member | source | states |
|---|---|---|
| Strings.IndexOf | internal/middleware/auth_middleware.go:34 | the first position of a character at or after a start, or the length when there is none |
| Strings.EqualFold | internal/middleware/auth_middleware.go:35 | true exactly when the strings have equal length and each pair of characters is equal or an ASCII letter and its other case |
| Strings.HasSuffix | internal/models/models.go:84 | true exactly when the string is some prefix followed by the suffix, the match `LIKE '%' + suffix` makes |
| Models.LeastMatch | internal/models/models.go:59 | the least key below a bound whose row matches, or none exactly when no key in range matches, the order GORM's `First` uses |
| Models.Ascending | internal/models/models.go:79 | the keys of a map as a strictly ascending sequence holding every key exactly once |
| Models.FindUserByUsername | internal/auth/auth.go:27 | unavailable when offline; otherwise the user with that exact username, or not-found exactly when there is none |
| Models.FindRoleByName | internal/controllers/user_controller.go:54 | unavailable when offline; otherwise a role of exactly that name, or not-found exactly when there is none |
| Models.FindPermissionByName | internal/models/models.go:59 | unavailable when offline; otherwise a permission of exactly that name, or not-found exactly when there is none |
| Models.FindUserById | internal/middleware/auth_middleware.go:56-57 | unavailable when offline, not-found for an unknown id; otherwise the user under that id, with its stored hash and exactly the permission names the join tables grant it |
| Models.LoadRole | internal/models/models.go:26 | a role loaded with exactly the permissions its join rows give it, with their stored names |
| Models.LoadUser | internal/middleware/auth_middleware.go:54-56 | a user loaded with `Roles.Permissions`: the stored fields and exactly the roles its join rows give it, each loaded with its permissions |
| Models.LoadAllUsers | internal/controllers/user_controller.go:26 | `Preload("Roles.Permissions").Find`: no users when offline; otherwise every stored user once, loaded; listed in ascending id order, an order the query itself leaves open |
| Models.InsertUser | internal/controllers/auth_controller.go:37-40 | refused when offline or when the username or email is taken; otherwise the record under the next id and nothing else changed |
| Models.InsertRole | internal/models/models.go:70 | refused when offline or when the role name is taken; otherwise the record under the next id |
| Models.InsertPermission | internal/models/models.go:60 | refused when offline or when the permission name is taken; otherwise the record under the next id |
| Models.AppendUserRole | internal/controllers/auth_controller.go:44 | adds the one user-role edge when online and both ends exist, and otherwise changes nothing |
| Models.ReplaceRolePermissions | internal/models/models.go:81 | afterwards the role holds exactly the given permissions, and no other role's edges move |
| Models.EnrolledRoles | internal/controllers/user_controller.go:48-58 | an enrolled user holds exactly the roles it was enrolled with, and every other user keeps its roles |
| Models.GrantsOfConcatenation | internal/middleware/auth_middleware.go:85-92 | the names granted by two role lists together are the union of the names each grants |
| Models.LoadedGrantsMatchStore | internal/middleware/auth_middleware.go:54-56 | a loaded user's effective permissions are exactly the names the join tables grant its id |
| Models.JsonOmitsHash | internal/models/models.go:16 | two users that differ only in their hash serialize identically |
| Models.Sanitize | internal/controllers/user_controller.go:20 | the hash is empty and every other field is unchanged |
| Http.BindLogin | internal/auth/auth.go:13-15 | binds exactly a JSON body whose username and password are both non-empty, copying both |
| Http.SignupFieldsValid | internal/auth/auth.go:47-50 | a valid sign-up body is JSON with a password of at least six characters and an email the email rule accepts, and it also binds as a login with the same username and password |
| Http.BindRegister | internal/auth/auth.go:47-50 | binds exactly the bodies the sign-up rules accept, copying username, email and password |
| Http.BindCreateUser | internal/controllers/user_controller.go:34-42 | binds exactly the bodies registration binds, with the same three fields, plus the unvalidated role |
| Middleware.PresentsSplitsAtSix | internal/middleware/auth_middleware.go:34-35 | a header presenting a Bearer token has its first space at position six, and the token is everything after it |
| Middleware.ParseAuthorization | internal/middleware/auth_middleware.go:29-39 | missing exactly for an empty header; otherwise the token after the first space when the part before it is a case variant of "Bearer", and invalid otherwise |
| Middleware.BearerRoundTrip | internal/middleware/auth_middleware.go:34-39 | any case variant of "Bearer", a space and any token, which may be empty or hold spaces, parses back to that token |
| Middleware.MalformedHeaders | internal/middleware/auth_middleware.go:34-38 | a non-empty header with no space, or whose first part is not "Bearer" in any case, is invalid |
| Middleware.ResolveClaims | internal/middleware/auth_middleware.go:43-65 | resolved exactly for verified claims naming a stored user on a reachable store, and then that user with exactly its join-table grants; every abort is 401 except a store failure, which is 500 |
| Middleware.MiddlewareFunc | internal/middleware/auth_middleware.go:27-68 | each abort with its status and message (missing header, invalid header, invalid token, foreign claims, unknown user 401, store failure 500); resolved exactly for a verified token whose user is stored, and then that user loaded |
| Middleware.ResolvedUserHasStoreGrants | internal/middleware/auth_middleware.go:55-65 | the user handed downstream is stored and carries exactly the grants of its join rows |
| Middleware.ScanPermissions | internal/middleware/auth_middleware.go:86-90 | true exactly when some permission of the list has the name, compared case-sensitively |
| Middleware.ScanRoles | internal/middleware/auth_middleware.go:85-92 | true exactly when the name is in the union of the roles' permissions |
| Middleware.RequirePermission | internal/middleware/auth_middleware.go:71-96 | unset context 401, foreign value 500; for a user, next exactly when some role grants the name, and otherwise 403 naming the permission |
| Middleware.GateIgnoresOrderAndDuplicates | internal/middleware/auth_middleware.go:85-92 | reordering or duplicating a user's roles never changes the decision |
| Middleware.GateIgnoresPermissionOrder | internal/middleware/auth_middleware.go:86 | reordering or duplicating the permissions inside a role never changes the decision |
| Middleware.GateMonotoneInRoles | internal/middleware/auth_middleware.go:85-92 | giving a user more roles never turns an allow into a deny |
| Middleware.GateIgnoresStore | internal/middleware/auth_middleware.go:71 | the decision is the same whatever store the gate was built with |
| Seeding.EnsurePermission | internal/models/models.go:57-64 | one baseline permission is present afterwards; a name already present, or an offline store, leaves the store unchanged |
| Seeding.EnsurePermissions | internal/models/models.go:50-64 | every baseline name is present afterwards, only permission rows are added, and a store already holding them is unchanged |
| Seeding.FirstOrCreateRole | internal/models/models.go:70-75 | the id of a role with that name, created only when none exists, and no other role changes |
| Seeding.SeedRoles | internal/models/models.go:67-75 | both default roles exist afterwards, found or created, and only role rows are added |
| Seeding.FindAllPermissions | internal/models/models.go:79 | every stored permission id when the store answers, and none when the call fails |
| Seeding.FindReadPermissions | internal/models/models.go:84 | among the ids of every permission, those whose name is some prefix followed by ":read"; none when the call fails |
| Seeding.GrantDefaults | internal/models/models.go:77-86 | with any permission present, admin holds every permission and user exactly those ending in ":read"; nothing when there is none; no other role's grants move |
| Seeding.SeedAdminUser | internal/models/models.go:88-102 | the admin account is created only when neither its username nor its email is taken, and the admin role is appended only after that create |
| Seeding.SeedDefaults | internal/models/models.go:48-103 | the store stays valid, and an offline store is left unchanged |
| Seeding.SeedStages | internal/models/models.go:48-103 | a run is the four stages in order, and after the grant stage both roles hold their target grants |
| Seeding.GrantStageEstablishes | internal/models/models.go:77-86 | after the grant stage the roles found hold the full and the read-only permission sets |
| Seeding.AdminStageSeeds | internal/models/models.go:88-102 | after the admin stage the store meets the seeded post-state |
| Seeding.SeedEstablishesSeeded | internal/models/models.go:48-103 | seeding an online store reaches the seeded post-state: baseline permissions, both roles with their grants, an admin account |
| Seeding.ReplaceWithCurrentIsIdentity | internal/models/models.go:81 | replacing a role's permissions with the ones it already holds changes nothing |
| Seeding.RolesFound | internal/models/models.go:70-75 | on a seeded store the role stage finds the existing roles and creates nothing |
| Seeding.GrantsUnchanged | internal/models/models.go:77-86 | on a seeded store the grant stage changes nothing |
| Seeding.SeedFixesSeeded | internal/models/models.go:48-103 | seeding a store already in the seeded post-state returns it unchanged |
| Seeding.SeedIdempotent | internal/models/models.go:48-103 | seeding twice gives the same store as seeding once |
| Seeding.SeedPermissions | internal/models/models.go:50-64 | all four baseline permissions exist afterwards, existing rows are kept, and each new row is a baseline record whose name was absent |
| Seeding.SeedRolesOnce | internal/models/models.go:67-75 | exactly one "admin" and one "user" role afterwards; existing roles are kept and new ones are the two defaults |
| Seeding.SeedGrants | internal/models/models.go:78-85 | afterwards the admin role holds every permission and the user role exactly the ":read" ones |
| Seeding.BaselineReadNames | internal/models/models.go:50-55 | of the baseline, exactly "user:read" and "post:read" end in ":read" |
| Seeding.ReadGrantsOfBaseline | internal/models/models.go:83-85 | with only the baseline present, the user role's permission names are exactly "user:read" and "post:read" |
| Seeding.SeedBaselineReadGrants | internal/models/models.go:83-85 | seeding a reachable store whose permissions are all baseline records, the empty store included, leaves the user role with exactly "user:read" and "post:read" |
| Seeding.SeedAdminAccount | internal/models/models.go:88-102 | the admin account and its admin edge are added exactly when neither the username nor the email was taken; otherwise users and their roles are untouched |
| Seeding.SeedLeavesOtherRoles | internal/models/models.go:77-86 | a role other than the two defaults keeps its permissions |
| Auth.LoginAs | internal/auth/auth.go:32-43 | a wrong password answers "invalid credentials"; 200 with the issued token exactly when the password checks and a token is issued for that id; otherwise 500 "couldn't create token" |
| Auth.Login | internal/auth/auth.go:18-45 | 400 "invalid payload" on a bind failure; 401 "invalid credentials" for an unknown user or a wrong password; 500 when the token cannot be issued; 200 exactly when the user exists, the password checks and a token is issued for that user's id |
| Auth.Register | internal/auth/auth.go:53-85 | 400 with the store unchanged on a bind failure or a taken username or email; 500 on a hash failure; otherwise 201 "user created", the new user stored with the digest, and the "user" role attached exactly when it exists |
| Auth.GrantRoleNamed | internal/auth/auth.go:77-81 | the user gains every role of that name, which is none when the role is missing, and nothing else changes |
| Auth.UniformInvalidCredentials | internal/auth/auth.go:27-35 | an unknown username and a wrong password produce the identical response |
| Auth.RegisterThenLogin | internal/auth/auth.go:18-85 | after a successful registration, logging in with the same password yields a token for the new id, and another password yields "invalid credentials" |
| Controllers.Register | internal/controllers/auth_controller.go:19-48 | behaves exactly as `auth.Register` on every store and body |
| Controllers.Login | internal/controllers/auth_controller.go:50-78 | behaves exactly as `auth.Login` on every store and body |
| Controllers.Me | internal/controllers/user_controller.go:17-22 | 200 with the context user, hash cleared and view unchanged, exactly when a user is in the context; otherwise the recovered panic's 500 |
| Controllers.SanitizeAll | internal/controllers/user_controller.go:27-29 | position by position, each shown user keeps the id and serialized view of the loaded one and differs from it only in an empty hash |
| Controllers.ListUsers | internal/controllers/user_controller.go:24-31 | 200 with every stored user once, each as loaded with its hash cleared, in the ascending id order the model fixes; empty when the store is unreachable |
| Controllers.AttachRole | internal/controllers/user_controller.go:53-58 | with an empty role name nothing changes; otherwise the user gains the role of that name when it exists, and the response shows that role |
| Controllers.CreateUser | internal/controllers/user_controller.go:33-62 | 400 with the store unchanged on a bind failure or a taken username or email; a hash failure does not abort; otherwise 201 showing the new user with an empty hash and exactly the requested role when it exists |
| Controllers.MeShowsResolvedUser | internal/controllers/user_controller.go:17-22 | `Me` shows the user the middleware resolved, as stored, with its hash hidden and exactly its store grants |
| Controllers.EnrolledUserIsListed | internal/controllers/user_controller.go:24-31 | an enrolled user appears in the listing as stored, with its hash hidden and exactly its enrolled roles |
| Controllers.CreatedUserIsListed | internal/controllers/user_controller.go:33-62 | a user created through `CreateUser` then appears in `ListUsers` |
| Controllers.CreateUserAsUserRoleIsRegister | internal/controllers/user_controller.go:33-62 | creating a user with role "user" and no hash failure writes the same store as registration, and succeeds exactly when registration does |
| Controllers.CreateUserIgnoresHashFailure | internal/controllers/user_controller.go:45 | on a hash failure registration answers 500 and writes nothing, while `CreateUser` still answers 201 and stores the digest that came back |
| Handlers.Me | internal/handlers/handler.go:24-32 | answers exactly as `UserController.Me` |
| Handlers.ListUsers | internal/handlers/handler.go:35-44 | answers exactly as `UserController.ListUsers` |
| Handlers.CreateUser | internal/handlers/handler.go:53-79 | writes and answers exactly as `UserController.CreateUser` |
| Api.FindRoute | cmd/api/main.go:36-48 | the first route with that method and path, or none exactly when no route has them |
| Api.FindsFirstMatch | cmd/api/main.go:36-48 | a route is found at its own position when no earlier route has its method and path |
| Api.TableLookup | cmd/api/main.go:36-48 | every route of the table is the one found for its own method and path |
| Api.RoutesDistinct | cmd/api/main.go:36-48 | no two routes share a method and a path |
| Api.SignUpRoutes | cmd/api/main.go:36-45 | only POST /register and POST /api/users end in a sign-up endpoint |
| Api.Posts | internal/controllers/post_controller.go:17-30 | the listing always answers 200; creation answers 400 with the binder's error exactly for an unparsable body and 201 otherwise; the body is the placeholder content except on 400 |
| Api.Dispatch | cmd/api/main.go:36-48 | each endpoint keeps the store valid, only grows it, writes only when it signs a user up, and answers a known status |
| Api.EnrolledGrows | internal/controllers/user_controller.go:48-58 | enrolling a user only grows the store |
| Api.SignUpGrows | internal/controllers/auth_controller.go:36-45 | both sign-up handlers only grow the store |
| Api.Handle | cmd/api/main.go:40-48 | a matched route keeps the store valid and growing, writes only on sign-up, and answers a known status |
| Api.GuardedRoute | cmd/api/main.go:40-48 | behind the middleware, the answer is the middleware's abort, else the gate's denial, else the endpoint with the resolved user |
| Api.Serve | cmd/api/main.go:35-48 | an unmatched request gets 404 and changes nothing; a write happens only on a matched sign-up route; the status is one the handlers use |
| Api.ServeAll | cmd/api/main.go:50-55 | one response per request, each with a known status, and the store stays valid |
| Api.ServeAllGrows | cmd/api/main.go:50-55 | a run of requests only grows the store |
| Api.GrowsTransitive | cmd/api/main.go:50-55 | growth composes across requests |
| Api.Program | cmd/api/main.go:16-55 | seeding runs before serving, and on a reachable store every state reached while serving is still seeded |
| Api.SeedingSurvivesServing | cmd/api/main.go:25-55 | the seeded post-state holds after any sequence of requests |
| Api.GrowsKeepsSeeded | cmd/api/main.go:25-55 | growing a seeded store keeps it seeded |
| Api.PublicRoutesIgnoreHeader | cmd/api/main.go:36-37 | POST /register and POST /login answer the same whatever the Authorization header |
| Api.ApiRoutesAreGuarded | cmd/api/main.go:40-41 | a route is behind the middleware exactly when its path is under "/api/" |
| Api.MiddlewareRunsFirst | cmd/api/main.go:41 | on an `/api` route, a request the middleware aborts gets that abort and changes nothing |
| Api.GateDecidesByStoreGrants | cmd/api/main.go:44-48 | on a gated route, a resolved user whose grants lack the permission gets 403 and changes nothing, and one whose grants hold it reaches the endpoint |
| Api.CreationNeedsUserCreate | cmd/api/main.go:45 | a write through POST /api/users happens only for a resolved caller granted "user:create" |
| Api.MeNeverPanics | cmd/api/main.go:43 | `Me` behind the middleware never answers with the recovered panic, and answers 200 exactly when the caller is resolved and admitted |
| Api.MeRouteAnswers | cmd/api/main.go:43 | GET /api/me needs authentication only: it answers 200 exactly when the middleware resolves a user |
| Access.GrantedThroughRole | internal/middleware/auth_middleware.go:85-92 | a permission of one of the user's roles is granted to the user |
| Access.GrantedComesFromRole | internal/middleware/auth_middleware.go:85-92 | every granted name is the name of a permission of one of the user's roles |
| Access.SeededRoles | internal/models/models.go:67-85 | a seeded store has the admin role with every permission and a single user role with the ":read" ones |
| Access.ReaderMayRead | cmd/api/main.go:44-47 | a holder of only the seeded "user" role is granted "user:read" and "post:read" |
| Access.ReaderGrantsOnlyReads | internal/models/models.go:83-85 | everything granted to a holder of only the seeded "user" role ends in ":read" |
| Access.ReaderGrants | cmd/api/main.go:44-48 | a holder of only the seeded "user" role may read users and posts and may create neither |
| Access.AdminGrants | cmd/api/main.go:44-48 | a holder of the seeded "admin" role is granted all four baseline permissions |
| Access.BearerResolves | internal/middleware/auth_middleware.go:41-66 | a verified token for a stored user resolves to that user loaded |
| Access.UsersListing | cmd/api/main.go:44 | GET /api/users lists the users exactly when the caller is granted "user:read", and otherwise answers 403 |
| Access.UserCreation | cmd/api/main.go:45 | POST /api/users runs user creation exactly when the caller is granted "user:create", and otherwise answers 403 |
| Access.PostsListing | cmd/api/main.go:47 | GET /api/posts answers 200 exactly when the caller is granted "post:read", and otherwise 403 |
| Access.PostCreation | cmd/api/main.go:48 | POST /api/posts reaches post creation exactly when the caller is granted "post:create", and otherwise 403 |
| Access.ReaderRequests | cmd/api/main.go:44-48 | on a seeded store, a holder of the "user" role lists users and posts and gets 403 with nothing written on both creations |
| Access.AdminRequests | cmd/api/main.go:44-48 | on a seeded store, a holder of the "admin" role reaches all four gated endpoints |
| Access.SignedUpUserIsReader | cmd/api/main.go:36-45 | a fresh sign-up on a seeded store keeps it seeded, and its token lists users and is refused user creation |

## Left out

- The `utils` package (hashing, hash check, token issue, token claims) is not part of this model. It is uninterpreted in `Collaborators.Services`, and no round trip between its functions is derived.
- JWT parsing, signature checks and expiry belong to the library. They are folded into one verdict per token: invalid, foreign claims, or a claimed user id.
- Gin's routing, JSON decoding and validator messages are not modelled. A body is unparsable or a record of string fields, and the binder's own error text is the opaque `BindErrorBody`.
- The `email` rule is an uninterpreted predicate. "min=6" is a count of characters.
- `strings.EqualFold` is modelled as ASCII case folding. No non-ASCII character folds onto the letters of "Bearer", so the comparison with "Bearer" is the same.
- internal/config/config.go is not part of this model: the secret and the token lifetime are a `Config` value.
- internal/db/db.go is not part of this model: the connection, and `AutoMigrate` with its fatal exit, are taken to have succeeded.
- internal/repository/user_repository.go is not part of this model, because nothing in the core calls it.
- The post handlers are placeholders. Only their statuses and bind failure are modelled (`PostsBody`), and `handlers.ListPosts` and `handlers.CreatePost` are not routed.
- Store failures are reduced to the `online` flag and the unique and foreign-key constraints. Timeouts and partial failures inside one call are not modelled.
- Postgres sequence gaps after refused inserts are not modelled, because ids come from a counter that moves only on success.
- Timestamps, log output, the listening port and Gin's trailing-slash redirects are left out.
- Concurrency is left out. Each request is one step on the store, and the unique constraints stand in for race handling.
- Controllers.ListUsers: the listing is stated in ascending id order. `Find` sends no ORDER BY, so the database may return the users in any order; the contract fixes one order rather than stating only membership.
- Controllers.ListUsers: an unreachable store yields an empty list. Go's `Find` error is ignored and the JSON is `null`, which is not distinguished here.
- Models.LoadAllUsers: the ascending id order of the result is the model's choice. The query has no ORDER BY and the database may list the users in another order.
- Models.LoadRole: a role's permissions, and with `Models.LoadUser` a user's roles, are listed in ascending id order. The preload queries leave the order open; their contracts state only which entries are present.
- Controllers.Me: the panic on a missing or foreign context value is modelled as the recovery middleware's 500 with an empty body.
- Handlers.Me, Handlers.ListUsers, Handlers.CreateUser: only equivalence with the controller copies is stated. The controller copies carry the contracts.
- `handlers.Register` and `handlers.Login` return the `auth` package's handlers unchanged, so `Auth.Register` and `Auth.Login` model them and they have no members of their own.
