# Authentication and authorization core of the task-management backend

This project models, in Dafny, the decision layer of a multi-tenant
task-management backend: how a request's bearer token becomes an identity,
which gates a request to the organization router passes through, and what the
organization, registration, login and current-user handlers do to an abstract
in-memory store of users and organizations.

- `Domain` holds the store's entities (`User`, `Organization`), the request
  identity (`Identity`, the `req.user` of the source), the store snapshot `Db`,
  its invariant (`Valid`: emails are unique, only existing users are connected
  to organizations) and the shapes of the responses. A handler's result is an
  `Outcome`: the response plus the store after the call.
- `Foreign` takes the password hasher (`hash`, `compare`) and the token service
  (`issue`, `verify`) as parameters. The only facts assumed about them are
  predicates that lemmas take as hypotheses: a password matches its own hash,
  a freshly issued token verifies to its claims, and issued tokens contain no space.
- `TextSplit` is JavaScript's `split` on one character, with `Join` as its inverse.
- `AuthMiddleware` has the header token extraction `split(" ")[1]` and the two
  gates `authenticate` and `authorizeAdmin`, as functions.
  `RequestContext.Request` is the request object whose `user` field
  `authenticate` assigns.
- `OrganizationController`, `AuthController` and `UserController` give each
  handler as a function from the store before the call to an `Outcome`. The
  function's contract states the guards in their order, the success
  condition (both directions), the writes and the frame ("nothing else
  changes"), and that the store invariant is preserved.
- `Database.Store` is the store as a class with `users` and `orgs` fields.
  Each handler is a method there that returns early at each guard and then
  performs the source's writes one by one. Each method's contract ties its
  response and the new field values to the controller function. Methods that
  only read have no `modifies` clause, so they cannot change the store.
- `OrganizationRoutes` is the router: `authenticate` registered for every
  request, the route table in registration order, and `Dispatch`, which runs
  the gate chain and then the matched handler.
- `Scenarios` joins the pieces: a registration token sent back in the
  Authorization header, and registering and then reading one's own organization.

A few behaviours of the code worth stating up front:
- Both creation paths connect the creator as a member of the new organization
  (`users: { connect }`).
- `authorizeAdmin` returns 403 when no identity is attached at all.
- `getOrganization` itself has no authentication check. A call with no identity
  gets 404 or 403, depending on whether the organization exists.

JavaScript truthiness is written out. `!userId` holds for a missing identity
and for an empty user id. `if (organizationName)` fails for a missing name and
for the empty string. The token check `!token` fails for a missing header, a
header with no space, and an empty second field.

A nested `connect` to a user id the store does not hold makes the store throw.
The model represents this as the `Thrown` response with nothing written. Apart
from that, `connect` only adds the user to the organization's member set.

## Model

| member | source | states |
|---|---|---|
| Domain.UserByEmail | src/controllers/authController.ts:16-18 | the lookup by email yields the one user with that email, or reports that no user has it |
| TextSplit.Split | src/middleware/authMiddleware.ts:23 | splitting always yields at least one field and no field contains the separator |
| TextSplit.JoinSplit | src/middleware/authMiddleware.ts:23 | joining the fields of a split with the separator gives back the original header |
| TextSplit.SplitWithout | src/middleware/authMiddleware.ts:23 | a string without the separator splits into itself alone |
| TextSplit.SplitAtFirst | src/middleware/authMiddleware.ts:23 | the text before the first separator is the first field and the rest splits on its own |
| TextSplit.SplitJoin | src/middleware/authMiddleware.ts:23 | splitting the join of separator-free fields gives those fields back |
| AuthMiddleware.BearerToken | src/middleware/authMiddleware.ts:23-25 | an extracted token is never empty and has no space |
| AuthMiddleware.BearerTokenIsSecondWord | src/middleware/authMiddleware.ts:23 | for any first word (not only "Bearer"), the token is the word after the first space, up to the next space or the end |
| AuthMiddleware.BearerTokenShape | src/middleware/authMiddleware.ts:23 | conversely, every extracted token sits right after the first space and ends at a space or at the end |
| AuthMiddleware.NoTokenWithoutSpace | src/middleware/authMiddleware.ts:23-29 | a header without a space yields no token |
| AuthMiddleware.NoTokenAfterEmptyField | src/middleware/authMiddleware.ts:23-29 | a header whose first space is followed by the end or another space ("Bearer ", a double space) yields no token |
| AuthMiddleware.Authenticate | src/middleware/authMiddleware.ts:17-41 | no token gives 401 "No token provided"; a token verify rejects gives 401 "Invalid token"; the request continues exactly when verify accepts the token, with exactly the decoded userId and role |
| AuthMiddleware.NoTokenNoVerify | src/middleware/authMiddleware.ts:25-31 | without a token the outcome is the same for every verifier, so verify plays no part |
| AuthMiddleware.AuthorizeAdmin | src/middleware/authMiddleware.ts:43-52 | 403 exactly when no identity is attached or its role is not the string "ADMIN"; an admin request passes with its identity unchanged |
| RequestContext.Request.Authenticate | src/middleware/authMiddleware.ts:17-41 | req.user is assigned the decoded claims on success and left as it was on every failure |
| RequestContext.Request.AuthorizeAdmin | src/middleware/authMiddleware.ts:43-52 | the admin gate reads req.user and modifies nothing |
| OrganizationController.MemberViews | src/controllers/organizationController.ts:57-68 | the members are exactly the connected users, each projected to id, email and role |
| OrganizationController.CreateOrganization | src/controllers/organizationController.ts:5-46 | no user id gives 401 and writes nothing; a user id the store does not hold makes the nested connect throw, with nothing written; success (201) happens exactly for a stored caller and adds exactly one organization with the given name, createdBy the caller and the caller as its member; the caller's organizationId is the new id and their role is ADMIN; no other user changes; the invariant is kept |
| OrganizationController.GetOrganization | src/controllers/organizationController.ts:48-93 | 404 for an unknown id, 403 for a caller outside the member set, otherwise 200 with the organization's columns and exactly its members' id/email/role views |
| OrganizationController.UpdateOrganization | src/controllers/organizationController.ts:95-146 | a non-ADMIN gets 403 before any lookup, even for an id that does not exist; then 404, then 403 for a non-member; success exactly for an ADMIN member of an existing organization; only its name changes; every rejection leaves the store unchanged |
| OrganizationController.DeleteOrganization | src/controllers/organizationController.ts:148-196 | the same three guards in the same order; on success the status is 204, the id is no longer in the store and nothing else changes; every rejection leaves the store unchanged |
| OrganizationController.DeleteGuardsMatchUpdate | src/controllers/organizationController.ts:159-182 | update and delete accept and reject exactly the same calls, with the same statuses |
| OrganizationController.CreateThenGet | src/controllers/organizationController.ts:18-35 | right after a create, the creator reads the organization with 200 and sees themselves, now an ADMIN, as its only member |
| OrganizationController.UpdateThenGet | src/controllers/organizationController.ts:132-135 | after an update, a member reads the new name with the creator unchanged |
| OrganizationController.DeleteThenGet | src/controllers/organizationController.ts:185-187 | after a delete, every read of that id is a 404 |
| AuthController.Register | src/controllers/authController.ts:7-73 | a taken email gives 400 and writes nothing; otherwise exactly one user is added with the given email, role ADMIN and password hash(password); existing users are untouched; a truthy organization name adds exactly one organization created by and connected to the new user, and an absent or empty name adds none; the response is 201 with the id/email/role view and the token issue(id, "ADMIN"); the invariant is kept |
| AuthController.Login | src/controllers/authController.ts:75-115 | success exactly when a user with that email exists and compare(password, stored hash) holds, with 200, that user's public view and a token for its stored id and role; an unknown email and a wrong password give the identical 401 "Invalid credentials"; the store is an input only |
| AuthController.RegisterThenLogin | src/controllers/authController.ts:7-115 | when a password matches its own hash, a user who just registered logs in with the same password and gets 200 and a token for the new id with role ADMIN |
| UserController.OrganizationSummary | src/controllers/userController.ts:22-28 | the included organization exists exactly when the stored organizationId points at one, and it carries only that id and name |
| UserController.GetCurrentUser | src/controllers/userController.ts:8-48 | no user id gives 401; an id the store does not hold gives 404; otherwise 200 with a profile that, together with the stored password, gives back the stored row exactly |
| OrganizationRoutes.FirstMatch | src/routes/organizationRoutes.ts:16-25 | the route found accepts the request and is the first accepting one in registration order; when none is found, no route accepts it |
| OrganizationRoutes.RunChains | src/routes/organizationRoutes.ts:13-25 | the single-gate chain is authenticate alone; the two-gate chain runs authorizeAdmin on the identity authenticate attached, and only after authenticate passes |
| OrganizationRoutes.MatchedRoutes | src/routes/organizationRoutes.ts:16-25 | POST "/", GET, PUT and DELETE on "/:id" reach their registered routes; every other pair matches none |
| OrganizationRoutes.ChainShapes | src/routes/organizationRoutes.ts:13-25 | every request runs authenticate first; PUT and DELETE on "/:id" run authorizeAdmin next; POST "/" and GET "/:id" run no admin gate |
| OrganizationRoutes.Dispatch | src/routes/organizationRoutes.ts:13-25 | a request through the router keeps the store invariant |
| OrganizationRoutes.UnauthenticatedReachesNoHandler | src/routes/organizationRoutes.ts:13 | a request failing authenticate gets its 401 on any method and path, and the store is unchanged |
| OrganizationRoutes.NonAdminStoppedBeforeHandler | src/routes/organizationRoutes.ts:22-25 | an authenticated non-ADMIN gets the middleware's 403 on PUT and DELETE, and the store is unchanged |
| OrganizationRoutes.CreateAndGetOpenToAnyRole | src/routes/organizationRoutes.ts:16-19 | any authenticated role reaches createOrganization and getOrganization with its identity |
| OrganizationRoutes.AdminReachesMutationHandlers | src/routes/organizationRoutes.ts:22-25 | for an authenticated ADMIN, PUT "/:id" gives exactly the outcome of updateOrganization and DELETE "/:id" exactly that of deleteOrganization, with the attached identity |
| OrganizationRoutes.MutationSucceedsOnlyForAdminMembers | src/routes/organizationRoutes.ts:22-25 | through the router, PUT and DELETE on "/:id" succeed exactly for an authenticated ADMIN who is a member of an existing organization |
| OrganizationRoutes.UnroutedFallsThrough | src/routes/organizationRoutes.ts:13 | an authenticated request no route accepts falls through the router without touching the store |
| Database.Store.CreateOrganization | src/controllers/organizationController.ts:5-46 | the create and then the user update, performed one after the other, give exactly the response and store of the create function; the invariant is kept |
| Database.Store.GetOrganization | src/controllers/organizationController.ts:48-93 | read-only: responds as the get function and modifies nothing |
| Database.Store.UpdateOrganization | src/controllers/organizationController.ts:95-146 | the guarded name update gives exactly the response and store of the update function |
| Database.Store.DeleteOrganization | src/controllers/organizationController.ts:148-196 | the guarded delete gives exactly the response and store of the delete function |
| Database.Store.Register | src/controllers/authController.ts:7-73 | the user create, the optional organization create and the role update, in that order, give exactly the response and store of the register function |
| Database.Store.Login | src/controllers/authController.ts:75-115 | read-only: responds as the login function and modifies nothing |
| Database.Store.GetCurrentUser | src/controllers/userController.ts:8-48 | read-only: responds as the current-user function and modifies nothing |
| Database.Store.GetAllUsers | src/controllers/userController.ts:51-57 | sends no response and modifies nothing |
| Database.Store.GetUser | src/controllers/userController.ts:59-65 | sends no response and modifies nothing |
| Database.Store.CreateUser | src/controllers/userController.ts:67-73 | sends no response and modifies nothing |
| Database.Store.UpdateUser | src/controllers/userController.ts:75-81 | sends no response and modifies nothing |
| Database.Store.DeleteUser | src/controllers/userController.ts:83-89 | sends no response and modifies nothing |
| Scenarios.RegisterTokenAuthenticates | src/controllers/authController.ts:57 | when issued tokens verify to their claims and contain no space, the registration token sent as "Bearer <token>" authenticates as the new user with role ADMIN |
| Scenarios.RegisterThenReadOrganization | src/controllers/authController.ts:38-47 | registering with an organization name and then reading it through the router with the returned token gives 200, lists the new user as a member and writes nothing |
| Scenarios.OutsiderCannotRead | src/controllers/organizationController.ts:75-82 | after one user creates an organization, a caller with any other user id gets 403 when reading it |

## Left out

- AuthController.Register: says nothing about the new user's organizationId. Whether the nested `connect` also writes that column depends on the database schema, which is not part of this model. The model writes only what the handler writes explicitly.
- Record ids come from the store's generator. They are parameters here, and each method requires them to be unused (a fresh id never collides).
- bcrypt salting, cost factor and constant-time comparison are foreign cryptography. Only `hash`, `compare` and the assumption that a password matches its own hash are modelled. A salted hash is not a function of the password, so different digests for equal passwords are not represented.
- JWT signing, the secret with its fallback, the 24-hour expiry and clock-dependent rejection are left out. The token service is only `issue` plus a partial `verify`. An expired or tampered token is any token `verify` rejects.
- The error handler's mapping from store exceptions to responses is not part of this model. Those exceptions appear as `Thrown`, without a status.
- Membership is a member set kept per organization, because the database schema is not part of this model. Under a one-to-many schema, where membership is the user's `organizationId`, the connect and the `organizationId` write in create would also take the user out of their previous organization. In the model, a user who creates a second organization stays a member of the first.
- Deleting an organization does not cascade, clear or refuse anything in the model. What the database does to users who point at a deleted organization depends on the schema, which is not part of this model.
- The two writes in create and register are modelled as one sequential call. Interleaving with other requests and a crash between the writes are concurrency and failure concerns, not modelled.
- Request body parsing is left out. `name`, `email`, `password` are strings, and `organizationName` is an optional string. Missing or non-string JSON fields, and the store's validation errors for them, are not modelled.
- Express path matching details are left out: trailing slashes, case-insensitivity and URL decoding. A path is already "/" or "/<id>" with a non-empty id, so GET, PUT or DELETE "/" reaches no route.
- Only the four verbs the router registers are modelled. Express also answers HEAD "/:id" with the GET route's chain and handler; that request is not representable here.
- Columns of the rows beyond those the handlers name (timestamps and so on) are not modelled. The member list of an organization is a set, so the order of the JSON array is not modelled.
- The server start-up, CORS and body parsing, the seed script, the user and task routers and the token generator module are outside the core.
