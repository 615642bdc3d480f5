/** The organization router: `authenticate` registered on the whole router,
    then four routes, two of them behind `authorizeAdmin`. `Dispatch` composes
    the gates with the organization handlers end to end. */
module OrganizationRoutes {
  import opened Wrappers
  import opened Domain
  import opened Foreign
  import AuthMiddleware
  import OC = OrganizationController

  datatype HttpMethod = GET | POST | PUT | DELETE

  /** A non-empty path segment: what "/:id" binds. */
  type Segment = s: Id | s != "" witness "x"

  /** A request path below the router's mount point: "/" or "/<id>", whose id
      segment is never empty, so "/" has only the one form. */
  datatype Path = Root | ById(id: Segment)

  /** The two path patterns the router registers: "/" and "/:id". */
  datatype Pattern = RootPattern | IdPattern

  datatype Gate = Authenticate | AuthorizeAdmin

  datatype Handler = CreateOrganization | GetOrganization | UpdateOrganization | DeleteOrganization

  datatype Route = Route(verb: HttpMethod, pattern: Pattern, gates: seq<Gate>, handler: Handler)

  /** `organizationRoutes.use(authenticate)`: runs for every request the router sees. */
  const RouterGates: seq<Gate> := [Authenticate]

  /** The route table, in registration order. */
  const Routes: seq<Route> := [
    Route(POST, RootPattern, [], CreateOrganization),
    Route(GET, IdPattern, [], GetOrganization),
    Route(PUT, IdPattern, [AuthorizeAdmin], UpdateOrganization),
    Route(DELETE, IdPattern, [AuthorizeAdmin], DeleteOrganization)
  ]

  predicate Accepts(route: Route, m: HttpMethod, p: Path)
  {
    route.verb == m && (match route.pattern case RootPattern => p.Root? case IdPattern => p.ById?)
  }

  /** The first registered route that accepts the request, as Express picks it. */
  function FirstMatch(routes: seq<Route>, m: HttpMethod, p: Path): (found: Option<Route>)
    ensures found.Some? ==> found.value in routes && Accepts(found.value, m, p)
    ensures found.None? ==> forall i :: 0 <= i < |routes| ==> !Accepts(routes[i], m, p)
    ensures found.Some? ==>
              exists i :: 0 <= i < |routes| && routes[i] == found.value &&
                forall j :: 0 <= j < i ==> !Accepts(routes[j], m, p)
    decreases |routes|
  {
    if routes == [] then None
    else if Accepts(routes[0], m, p) then Some(routes[0])
    else FirstMatch(routes[1..], m, p)
  }

  /** The gates a request runs through before its handler, in order. */
  function Chain(m: HttpMethod, p: Path): (gates: seq<Gate>)
  {
    RouterGates + (match FirstMatch(Routes, m, p) case None => [] case Some(route) => route.gates)
  }

  /** Runs the gates in order, threading `req.user`; the first rejection stops the chain. */
  function RunGates(gates: seq<Gate>, authorization: Option<string>, verify: string -> Option<Identity>,
                    user: Option<Identity>): (step: AuthMiddleware.Step)
    decreases |gates|
  {
    if gates == [] then AuthMiddleware.Next(user)
    else
      var first := match gates[0]
        case Authenticate => AuthMiddleware.Authenticate(authorization, verify)
        case AuthorizeAdmin => AuthMiddleware.AuthorizeAdmin(user);
      match first
      case Reject(_, _) => first
      case Next(u) => RunGates(gates[1..], authorization, verify, u)
  }

  /** A request to the router: its gates, then its handler, if a route matched. */
  function Dispatch(db: Db, tokens: TokenService, m: HttpMethod, p: Path, authorization: Option<string>,
                    name: string, newId: Id): (out: Outcome)
    requires newId !in db.orgs
    ensures Valid(db) ==> Valid(out.db)
  {
    match RunGates(Chain(m, p), authorization, tokens.verify, None)
    case Reject(status, message) => Outcome(Err(status, message), db)
    case Next(user) =>
      match FirstMatch(Routes, m, p)
      case None => Outcome(NotRouted, db)
      case Some(route) =>
        match route.handler
        case CreateOrganization => OC.CreateOrganization(db, user, name, newId)
        case GetOrganization => Outcome(OC.GetOrganization(db, user, p.id), db)
        case UpdateOrganization => OC.UpdateOrganization(db, user, p.id, name)
        case DeleteOrganization => OC.DeleteOrganization(db, user, p.id)
  }

  /** The two chains the router builds, run step by step. */
  lemma RunChains(authorization: Option<string>, verify: string -> Option<Identity>, user: Option<Identity>)
    ensures RunGates([Authenticate], authorization, verify, user) == AuthMiddleware.Authenticate(authorization, verify)
    ensures RunGates([Authenticate, AuthorizeAdmin], authorization, verify, user) ==
              match AuthMiddleware.Authenticate(authorization, verify)
              case Reject(status, message) => AuthMiddleware.Reject(status, message)
              case Next(u) => AuthMiddleware.AuthorizeAdmin(u)
  {
  }

  /** Which registered route each (method, path) pair reaches. */
  lemma MatchedRoutes(m: HttpMethod, p: Path)
    ensures m == POST && p.Root? ==> FirstMatch(Routes, m, p) == Some(Routes[0])
    ensures m == GET && p.ById? ==> FirstMatch(Routes, m, p) == Some(Routes[1])
    ensures m == PUT && p.ById? ==> FirstMatch(Routes, m, p) == Some(Routes[2])
    ensures m == DELETE && p.ById? ==> FirstMatch(Routes, m, p) == Some(Routes[3])
    ensures FirstMatch(Routes, m, p).None? <==> !((m == POST && p.Root?) || (m != POST && p.ById?))
  {
  }

  /** Every request the router sees, matched or not, is authenticated first;
      PUT and DELETE on "/:id" are then admin-gated, POST "/" and GET "/:id" are not. */
  lemma ChainShapes(m: HttpMethod, p: Path)
    ensures |Chain(m, p)| > 0 && Chain(m, p)[0] == Authenticate
    ensures (m == PUT || m == DELETE) && p.ById? ==> Chain(m, p) == [Authenticate, AuthorizeAdmin]
    ensures (m == POST && p.Root?) || (m == GET && p.ById?) ==> Chain(m, p) == [Authenticate]
    ensures AuthorizeAdmin in Chain(m, p) ==> (m == PUT || m == DELETE) && p.ById?
  {
  }

  /** A request failing authentication gets its 401 and reaches no handler. */
  lemma UnauthenticatedReachesNoHandler(db: Db, tokens: TokenService, m: HttpMethod, p: Path,
                                        authorization: Option<string>, name: string, newId: Id)
    requires newId !in db.orgs
    requires AuthMiddleware.Authenticate(authorization, tokens.verify).Reject?
    ensures Dispatch(db, tokens, m, p, authorization, name, newId) ==
              Outcome(Err(401, AuthMiddleware.Authenticate(authorization, tokens.verify).message), db)
  {
  }

  /** An authenticated caller whose role is not "ADMIN" gets the middleware's
      403 on PUT and DELETE, before the handler runs. */
  lemma NonAdminStoppedBeforeHandler(db: Db, tokens: TokenService, m: HttpMethod, id: Segment,
                                     authorization: Option<string>, name: string, newId: Id)
    requires newId !in db.orgs
    requires m == PUT || m == DELETE
    requires AuthMiddleware.Authenticate(authorization, tokens.verify).Next?
    requires !OC.IsAdmin(AuthMiddleware.Authenticate(authorization, tokens.verify).user)
    ensures Dispatch(db, tokens, m, ById(id), authorization, name, newId) ==
              Outcome(Err(403, AuthMiddleware.ADMIN_REQUIRED), db)
  {
    ChainShapes(m, ById(id));
    MatchedRoutes(m, ById(id));
    RunChains(authorization, tokens.verify, None);
  }

  /** Any authenticated role reaches createOrganization and getOrganization. */
  lemma CreateAndGetOpenToAnyRole(db: Db, tokens: TokenService, id: Segment,
                                  authorization: Option<string>, name: string, newId: Id)
    requires newId !in db.orgs
    requires AuthMiddleware.Authenticate(authorization, tokens.verify).Next?
    ensures var user := AuthMiddleware.Authenticate(authorization, tokens.verify).user;
            && Dispatch(db, tokens, POST, Root, authorization, name, newId) == OC.CreateOrganization(db, user, name, newId)
            && Dispatch(db, tokens, GET, ById(id), authorization, name, newId) == Outcome(OC.GetOrganization(db, user, id), db)
  {
    ChainShapes(POST, Root);
    ChainShapes(GET, ById(id));
    MatchedRoutes(POST, Root);
    MatchedRoutes(GET, ById(id));
    RunChains(authorization, tokens.verify, None);
  }

  /** An authenticated ADMIN's PUT "/:id" runs updateOrganization and its
      DELETE "/:id" runs deleteOrganization, each with the attached identity. */
  lemma AdminReachesMutationHandlers(db: Db, tokens: TokenService, m: HttpMethod, id: Segment,
                                     authorization: Option<string>, name: string, newId: Id)
    requires newId !in db.orgs
    requires m == PUT || m == DELETE
    requires AuthMiddleware.Authenticate(authorization, tokens.verify).Next?
    requires OC.IsAdmin(AuthMiddleware.Authenticate(authorization, tokens.verify).user)
    ensures var user := AuthMiddleware.Authenticate(authorization, tokens.verify).user;
            Dispatch(db, tokens, m, ById(id), authorization, name, newId) ==
              if m == PUT then OC.UpdateOrganization(db, user, id, name) else OC.DeleteOrganization(db, user, id)
  {
    ChainShapes(m, ById(id));
    MatchedRoutes(m, ById(id));
    RunChains(authorization, tokens.verify, None);
  }

  /** End to end, PUT and DELETE on "/:id" succeed exactly for an authenticated
      ADMIN caller who is a member of an existing organization. */
  lemma MutationSucceedsOnlyForAdminMembers(db: Db, tokens: TokenService, m: HttpMethod, id: Segment,
                                            authorization: Option<string>, name: string, newId: Id)
    requires newId !in db.orgs
    requires m == PUT || m == DELETE
    ensures var step := AuthMiddleware.Authenticate(authorization, tokens.verify);
            Dispatch(db, tokens, m, ById(id), authorization, name, newId).response.Ok? <==>
              step.Next? && OC.IsAdmin(step.user) && id in db.orgs && OC.IsMember(db.orgs[id], step.user)
  {
    ChainShapes(m, ById(id));
    MatchedRoutes(m, ById(id));
    RunChains(authorization, tokens.verify, None);
  }

  /** A request no route accepts passes authentication and then falls through
      the router without touching the store. */
  lemma UnroutedFallsThrough(db: Db, tokens: TokenService, m: HttpMethod, p: Path,
                             authorization: Option<string>, name: string, newId: Id)
    requires newId !in db.orgs
    requires FirstMatch(Routes, m, p).None?
    requires AuthMiddleware.Authenticate(authorization, tokens.verify).Next?
    ensures Dispatch(db, tokens, m, p, authorization, name, newId) == Outcome(NotRouted, db)
  {
    assert Chain(m, p) == [Authenticate];
    RunChains(authorization, tokens.verify, None);
  }
}
