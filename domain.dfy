/** Entities of the store, the request identity, the store invariant and the
    shapes of the responses the handlers send. */
module Domain {
  import opened Wrappers

  /** Record ids are strings generated by the store. */
  type Id = string

  /** Roles are kept as plain strings; "ADMIN" is the one the gates test for. */
  const ADMIN: string := "ADMIN"

  /** A row of the user table. `password` holds the stored hash. */
  datatype User = User(email: string, password: string, role: string, organizationId: Option<Id>)

  /** A row of the organization table with its explicit set of connected members. */
  datatype Organization = Organization(name: string, createdBy: Id, members: set<Id>)

  /** What the authentication gate attaches to a request: `req.user`. */
  datatype Identity = Identity(userId: Id, role: string)

  const NOT_AUTHENTICATED: string := "User not authenticated"

  /** `!req.user?.userId`: no identity, or an empty user id. */
  predicate Unauthenticated(caller: Option<Identity>)
  {
    caller.None? || caller.value.userId == ""
  }

  /** A snapshot of the whole store. */
  datatype Db = Db(users: map<Id, User>, orgs: map<Id, Organization>)

  /** The unique index on the user's email. */
  predicate EmailsUnique(users: map<Id, User>)
  {
    forall a, b :: a in users && b in users && users[a].email == users[b].email ==> a == b
  }

  /** Only existing users are ever connected to an organization. */
  predicate MembersAreUsers(db: Db)
  {
    forall o :: o in db.orgs ==> db.orgs[o].members <= db.users.Keys
  }

  predicate Valid(db: Db)
  {
    EmailsUnique(db.users) && MembersAreUsers(db)
  }

  /** `findUnique({ where: { email } })`: the id of the one user with that email, if any. */
  function UserByEmail(users: map<Id, User>, email: string): (r: Option<Id>)
    requires EmailsUnique(users)
    ensures r.Some? ==> r.value in users && users[r.value].email == email
    ensures r.None? ==> forall id :: id in users ==> users[id].email != email
  {
    if exists id :: id in users && users[id].email == email then
      var id :| id in users && users[id].email == email; Some(id)
    else
      None
  }

  /** The public view of a user: id, email and role, never the password. */
  datatype PublicUser = PublicUser(id: Id, email: string, role: string)

  /** The scalar columns of an organization row, as the store returns them. */
  datatype OrgRecord = OrgRecord(id: Id, name: string, createdBy: Id)

  /** An organization included in a user profile, selected down to id and name. */
  datatype OrgSummary = OrgSummary(id: Id, name: string)

  /** A user row with every column except the password, and its selected organization. */
  datatype Profile = Profile(id: Id, email: string, role: string, organizationId: Option<Id>,
                             organization: Option<OrgSummary>)

  datatype Payload =
    | OrgCreated(created: OrgRecord)
    | OrgDetails(details: OrgRecord, users: set<PublicUser>)
    | OrgUpdated(updated: OrgRecord)
    | NoData
    | Authenticated(user: PublicUser, token: string)
    | CurrentUser(profile: Profile)

  /** What a handler sends back:
      - `Ok`: a success envelope with a status and its data;
      - `Err`: `next(new AppError(message, status))`;
      - `Thrown`: an exception from the store passed to `next(error)`, whose mapping
        to a status is the error handler's business;
      - `NotRouted`: no route matched, so the request falls through the router;
      - `Unanswered`: the handler returns without responding. */
  datatype Response =
    | Ok(status: int, data: Payload)
    | Err(status: int, message: string)
    | Thrown
    | NotRouted
    | Unanswered

  /** A response together with the store after the call. */
  datatype Outcome = Outcome(response: Response, db: Db)

  function Record(id: Id, org: Organization): (r: OrgRecord)
  {
    OrgRecord(id, org.name, org.createdBy)
  }

  function PublicView(id: Id, user: User): (r: PublicUser)
  {
    PublicUser(id, user.email, user.role)
  }
}
