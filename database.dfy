/** The in-memory store the handlers run against. Each handler is a method
    that checks its guards with early returns and then performs its writes one
    at a time, as the source does; its contract ties the response and the new
    store to the handler's function in the controller modules. */
module Database {
  import opened Wrappers
  import opened Domain
  import opened Foreign
  import OC = OrganizationController
  import AC = AuthController
  import UC = UserController

  class Store {
    var users: map<Id, User>
    var orgs: map<Id, Organization>

    function Snapshot(): (db: Db)
      reads this
    {
      Db(users, orgs)
    }

    predicate Valid()
      reads this
    {
      Domain.Valid(Snapshot())
    }

    constructor ()
      ensures Valid() && users == map[] && orgs == map[]
    {
      users := map[];
      orgs := map[];
    }

    method CreateOrganization(caller: Option<Identity>, name: string, newId: Id) returns (r: Response)
      requires Valid() && newId !in orgs
      modifies this
      ensures Valid()
      ensures Outcome(r, Snapshot()) == OC.CreateOrganization(old(Snapshot()), caller, name, newId)
    {
      if Unauthenticated(caller) {
        return Err(401, NOT_AUTHENTICATED);
      }
      var userId := caller.value.userId;
      if userId !in users {
        return Thrown;
      }
      var organization := Organization(name, userId, {userId});
      orgs := orgs[newId := organization];
      users := users[userId := users[userId].(organizationId := Some(newId), role := ADMIN)];
      r := Ok(201, OrgCreated(Record(newId, organization)));
    }

    /** Reads only: no modifies clause. */
    method GetOrganization(caller: Option<Identity>, id: Id) returns (r: Response)
      ensures r == OC.GetOrganization(Snapshot(), caller, id)
    {
      if id !in orgs {
        return Err(404, OC.ORG_NOT_FOUND);
      }
      var organization := orgs[id];
      if !OC.IsMember(organization, caller) {
        return Err(403, OC.NO_ACCESS);
      }
      r := Ok(200, OrgDetails(Record(id, organization), OC.MemberViews(Snapshot(), organization)));
    }

    method UpdateOrganization(caller: Option<Identity>, id: Id, name: string) returns (r: Response)
      requires Valid()
      modifies this
      ensures Valid()
      ensures Outcome(r, Snapshot()) == OC.UpdateOrganization(old(Snapshot()), caller, id, name)
    {
      if !OC.IsAdmin(caller) {
        return Err(403, OC.ONLY_ADMINS_UPDATE);
      }
      if id !in orgs {
        return Err(404, OC.ORG_NOT_FOUND);
      }
      var organization := orgs[id];
      if !OC.IsMember(organization, caller) {
        return Err(403, OC.NO_ACCESS);
      }
      var updated := organization.(name := name);
      orgs := orgs[id := updated];
      r := Ok(200, OrgUpdated(Record(id, updated)));
    }

    method DeleteOrganization(caller: Option<Identity>, id: Id) returns (r: Response)
      requires Valid()
      modifies this
      ensures Valid()
      ensures Outcome(r, Snapshot()) == OC.DeleteOrganization(old(Snapshot()), caller, id)
    {
      if !OC.IsAdmin(caller) {
        return Err(403, OC.ONLY_ADMINS_DELETE);
      }
      if id !in orgs {
        return Err(404, OC.ORG_NOT_FOUND);
      }
      if !OC.IsMember(orgs[id], caller) {
        return Err(403, OC.NO_ACCESS);
      }
      orgs := orgs - {id};
      r := Ok(204, NoData);
    }

    method Register(hasher: Hasher, tokens: TokenService, email: string, password: string,
                    organizationName: Option<string>, newUserId: Id, newOrgId: Id) returns (r: Response)
      requires Valid() && newUserId !in users && newOrgId !in orgs
      modifies this
      ensures Valid()
      ensures Outcome(r, Snapshot()) ==
                AC.Register(old(Snapshot()), hasher, tokens, email, password, organizationName, newUserId, newOrgId)
    {
      if UserByEmail(users, email).Some? {
        return Err(400, AC.EMAIL_TAKEN);
      }
      var hashedPassword := hasher.hash(password);
      var newUser := User(email, hashedPassword, ADMIN, None);
      users := users[newUserId := newUser];
      if AC.Truthy(organizationName) {
        orgs := orgs[newOrgId := Organization(organizationName.value, newUserId, {newUserId})];
        users := users[newUserId := users[newUserId].(role := ADMIN)];
      }
      var token := tokens.issue(newUserId, newUser.role);
      r := Ok(201, Authenticated(PublicView(newUserId, newUser), token));
    }

    /** Reads only: no modifies clause. */
    method Login(hasher: Hasher, tokens: TokenService, email: string, password: string) returns (r: Response)
      requires Valid()
      ensures r == AC.Login(Snapshot(), hasher, tokens, email, password)
    {
      var found := UserByEmail(users, email);
      if found.None? {
        return Err(401, AC.INVALID_CREDENTIALS);
      }
      var user := users[found.value];
      if !hasher.compare(password, user.password) {
        return Err(401, AC.INVALID_CREDENTIALS);
      }
      r := Ok(200, Authenticated(PublicView(found.value, user), tokens.issue(found.value, user.role)));
    }

    /** Reads only: no modifies clause. */
    method GetCurrentUser(caller: Option<Identity>) returns (r: Response)
      ensures r == UC.GetCurrentUser(Snapshot(), caller)
    {
      if Unauthenticated(caller) {
        return Err(401, NOT_AUTHENTICATED);
      }
      var userId := caller.value.userId;
      if userId !in users {
        return Err(404, UC.USER_NOT_FOUND);
      }
      r := Ok(200, CurrentUser(UC.WithoutPassword(Snapshot(), userId, users[userId])));
    }

    /** The five user handlers that are still empty: they send nothing and
        change nothing. */
    method GetAllUsers() returns (r: Response)
      ensures r.Unanswered?
    {
      r := Unanswered;
    }

    method GetUser() returns (r: Response)
      ensures r.Unanswered?
    {
      r := Unanswered;
    }

    method CreateUser() returns (r: Response)
      ensures r.Unanswered?
    {
      r := Unanswered;
    }

    method UpdateUser() returns (r: Response)
      ensures r.Unanswered?
    {
      r := Unanswered;
    }

    method DeleteUser() returns (r: Response)
      ensures r.Unanswered?
    {
      r := Unanswered;
    }
  }
}
