/** Properties that cross components: a token issued at registration carried
    back through the Authorization header, and the organization flows seen
    end to end through the router. */
module Scenarios {
  import opened Wrappers
  import opened Domain
  import opened Foreign
  import AuthMiddleware
  import OC = OrganizationController
  import AC = AuthController
  import R = OrganizationRoutes

  /** The token register returns, sent back as "Bearer <token>", authenticates
      as the new user with role ADMIN. */
  lemma RegisterTokenAuthenticates(db: Db, hasher: Hasher, tokens: TokenService, email: string,
                                  password: string, organizationName: Option<string>,
                                  newUserId: Id, newOrgId: Id)
    requires EmailsUnique(db.users) && RoundTrips(tokens) && HeaderSafe(tokens)
    requires newUserId !in db.users && newOrgId !in db.orgs
    requires AC.Register(db, hasher, tokens, email, password, organizationName, newUserId, newOrgId).response.Ok?
    ensures var token := AC.Register(db, hasher, tokens, email, password, organizationName, newUserId, newOrgId)
                           .response.data.token;
            AuthMiddleware.Authenticate(Some("Bearer " + token), tokens.verify) ==
              AuthMiddleware.Next(Some(Identity(newUserId, ADMIN)))
  {
    var token := tokens.issue(newUserId, ADMIN);
    assert token != "" && ' ' !in token;
    assert "Bearer " + token == "Bearer" + " " + token + "";
    assert AuthMiddleware.WordAfterScheme("Bearer " + token, "Bearer", token, "");
    AuthMiddleware.BearerTokenIsSecondWord("Bearer " + token, "Bearer", token, "");
    assert tokens.verify(token) == Some(Identity(newUserId, ADMIN));
  }

  /** Registering with an organization name and then reading that organization
      with the returned token gives 200, lists the new user among the members
      and writes nothing. */
  lemma RegisterThenReadOrganization(db: Db, hasher: Hasher, tokens: TokenService, email: string,
                                    password: string, organizationName: string,
                                    newUserId: Id, newOrgId: R.Segment, unusedId: Id)
    requires Valid(db) && RoundTrips(tokens) && HeaderSafe(tokens)
    requires newUserId !in db.users && newOrgId !in db.orgs
    requires organizationName != ""
    requires unusedId !in db.orgs && unusedId != newOrgId
    requires AC.Register(db, hasher, tokens, email, password, Some(organizationName), newUserId, newOrgId).response.Ok?
    ensures var registered := AC.Register(db, hasher, tokens, email, password, Some(organizationName), newUserId, newOrgId);
            var read := R.Dispatch(registered.db, tokens, R.GET, R.ById(newOrgId),
                                   Some("Bearer " + registered.response.data.token), "", unusedId);
            && read.response.Ok?
            && read.response.status == 200
            && read.response.data.details == OrgRecord(newOrgId, organizationName, newUserId)
            && PublicUser(newUserId, email, ADMIN) in read.response.data.users
            && read.db == registered.db
  {
    var registered := AC.Register(db, hasher, tokens, email, password, Some(organizationName), newUserId, newOrgId);
    var header := Some("Bearer " + registered.response.data.token);
    RegisterTokenAuthenticates(db, hasher, tokens, email, password, Some(organizationName), newUserId, newOrgId);
    var caller := Some(Identity(newUserId, ADMIN));
    assert AuthMiddleware.Authenticate(header, tokens.verify) == AuthMiddleware.Next(caller);
    R.CreateAndGetOpenToAnyRole(registered.db, tokens, newOrgId, header, "", unusedId);
    assert registered.db.orgs[newOrgId] == Organization(organizationName, newUserId, {newUserId});
    assert OC.IsMember(registered.db.orgs[newOrgId], caller);
    assert PublicView(newUserId, registered.db.users[newUserId]) == PublicUser(newUserId, email, ADMIN);
  }

  /** An organization created by one user is closed to any other caller until
      someone connects them: a GET from a different user id is a 403. */
  lemma OutsiderCannotRead(db: Db, creator: Identity, name: string, newId: Id, outsider: Identity)
    requires newId !in db.orgs
    requires OC.CreateOrganization(db, Some(creator), name, newId).response.Ok?
    requires outsider.userId != creator.userId
    ensures OC.GetOrganization(OC.CreateOrganization(db, Some(creator), name, newId).db, Some(outsider), newId) ==
              Err(403, OC.NO_ACCESS)
  {
  }
}
