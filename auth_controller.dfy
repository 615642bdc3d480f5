/** Registration and login over the store, with the hasher and the token
    service as parameters. */
module AuthController {
  import opened Wrappers
  import opened Domain
  import opened Foreign

  const EMAIL_TAKEN: string := "User with this email already exists"
  const INVALID_CREDENTIALS: string := "Invalid credentials"

  /** `if (organizationName)`: present and not the empty string. */
  predicate Truthy(organizationName: Option<string>)
  {
    organizationName.Some? && organizationName.value != ""
  }

  /** `register`: 400 for a taken email; otherwise a user with the hashed
      password and role ADMIN, optionally an organization created by and
      connected to that user, and a token for (id, "ADMIN"). */
  function Register(db: Db, hasher: Hasher, tokens: TokenService, email: string, password: string,
                    organizationName: Option<string>, newUserId: Id, newOrgId: Id): (out: Outcome)
    requires EmailsUnique(db.users)
    requires newUserId !in db.users && newOrgId !in db.orgs
    ensures UserByEmail(db.users, email).Some? ==> out == Outcome(Err(400, EMAIL_TAKEN), db)
    ensures out.response.Ok? <==> UserByEmail(db.users, email).None?
    ensures !out.response.Ok? ==> out.db == db
    ensures out.response.Ok? ==>
              && out.response == Ok(201, Authenticated(PublicUser(newUserId, email, ADMIN),
                                                       tokens.issue(newUserId, ADMIN)))
              && out.db.users.Keys == db.users.Keys + {newUserId}
              && (forall id :: id in db.users ==> out.db.users[id] == db.users[id])
              && out.db.users[newUserId].email == email
              && out.db.users[newUserId].password == hasher.hash(password)
              && out.db.users[newUserId].role == ADMIN
              && (Truthy(organizationName) ==>
                    out.db.orgs == db.orgs[newOrgId := Organization(organizationName.value, newUserId, {newUserId})])
              && (!Truthy(organizationName) ==> out.db.orgs == db.orgs)
    ensures Valid(db) ==> Valid(out.db)
  {
    if UserByEmail(db.users, email).Some? then Outcome(Err(400, EMAIL_TAKEN), db)
    else
      var newUser := User(email, hasher.hash(password), ADMIN, None);
      var created := db.(users := db.users[newUserId := newUser]);
      var linked :=
        if Truthy(organizationName) then
          var org := Organization(organizationName.value, newUserId, {newUserId});
          var withOrg := created.(orgs := created.orgs[newOrgId := org]);
          withOrg.(users := withOrg.users[newUserId := withOrg.users[newUserId].(role := ADMIN)])
        else created;
      Outcome(Ok(201, Authenticated(PublicView(newUserId, newUser), tokens.issue(newUserId, newUser.role))), linked)
  }

  /** `login`: an unknown email and a wrong password give the same 401;
      otherwise 200 with the stored user's public view and a token for its
      stored id and role. Login never writes. */
  function Login(db: Db, hasher: Hasher, tokens: TokenService, email: string, password: string): (r: Response)
    requires EmailsUnique(db.users)
    ensures r.Ok? <==>
              exists id :: id in db.users && db.users[id].email == email && hasher.compare(password, db.users[id].password)
    ensures !r.Ok? ==> r == Err(401, INVALID_CREDENTIALS)
    ensures r.Ok? ==> forall id :: id in db.users && db.users[id].email == email ==>
              r == Ok(200, Authenticated(PublicView(id, db.users[id]), tokens.issue(id, db.users[id].role)))
  {
    match UserByEmail(db.users, email)
    case None => Err(401, INVALID_CREDENTIALS)
    case Some(id) =>
      var user := db.users[id];
      if !hasher.compare(password, user.password) then Err(401, INVALID_CREDENTIALS)
      else Ok(200, Authenticated(PublicView(id, user), tokens.issue(id, user.role)))
  }

  /** A user who just registered can log in with the same password and gets a
      token for the new id with role ADMIN. */
  lemma RegisterThenLogin(db: Db, hasher: Hasher, tokens: TokenService, email: string,
                          password: string, organizationName: Option<string>,
                          newUserId: Id, newOrgId: Id)
    requires Valid(db) && Matches(hasher)
    requires newUserId !in db.users && newOrgId !in db.orgs
    requires Register(db, hasher, tokens, email, password, organizationName, newUserId, newOrgId).response.Ok?
    ensures var after := Register(db, hasher, tokens, email, password, organizationName, newUserId, newOrgId).db;
            Login(after, hasher, tokens, email, password) ==
              Ok(200, Authenticated(PublicUser(newUserId, email, ADMIN), tokens.issue(newUserId, ADMIN)))
  {
  }
}
