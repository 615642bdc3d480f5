/** The current-user read: the caller's stored row without its password, with
    the organization it points to selected down to id and name. */
module UserController {
  import opened Wrappers
  import opened Domain

  const USER_NOT_FOUND: string := "User not found"

  /** `include: { organization: { select: { id, name } } }`: the organization
      the row's organizationId points to, or null when it points nowhere. */
  function OrganizationSummary(db: Db, organizationId: Option<Id>): (summary: Option<OrgSummary>)
    ensures summary.Some? <==> organizationId.Some? && organizationId.value in db.orgs
    ensures summary.Some? ==>
              summary.value.id == organizationId.value && summary.value.name == db.orgs[organizationId.value].name
  {
    match organizationId
    case None => None
    case Some(oid) => if oid in db.orgs then Some(OrgSummary(oid, db.orgs[oid].name)) else None
  }

  /** `const { password, ...userWithoutPassword } = user`. */
  function WithoutPassword(db: Db, id: Id, user: User): (profile: Profile)
  {
    Profile(id, user.email, user.role, user.organizationId, OrganizationSummary(db, user.organizationId))
  }

  /** The stored row a profile came from, given the password it left out. */
  function WithPassword(profile: Profile, password: string): (user: User)
  {
    User(profile.email, password, profile.role, profile.organizationId)
  }

  /** `getCurrentUser`: 401 without a user id, 404 for an id the store does not
      hold, otherwise 200 with a profile that carries every stored column but
      the password. */
  function GetCurrentUser(db: Db, caller: Option<Identity>): (r: Response)
    ensures Unauthenticated(caller) ==> r == Err(401, NOT_AUTHENTICATED)
    ensures !Unauthenticated(caller) && caller.value.userId !in db.users ==> r == Err(404, USER_NOT_FOUND)
    ensures r.Ok? <==> !Unauthenticated(caller) && caller.value.userId in db.users
    ensures r.Ok? ==>
              var uid := caller.value.userId;
              && r.status == 200
              && r.data.CurrentUser?
              && r.data.profile.id == uid
              && WithPassword(r.data.profile, db.users[uid].password) == db.users[uid]
              && r.data.profile.organization == OrganizationSummary(db, db.users[uid].organizationId)
  {
    if Unauthenticated(caller) then Err(401, NOT_AUTHENTICATED)
    else
      var uid := caller.value.userId;
      if uid !in db.users then Err(404, USER_NOT_FOUND)
      else Ok(200, CurrentUser(WithoutPassword(db, uid, db.users[uid])))
  }
}
