/** The organization handlers as functions from the store before the call to
    the response and the store after it. Each is a fixed sequence of guards
    followed by at most two store writes. */
module OrganizationController {
  import opened Wrappers
  import opened Domain

  const ORG_NOT_FOUND: string := "Organization not found"
  const NO_ACCESS: string := "You do not have access to this organization"
  const ONLY_ADMINS_UPDATE: string := "Only admins can update organizations"
  const ONLY_ADMINS_DELETE: string := "Only admins can delete organizations"

  /** `req.user?.role === "ADMIN"`. */
  predicate IsAdmin(caller: Option<Identity>)
  {
    caller.Some? && caller.value.role == ADMIN
  }

  /** `organization.users.some((user) => user.id === userId)`. */
  predicate IsMember(org: Organization, caller: Option<Identity>)
  {
    caller.Some? && caller.value.userId in org.members
  }

  /** The connected users selected down to id, email and role. */
  function MemberViews(db: Db, org: Organization): (views: set<PublicUser>)
    ensures forall v :: v in views <==>
              v.id in org.members && v.id in db.users && v == PublicView(v.id, db.users[v.id])
  {
    set m | m in org.members && m in db.users :: PublicView(m, db.users[m])
  }

  /** `createOrganization`: 401 without a user id; otherwise the organization is
      created with the caller connected (a nested connect to a user id the store
      does not hold throws), then the caller becomes its ADMIN. */
  function CreateOrganization(db: Db, caller: Option<Identity>, name: string, newId: Id): (out: Outcome)
    requires newId !in db.orgs
    ensures Unauthenticated(caller) ==> out == Outcome(Err(401, NOT_AUTHENTICATED), db)
    ensures !Unauthenticated(caller) && caller.value.userId !in db.users ==> out == Outcome(Thrown, db)
    ensures out.response.Ok? <==> !Unauthenticated(caller) && caller.value.userId in db.users
    ensures !out.response.Ok? ==> out.db == db
    ensures out.response.Ok? ==>
              var uid := caller.value.userId;
              && out.response == Ok(201, OrgCreated(OrgRecord(newId, name, uid)))
              && out.db.orgs == db.orgs[newId := Organization(name, uid, {uid})]
              && out.db.orgs.Keys == db.orgs.Keys + {newId}
              && out.db.users.Keys == db.users.Keys
              && out.db.users[uid] == db.users[uid].(organizationId := Some(newId), role := ADMIN)
              && forall id :: id in db.users && id != uid ==> out.db.users[id] == db.users[id]
    ensures Valid(db) ==> Valid(out.db)
  {
    if Unauthenticated(caller) then Outcome(Err(401, NOT_AUTHENTICATED), db)
    else
      var uid := caller.value.userId;
      if uid !in db.users then Outcome(Thrown, db)
      else
        var org := Organization(name, uid, {uid});
        var orgs := db.orgs[newId := org];
        var users := db.users[uid := db.users[uid].(organizationId := Some(newId), role := ADMIN)];
        Outcome(Ok(201, OrgCreated(Record(newId, org))), Db(users, orgs))
  }

  /** `getOrganization`: 404 for an unknown id, 403 for a caller outside the
      member set, otherwise 200 with the organization and its members' public
      views. It reads the store only. */
  function GetOrganization(db: Db, caller: Option<Identity>, id: Id): (r: Response)
    ensures id !in db.orgs ==> r == Err(404, ORG_NOT_FOUND)
    ensures id in db.orgs && !IsMember(db.orgs[id], caller) ==> r == Err(403, NO_ACCESS)
    ensures r.Ok? <==> id in db.orgs && IsMember(db.orgs[id], caller)
    ensures r.Ok? ==>
              && r.status == 200
              && r.data.OrgDetails?
              && r.data.details == Record(id, db.orgs[id])
              && forall v :: v in r.data.users <==>
                   v.id in db.orgs[id].members && v.id in db.users && v == PublicView(v.id, db.users[v.id])
  {
    if id !in db.orgs then Err(404, ORG_NOT_FOUND)
    else
      var org := db.orgs[id];
      if !IsMember(org, caller) then Err(403, NO_ACCESS)
      else Ok(200, OrgDetails(Record(id, org), MemberViews(db, org)))
  }

  /** `updateOrganization`: the admin check comes before any lookup, then 404,
      then the membership check; on success only the name changes. */
  function UpdateOrganization(db: Db, caller: Option<Identity>, id: Id, name: string): (out: Outcome)
    ensures !IsAdmin(caller) ==> out == Outcome(Err(403, ONLY_ADMINS_UPDATE), db)
    ensures IsAdmin(caller) && id !in db.orgs ==> out == Outcome(Err(404, ORG_NOT_FOUND), db)
    ensures IsAdmin(caller) && id in db.orgs && !IsMember(db.orgs[id], caller) ==>
              out == Outcome(Err(403, NO_ACCESS), db)
    ensures out.response.Ok? <==> IsAdmin(caller) && id in db.orgs && IsMember(db.orgs[id], caller)
    ensures !out.response.Ok? ==> out.db == db
    ensures out.response.Ok? ==>
              && out.response == Ok(200, OrgUpdated(OrgRecord(id, name, db.orgs[id].createdBy)))
              && out.db.users == db.users
              && out.db.orgs.Keys == db.orgs.Keys
              && out.db.orgs[id].name == name
              && out.db.orgs[id].createdBy == db.orgs[id].createdBy
              && out.db.orgs[id].members == db.orgs[id].members
              && forall o :: o in db.orgs && o != id ==> out.db.orgs[o] == db.orgs[o]
    ensures Valid(db) ==> Valid(out.db)
  {
    if !IsAdmin(caller) then Outcome(Err(403, ONLY_ADMINS_UPDATE), db)
    else if id !in db.orgs then Outcome(Err(404, ORG_NOT_FOUND), db)
    else
      var org := db.orgs[id];
      if !IsMember(org, caller) then Outcome(Err(403, NO_ACCESS), db)
      else
        var updated := org.(name := name);
        Outcome(Ok(200, OrgUpdated(Record(id, updated))), db.(orgs := db.orgs[id := updated]))
  }

  /** `deleteOrganization`: the same three guards in the same order as update;
      on success the organization is gone and the status is 204. */
  function DeleteOrganization(db: Db, caller: Option<Identity>, id: Id): (out: Outcome)
    ensures !IsAdmin(caller) ==> out == Outcome(Err(403, ONLY_ADMINS_DELETE), db)
    ensures IsAdmin(caller) && id !in db.orgs ==> out == Outcome(Err(404, ORG_NOT_FOUND), db)
    ensures IsAdmin(caller) && id in db.orgs && !IsMember(db.orgs[id], caller) ==>
              out == Outcome(Err(403, NO_ACCESS), db)
    ensures out.response.Ok? <==> IsAdmin(caller) && id in db.orgs && IsMember(db.orgs[id], caller)
    ensures !out.response.Ok? ==> out.db == db
    ensures out.response.Ok? ==>
              && out.response == Ok(204, NoData)
              && out.db.users == db.users
              && out.db.orgs.Keys == db.orgs.Keys - {id}
              && forall o :: o in out.db.orgs ==> out.db.orgs[o] == db.orgs[o]
    ensures Valid(db) ==> Valid(out.db)
  {
    if !IsAdmin(caller) then Outcome(Err(403, ONLY_ADMINS_DELETE), db)
    else if id !in db.orgs then Outcome(Err(404, ORG_NOT_FOUND), db)
    else
      var org := db.orgs[id];
      if !IsMember(org, caller) then Outcome(Err(403, NO_ACCESS), db)
      else Outcome(Ok(204, NoData), db.(orgs := db.orgs - {id}))
  }

  /** Update and delete reject exactly the same calls with the same statuses. */
  lemma DeleteGuardsMatchUpdate(db: Db, caller: Option<Identity>, id: Id, name: string)
    ensures var u, d := UpdateOrganization(db, caller, id, name), DeleteOrganization(db, caller, id);
            && (u.response.Ok? <==> d.response.Ok?)
            && (u.response.Err? <==> d.response.Err?)
            && (u.response.Err? ==> u.response.status == d.response.status)
  {
  }

  /** A created organization is readable by its creator at once, with the
      creator as its only member, now an ADMIN attached to it. */
  lemma CreateThenGet(db: Db, caller: Option<Identity>, name: string, newId: Id)
    requires Valid(db) && newId !in db.orgs
    requires CreateOrganization(db, caller, name, newId).response.Ok?
    ensures var after := CreateOrganization(db, caller, name, newId).db;
            var uid := caller.value.userId;
            GetOrganization(after, caller, newId) ==
              Ok(200, OrgDetails(OrgRecord(newId, name, uid),
                                 {PublicUser(uid, db.users[uid].email, ADMIN)}))
  {
  }

  /** After a successful update the new name is what a member reads. */
  lemma UpdateThenGet(db: Db, caller: Option<Identity>, id: Id, name: string)
    requires UpdateOrganization(db, caller, id, name).response.Ok?
    ensures var r := GetOrganization(UpdateOrganization(db, caller, id, name).db, caller, id);
            r.Ok? && r.data.details == OrgRecord(id, name, db.orgs[id].createdBy)
  {
  }

  /** After a successful delete every read of that id is a 404. */
  lemma DeleteThenGet(db: Db, caller: Option<Identity>, id: Id, reader: Option<Identity>)
    requires DeleteOrganization(db, caller, id).response.Ok?
    ensures GetOrganization(DeleteOrganization(db, caller, id).db, reader, id) == Err(404, ORG_NOT_FOUND)
  {
  }
}
