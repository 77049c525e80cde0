/**
 * The `/users` endpoints an organization's admin uses to manage its members: list them,
 * invite a new one, change a member's name, role or active flag, and remove a member.
 * `caller` is the authenticated admin the dependency layer resolves.
 */
module UsersEndpoint {
  import opened Common
  import opened UserModel
  import opened Records
  import opened Store
  import opened Tables
  import opened ActivityLogger

  /** The body of an invitation. The `password` and `organization_id` fields are ignored and not modelled. */
  datatype UserCreate = UserCreate(email: string, fullName: Option<string>, role: UserRole)

  /** The body of an update: `None` means the field was not supplied. */
  datatype UserUpdate = UserUpdate(fullName: Option<string>, role: Option<UserRole>, isActive: Option<bool>)

  const EMAIL_EXISTS: string := "User with this email already exists"
  const USER_NOT_FOUND: string := "User not found"
  const SELF_DELETE: string := "Cannot delete yourself"
  const USER_DELETED: string := "User deleted successfully"

  function InOrg(org: Id): User -> bool
  {
    (u: User) => u.organizationId == org
  }

  /**
   * `GET /users/`: exactly the users of the caller's organization, in the order the query
   * visits the table, each listed once.
   */
  method ListUsers(db: Database, caller: User, scan: seq<Id>) returns (r: seq<User>)
    requires caller.role == Admin
    requires IsScanOf(scan, db.users)
    ensures r == Filter(RowsOf(scan, db.users), InOrg(caller.organizationId))
    ensures forall u :: u in r <==> u in db.users.Values && u.organizationId == caller.organizationId
  {
    r := Filter(RowsOf(scan, db.users), InOrg(caller.organizationId));
    FilterScan(scan, db.users, InOrg(caller.organizationId));
    assert forall u :: InOrg(caller.organizationId)(u) <==> u.organizationId == caller.organizationId;
  }

  /**
   * The row an invitation inserts: in the admin's organization, active, pending, holding the
   * invitation token and no password; the other columns take their defaults.
   */
  function Invitee(id: Id, data: UserCreate, organizationId: Id, token: string, now: Time): (u: User)
    ensures u.id == id && u.email == data.email && u.fullName == data.fullName && u.role == data.role
    ensures u.organizationId == organizationId
    ensures u.isActive && u.isPendingInvitation && !u.isVerified
    ensures u.invitationToken == Some(token) && u.hashedPassword == None
  {
    NewUser(id, data.email, organizationId, now).(
      fullName := data.fullName, role := data.role,
      isPendingInvitation := true, invitationToken := Some(token))
  }

  /** The audit entry of an invitation: the new email as target, the role it was given as details. */
  function InviteDetails(role: UserRole): string
  {
    "Invited as " + RoleValue(role)
  }

  /**
   * `POST /users/`: invites `data.email` into the caller's organization. An email registered
   * in any organization is refused. `token` is the fresh result of `secrets.token_urlsafe(32)`.
   */
  method CreateUser(db: Database, caller: User, data: UserCreate, token: string, newId: Id, logId: Id, now: Time)
    returns (resp: Response<User>)
    requires caller.role == Admin
    requires db.Valid()
    requires newId !in db.users && logId !in db.activityLogs && !db.TokenHeld(token)
    modifies db
    ensures db.Valid()
    ensures old(db.EmailTaken(data.email)) ==> resp == Fail(BAD_REQUEST, EMAIL_EXISTS) && db.State() == old(db.State())
    ensures !old(db.EmailTaken(data.email)) ==>
      var u := Invitee(newId, data, caller.organizationId, token, now);
      && resp == Ok(u)
      && db.State() == old(db.State()).(
           users := old(db.users)[newId := u],
           activityLogs := old(db.activityLogs)[logId := Entry(logId, caller, Invite, data.email, Some(InviteDetails(data.role)), now)])
  {
    var existing := FindUserByEmail(db, data.email);
    if existing.Some? {
      return Fail(BAD_REQUEST, EMAIL_EXISTS);
    }
    var u := Invitee(newId, data, caller.organizationId, token, now);
    db.users := db.users[newId := u];
    var _ := LogActivity(db, caller, Invite, u.email, Some(InviteDetails(u.role)), logId, now);
    resp := Ok(u);
  }

  /** The user after an update: each supplied field is overwritten, every other column is kept. */
  function ApplyUserUpdate(u: User, data: UserUpdate): (r: User)
    ensures r.fullName == (if data.fullName.Some? then data.fullName else u.fullName)
    ensures r.role == (if data.role.Some? then data.role.value else u.role)
    ensures r.isActive == (if data.isActive.Some? then data.isActive.value else u.isActive)
    ensures r.(fullName := u.fullName, role := u.role, isActive := u.isActive) == u
  {
    var u1 := if data.fullName.Some? then u.(fullName := data.fullName) else u;
    var u2 := if data.role.Some? then u1.(role := data.role.value) else u1;
    if data.isActive.Some? then u2.(isActive := data.isActive.value) else u2
  }

  /** The update asks for a role the user does not have yet: the condition for a ROLE_CHANGE entry. */
  predicate RoleChanged(u: User, data: UserUpdate)
  {
    data.role.Some? && data.role.value != u.role
  }

  /** Applying the same update twice is applying it once, and the second time no role changes. */
  lemma UpdateIdempotent(u: User, data: UserUpdate)
    ensures ApplyUserUpdate(ApplyUserUpdate(u, data), data) == ApplyUserUpdate(u, data)
    ensures !RoleChanged(ApplyUserUpdate(u, data), data)
  {
  }

  function RoleChangeDetails(from: UserRole, to: UserRole): string
  {
    "Changed from " + RoleValue(from) + " to " + RoleValue(to)
  }

  /** The member `userId` of the caller's organization, if there is one. */
  function MemberOf(db: Database, caller: User, userId: Id): (r: Option<User>)
    reads db
    ensures r.Some? <==> userId in db.users && db.users[userId].organizationId == caller.organizationId
    ensures r.Some? ==> r.value == db.users[userId]
  {
    if userId in db.users && db.users[userId].organizationId == caller.organizationId
    then Some(db.users[userId]) else None
  }

  /**
   * `PUT /users/{user_id}`: a user outside the caller's organization is not found. A
   * ROLE_CHANGE entry is appended exactly when a different role was supplied; its target is
   * the updated name, or the email when the name is empty.
   */
  method UpdateUser(db: Database, caller: User, userId: Id, data: UserUpdate, logId: Id, now: Time)
    returns (resp: Response<User>)
    requires caller.role == Admin
    requires db.Valid()
    requires logId !in db.activityLogs
    modifies db
    ensures db.Valid()
    ensures old(MemberOf(db, caller, userId)).None? ==> resp == Fail(NOT_FOUND, USER_NOT_FOUND) && db.State() == old(db.State())
    ensures old(MemberOf(db, caller, userId)).Some? ==>
      var before := old(db.users[userId]);
      var after := ApplyUserUpdate(before, data);
      && resp == Ok(after)
      && db.users == old(db.users)[userId := after]
      && (RoleChanged(before, data) ==>
            db.activityLogs == old(db.activityLogs)[logId := Entry(logId, caller, RoleChange, OrElse(after.fullName, after.email), Some(RoleChangeDetails(before.role, after.role)), now)])
      && (!RoleChanged(before, data) ==> db.activityLogs == old(db.activityLogs))
      && db.State().(users := old(db.users), activityLogs := old(db.activityLogs)) == old(db.State())
  {
    var found := MemberOf(db, caller, userId);
    if found.None? {
      return Fail(NOT_FOUND, USER_NOT_FOUND);
    }
    var before := found.value;
    var after := ApplyUserUpdate(before, data);
    db.users := db.users[userId := after];
    if data.role.Some? && before.role != data.role.value {
      var _ := LogActivity(db, caller, RoleChange, OrElse(after.fullName, after.email), Some(RoleChangeDetails(before.role, data.role.value)), logId, now);
    }
    resp := Ok(after);
  }

  /**
   * `DELETE /users/{user_id}`: removing yourself is refused before any lookup; a user outside
   * the caller's organization is not found; otherwise the row is removed and a DELETE entry
   * naming the removed email is appended.
   */
  method DeleteUser(db: Database, caller: User, userId: Id, logId: Id, now: Time)
    returns (resp: Response<string>)
    requires caller.role == Admin
    requires db.Valid()
    requires logId !in db.activityLogs
    modifies db
    ensures db.Valid()
    ensures userId == caller.id ==> resp == Fail(BAD_REQUEST, SELF_DELETE) && db.State() == old(db.State())
    ensures userId != caller.id && old(MemberOf(db, caller, userId)).None? ==>
      resp == Fail(NOT_FOUND, USER_NOT_FOUND) && db.State() == old(db.State())
    ensures userId != caller.id && old(MemberOf(db, caller, userId)).Some? ==>
      && resp == Ok(USER_DELETED)
      && db.State() == old(db.State()).(
           users := old(db.users) - {userId},
           activityLogs := old(db.activityLogs)[logId := Entry(logId, caller, Delete, old(db.users[userId].email), Some("Removed from workspace"), now)])
  {
    if userId == caller.id {
      return Fail(BAD_REQUEST, SELF_DELETE);
    }
    var found := MemberOf(db, caller, userId);
    if found.None? {
      return Fail(NOT_FOUND, USER_NOT_FOUND);
    }
    var email := found.value.email;
    db.users := db.users - {userId};
    var _ := LogActivity(db, caller, Delete, email, Some("Removed from workspace"), logId, now);
    resp := Ok(USER_DELETED);
  }
}
