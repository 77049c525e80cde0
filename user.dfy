/** The `users` table: a member of exactly one organization, with a role and an invitation state. */
module UserModel {
  import opened Common

  /** `UserRole`: a `str` enum with exactly two values. */
  datatype UserRole = Admin | Member

  /** The enum's string value, which is also how it renders in an f-string and in JSON. */
  function RoleValue(r: UserRole): (s: string)
    ensures s == "admin" <==> r == Admin
    ensures s == "member" <==> r == Member
  {
    match r
    case Admin => "admin"
    case Member => "member"
  }

  /** `UserRole(s)`: the role whose value is `s`, if any. */
  function ParseRole(s: string): (r: Option<UserRole>)
    ensures r.Some? <==> s == "admin" || s == "member"
  {
    if s == "admin" then Some(Admin) else if s == "member" then Some(Member) else None
  }

  /** Parsing a role's value gives the role back; distinct roles have distinct values. */
  lemma RoleValueRoundTrip(r: UserRole)
    ensures ParseRole(RoleValue(r)) == Some(r)
  {
  }

  datatype User = User(
    id: Id,
    email: string,
    fullName: Option<string>,
    hashedPassword: Option<string>,
    oauthProvider: Option<string>,
    oauthId: Option<string>,
    role: UserRole,
    organizationId: Id,
    isActive: bool,
    isVerified: bool,
    isPendingInvitation: bool,
    invitationToken: Option<string>,
    createdAt: Time,
    lastLogin: Option<Time>
  )

  /** A row inserted with only its identity and organization: every other column takes its default. */
  function NewUser(id: Id, email: string, organizationId: Id, createdAt: Time): (u: User)
    ensures u.id == id && u.email == email && u.organizationId == organizationId && u.createdAt == createdAt
    ensures u.role == Member && u.isActive && !u.isVerified && !u.isPendingInvitation
    ensures u.invitationToken == None && u.hashedPassword == None && u.lastLogin == None
    ensures u.fullName == None && u.oauthProvider == None && u.oauthId == None
  {
    User(
      id := id, email := email, fullName := None, hashedPassword := None,
      oauthProvider := None, oauthId := None, role := Member,
      organizationId := organizationId, isActive := true, isVerified := false,
      isPendingInvitation := false, invitationToken := None,
      createdAt := createdAt, lastLogin := None)
  }

  /** `is_admin`. */
  predicate IsAdmin(u: User)
  {
    u.role == Admin
  }

  /** `is_member`. */
  predicate IsMember(u: User)
  {
    u.role == Member
  }

  /** With exactly two roles, every user is either an admin or a member, never both. */
  lemma AdminXorMember(u: User)
    ensures IsAdmin(u) != IsMember(u)
    ensures IsAdmin(u) <==> RoleValue(u.role) == "admin"
  {
  }
}
