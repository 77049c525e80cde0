/**
 * The `/auth` endpoints: self-service signup, password login (the resource-owner password
 * credentials grant of section 4.3 of RFC 6749), the Google and Microsoft OAuth callbacks,
 * invitation lookup and acceptance, and token refresh.
 *
 * Password hashing and checking, and the signing of JWTs, belong to a security module that
 * is not part of this model: hashing and checking are function parameters, and a token is
 * the symbolic value naming the kind and the subject it is issued for.
 */
module AuthEndpoint {
  import opened Common
  import opened OrganizationModel
  import opened UserModel
  import opened Store
  import Text

  /** A signed JWT, represented by what it is issued for. */
  datatype Jwt = AccessJwt(sub: Id) | RefreshJwt(sub: Id)

  /** The `Token` response body. */
  datatype TokenResponse = TokenResponse(accessToken: Jwt, refreshToken: Jwt, tokenType: string)

  /** A fresh access and refresh token for `userId`. */
  function TokensFor(userId: Id): TokenResponse
  {
    TokenResponse(AccessJwt(userId), RefreshJwt(userId), "bearer")
  }

  const PENDING_INVITATION: string := "You have a pending invitation. Please check your email for the invitation link."
  const EMAIL_REGISTERED: string := "Email already registered"
  const BAD_CREDENTIALS: string := "Incorrect email or password"
  const ACCEPT_FIRST: string := "Please accept your invitation first by setting a password"
  const NO_PASSWORD: string := "No password set for this account. Please use OAuth login or contact administrator."
  const DISABLED: string := "Account is disabled"
  const INVALID_INVITATION: string := "Invalid invitation token"
  const ALREADY_ACCEPTED: string := "Invitation already accepted"
  const INVALID_REFRESH: string := "Invalid refresh token"
  const USER_NOT_FOUND: string := "User not found"
  const NO_USER_INFO: string := "Failed to get user info"

  /** The 401 of a failed password grant, with the challenge of section 3 of RFC 6750. */
  function InvalidCredentials<T>(): Response<T>
  {
    Error(UNAUTHORIZED, BAD_CREDENTIALS, map["WWW-Authenticate" := "Bearer"])
  }

  // ---------------------------------------------------------------------------
  // signup

  datatype SignupRequest = SignupRequest(organizationName: string, fullName: string, email: string, password: string)

  /** The organization a signup creates: a trial with 100 summaries a month. */
  function SignupOrganization(id: Id, data: SignupRequest, now: Time): (o: Organization)
    ensures o.id == id && o.name == data.organizationName
    ensures o.subscriptionStatus == "trial" && o.summariesLimit == 100 && o.summariesUsedCurrentMonth == 0
  {
    NewOrganization(id, data.organizationName, now).(subscriptionStatus := "trial", summariesLimit := 100)
  }

  /** The user a signup creates: the new organization's admin, active, unverified and not invited. */
  function SignupUser(id: Id, orgId: Id, data: SignupRequest, hash: string -> string, now: Time): (u: User)
    ensures u.id == id && u.email == data.email && u.fullName == Some(data.fullName)
    ensures u.organizationId == orgId && u.role == Admin
    ensures u.isActive && !u.isVerified && !u.isPendingInvitation && u.invitationToken == None
    ensures u.hashedPassword == Some(hash(data.password))
  {
    NewUser(id, data.email, orgId, now).(fullName := Some(data.fullName), hashedPassword := Some(hash(data.password)), role := Admin)
  }

  /**
   * `POST /auth/signup`: a registered email is refused, with a hint when its owner still has
   * to accept an invitation; otherwise a new organization and its admin are created.
   */
  method Signup(db: Database, data: SignupRequest, hash: string -> string, orgId: Id, userId: Id, now: Time)
    returns (resp: Response<TokenResponse>)
    requires db.Valid()
    requires orgId !in db.organizations && userId !in db.users
    modifies db
    ensures db.Valid()
    ensures old(db.EmailTaken(data.email)) ==> db.State() == old(db.State())
    ensures forall id :: id in old(db.users) && old(db.users[id].email) == data.email ==>
      resp == Fail(BAD_REQUEST, if old(db.users[id].isPendingInvitation) then PENDING_INVITATION else EMAIL_REGISTERED)
    ensures !old(db.EmailTaken(data.email)) ==>
      && resp == Ok(TokensFor(userId))
      && db.State() == old(db.State()).(
           organizations := old(db.organizations)[orgId := SignupOrganization(orgId, data, now)],
           users := old(db.users)[userId := SignupUser(userId, orgId, data, hash, now)])
  {
    var existing := FindUserByEmail(db, data.email);
    if existing.Some? {
      if existing.value.isPendingInvitation {
        return Fail(BAD_REQUEST, PENDING_INVITATION);
      } else {
        return Fail(BAD_REQUEST, EMAIL_REGISTERED);
      }
    }
    PutOrganization(db, SignupOrganization(orgId, data, now));
    InsertUser(db, SignupUser(userId, orgId, data, hash, now));
    resp := Ok(TokensFor(userId));
  }

  // ---------------------------------------------------------------------------
  // login

  /** `not user.hashed_password`: no password, or an empty one. */
  predicate HasPassword(u: User)
  {
    u.hashedPassword.Some? && u.hashedPassword.value != ""
  }

  /** Every check a password login makes passes for this user and password. */
  predicate CanLogIn(u: User, password: string, verify: (string, string) -> bool)
  {
    !u.isPendingInvitation && HasPassword(u) && verify(password, u.hashedPassword.value) && u.isActive
  }

  /**
   * The answer to a password login of the user `u`: pending invitation 403, then no password
   * 403, then wrong password 401, then disabled account 403, then tokens for `u`.
   */
  function LoginDecision(u: User, password: string, verify: (string, string) -> bool): (r: Response<TokenResponse>)
    ensures r.Ok? <==> CanLogIn(u, password, verify)
    ensures r.Ok? ==> r.value == TokensFor(u.id)
    ensures u.isPendingInvitation ==> r == Fail(FORBIDDEN, ACCEPT_FIRST)
    ensures !u.isPendingInvitation && !HasPassword(u) ==> r == Fail(FORBIDDEN, NO_PASSWORD)
    ensures !u.isPendingInvitation && HasPassword(u) && !verify(password, u.hashedPassword.value) ==> r == InvalidCredentials()
    ensures !u.isPendingInvitation && HasPassword(u) && verify(password, u.hashedPassword.value) && !u.isActive
      ==> r == Fail(FORBIDDEN, DISABLED)
    ensures r.Error? && r.status == UNAUTHORIZED ==> r == InvalidCredentials()
  {
    if u.isPendingInvitation then Fail(FORBIDDEN, ACCEPT_FIRST)
    else if !HasPassword(u) then Fail(FORBIDDEN, NO_PASSWORD)
    else if !verify(password, u.hashedPassword.value) then InvalidCredentials()
    else if !u.isActive then Fail(FORBIDDEN, DISABLED)
    else Ok(TokensFor(u.id))
  }

  /**
   * `POST /auth/login`: an unknown email gets the same 401, detail and `WWW-Authenticate`
   * header as a wrong password, so a client cannot tell which of the two was wrong.
   */
  method Login(db: Database, username: string, password: string, verify: (string, string) -> bool)
    returns (resp: Response<TokenResponse>)
    requires db.Valid()
    ensures !db.EmailTaken(username) ==> resp == InvalidCredentials()
    ensures forall id :: id in db.users && db.users[id].email == username ==>
      resp == LoginDecision(db.users[id], password, verify)
  {
    var user := FindUserByEmail(db, username);
    if user.None? {
      return InvalidCredentials();
    }
    var u := user.value;
    if u.isPendingInvitation {
      return Fail(FORBIDDEN, ACCEPT_FIRST);
    }
    if !HasPassword(u) {
      return Fail(FORBIDDEN, NO_PASSWORD);
    }
    if !verify(password, u.hashedPassword.value) {
      return InvalidCredentials();
    }
    if !u.isActive {
      return Fail(FORBIDDEN, DISABLED);
    }
    resp := Ok(TokensFor(u.id));
  }

  /** The owner of an email that just signed up can log in with the signup password. */
  lemma SignupThenLogin(id: Id, orgId: Id, data: SignupRequest, hash: string -> string, verify: (string, string) -> bool, now: Time)
    requires verify(data.password, hash(data.password)) && hash(data.password) != ""
    ensures LoginDecision(SignupUser(id, orgId, data, hash, now), data.password, verify) == Ok(TokensFor(id))
  {
  }

  // ---------------------------------------------------------------------------
  // OAuth callbacks

  datatype Provider = Google | Microsoft

  function ProviderName(p: Provider): string
  {
    match p
    case Google => "google"
    case Microsoft => "microsoft"
  }

  /**
   * What the provider's token endpoint gave: the ID token's claims (`userinfo`, absent when
   * `None`), or an exception with its message.
   */
  datatype TokenExchange = Exchanged(userInfo: Option<map<string, string>>) | ExchangeFailed(message: string)

  /** The email claim: Google's `email`; Microsoft's `email`, or else `preferred_username`. */
  function EmailClaim(p: Provider, info: map<string, string>): Option<string>
  {
    match p
    case Google => Get(info, "email")
    case Microsoft => OrOption(Get(info, "email"), Get(info, "preferred_username"))
  }

  /** The subject claim: Google's `sub`; Microsoft's `sub`, or else `oid`. */
  function SubjectClaim(p: Provider, info: map<string, string>): Option<string>
  {
    match p
    case Google => Get(info, "sub")
    case Microsoft => OrOption(Get(info, "sub"), Get(info, "oid"))
  }

  /** `f"{x}"` of an optional string: `None` renders as "None". */
  function PyFormat(x: Option<string>): string
  {
    if x.Some? then x.value else "None"
  }

  /** The organization an OAuth sign-in creates for a new email: a trial named after the user. */
  function OAuthOrganization(id: Id, fullName: Option<string>, now: Time): (o: Organization)
    ensures o.id == id && o.name == PyFormat(fullName) + "'s Organization"
    ensures o.subscriptionStatus == "trial" && o.summariesLimit == 100
  {
    NewOrganization(id, PyFormat(fullName) + "'s Organization", now)
  }

  /** The user an OAuth sign-in creates: the new organization's admin, active and verified. */
  function OAuthUser(id: Id, orgId: Id, p: Provider, email: string, fullName: Option<string>, oauthId: Option<string>, now: Time): (u: User)
    ensures u.id == id && u.email == email && u.fullName == fullName && u.organizationId == orgId
    ensures u.oauthProvider == Some(ProviderName(p)) && u.oauthId == oauthId
    ensures u.role == Admin && u.isActive && u.isVerified && !u.isPendingInvitation
    ensures u.hashedPassword == None && u.invitationToken == None
  {
    NewUser(id, email, orgId, now).(fullName := fullName, oauthProvider := Some(ProviderName(p)), oauthId := oauthId, role := Admin, isVerified := true)
  }

  /** The redirect to the frontend's callback page with both tokens in the query string. */
  datatype Redirect = Redirect(location: string, accessToken: Jwt, refreshToken: Jwt)

  function CallbackRedirect(frontendUrl: string, userId: Id): Redirect
  {
    Redirect(frontendUrl + "/auth/callback", AccessJwt(userId), RefreshJwt(userId))
  }

  /** Starlette's `str()` of an `HTTPException`. */
  function HttpExceptionText(status: int, detail: string): string
  {
    Text.IntToString(status) + ": " + detail
  }

  /**
   * `GET /auth/{google,microsoft}/callback`: a new email gets its own trial organization and
   * becomes its admin; a known email only records the login time. Every exception, including
   * the endpoint's own 400 for missing user info, becomes a 400 carrying the exception's text.
   * A sign-in without an email claim fails on the `NOT NULL` email column; the text of that
   * database error is not modelled.
   */
  method OAuthCallback(db: Database, p: Provider, exchange: TokenExchange, frontendUrl: string, orgId: Id, userId: Id, now: Time)
    returns (resp: Response<Redirect>)
    requires db.Valid()
    requires orgId !in db.organizations && userId !in db.users
    modifies db
    ensures db.Valid()
    ensures exchange.ExchangeFailed? ==> resp == Fail(BAD_REQUEST, exchange.message) && db.State() == old(db.State())
    ensures exchange.Exchanged? && (exchange.userInfo.None? || exchange.userInfo.value == map[]) ==>
      resp == Fail(BAD_REQUEST, HttpExceptionText(BAD_REQUEST, NO_USER_INFO)) && db.State() == old(db.State())
    ensures exchange.Exchanged? && exchange.userInfo.Some? && exchange.userInfo.value != map[] ==>
      var info := exchange.userInfo.value;
      var email := EmailClaim(p, info);
      && (email.None? ==> resp.Error? && resp.status == BAD_REQUEST && db.State() == old(db.State()))
      && (email.Some? && !old(db.EmailTaken(email.value)) ==>
            && resp == Ok(CallbackRedirect(frontendUrl, userId))
            && db.State() == old(db.State()).(
                 organizations := old(db.organizations)[orgId := OAuthOrganization(orgId, Get(info, "name"), now)],
                 users := old(db.users)[userId := OAuthUser(userId, orgId, p, email.value, Get(info, "name"), SubjectClaim(p, info), now)]))
      && (email.Some? ==> forall id :: id in old(db.users) && old(db.users[id].email) == email.value ==>
            && resp == Ok(CallbackRedirect(frontendUrl, id))
            && db.State() == old(db.State()).(users := old(db.users)[id := old(db.users[id]).(lastLogin := Some(now))]))
  {
    if exchange.ExchangeFailed? {
      return Fail(BAD_REQUEST, exchange.message);
    }
    if exchange.userInfo.None? || exchange.userInfo.value == map[] {
      return Fail(BAD_REQUEST, HttpExceptionText(BAD_REQUEST, NO_USER_INFO));
    }
    var info := exchange.userInfo.value;
    var email := EmailClaim(p, info);
    var fullName := Get(info, "name");
    var oauthId := SubjectClaim(p, info);
    if email.None? {
      // The new row violates `users.email NOT NULL`; the transaction is rolled back.
      return Fail(BAD_REQUEST, "IntegrityError");
    }
    var user := FindUserByEmail(db, email.value);
    if user.None? {
      PutOrganization(db, OAuthOrganization(orgId, fullName, now));
      InsertUser(db, OAuthUser(userId, orgId, p, email.value, fullName, oauthId, now));
      resp := Ok(CallbackRedirect(frontendUrl, userId));
    } else {
      var u := user.value;
      ReplaceUser(db, u.(lastLogin := Some(now)));
      resp := Ok(CallbackRedirect(frontendUrl, u.id));
    }
  }

  // ---------------------------------------------------------------------------
  // invitations

  /** The body of `POST /auth/check-invitation`. */
  datatype InvitationStatus =
    | NoAccount
    | Account(hasInvitation: bool, invitationToken: Option<string>, fullName: Option<string>, organizationId: Id)

  /**
   * `POST /auth/check-invitation`: whether the email's owner still has to accept an
   * invitation; the token is only revealed while the invitation is pending.
   */
  method CheckInvitation(db: Database, email: string) returns (r: InvitationStatus)
    requires db.Valid()
    ensures r.NoAccount? <==> !db.EmailTaken(email)
    ensures forall id :: id in db.users && db.users[id].email == email ==>
      var u := db.users[id];
      r == Account(u.isPendingInvitation, if u.isPendingInvitation then u.invitationToken else None, u.fullName, u.organizationId)
  {
    var user := FindUserByEmail(db, email);
    if user.None? {
      return NoAccount;
    }
    var u := user.value;
    r := Account(u.isPendingInvitation, if u.isPendingInvitation then u.invitationToken else None, u.fullName, u.organizationId);
  }

  /** The user once the invitation is accepted: password set, no longer pending, token spent, verified. */
  function Accepted(u: User, hashed: string, now: Time): (r: User)
    ensures r.hashedPassword == Some(hashed) && !r.isPendingInvitation && r.invitationToken == None && r.isVerified
    ensures r.lastLogin == Some(now)
    ensures r.(hashedPassword := u.hashedPassword, isPendingInvitation := u.isPendingInvitation,
               invitationToken := u.invitationToken, isVerified := u.isVerified, lastLogin := u.lastLogin) == u
  {
    u.(hashedPassword := Some(hashed), isPendingInvitation := false, invitationToken := None, isVerified := true, lastLogin := Some(now))
  }

  /**
   * `POST /auth/accept-invitation`: an unknown token is 404 and an accepted invitation 400;
   * otherwise the password is set and the token is spent, so the same token is unknown from
   * then on.
   */
  method AcceptInvitation(db: Database, token: string, password: string, hash: string -> string, now: Time)
    returns (resp: Response<TokenResponse>)
    requires db.Valid()
    modifies db
    ensures db.Valid()
    ensures !old(db.TokenHeld(token)) ==> resp == Fail(NOT_FOUND, INVALID_INVITATION) && db.State() == old(db.State())
    ensures forall id :: id in old(db.users) && old(db.users[id].invitationToken) == Some(token) ==>
      if !old(db.users[id].isPendingInvitation) then
        resp == Fail(BAD_REQUEST, ALREADY_ACCEPTED) && db.State() == old(db.State())
      else
        && resp == Ok(TokensFor(id))
        && db.State() == old(db.State()).(users := old(db.users)[id := Accepted(old(db.users[id]), hash(password), now)])
    ensures resp.Ok? ==> !db.TokenHeld(token)
  {
    var user := FindUserByToken(db, token);
    if user.None? {
      return Fail(NOT_FOUND, INVALID_INVITATION);
    }
    var u := user.value;
    if !u.isPendingInvitation {
      return Fail(BAD_REQUEST, ALREADY_ACCEPTED);
    }
    var after := Accepted(u, hash(password), now);
    db.users := db.users[u.id := after];
    resp := Ok(TokensFor(u.id));
  }

  /** An invited user cannot log in with a password before accepting, and can right after. */
  lemma AcceptThenLogin(u: User, password: string, hash: string -> string, verify: (string, string) -> bool, now: Time)
    requires u.isPendingInvitation && u.isActive
    requires verify(password, hash(password)) && hash(password) != ""
    ensures LoginDecision(u, password, verify) == Fail(FORBIDDEN, ACCEPT_FIRST)
    ensures LoginDecision(Accepted(u, hash(password), now), password, verify) == Ok(TokensFor(u.id))
  {
  }

  // ---------------------------------------------------------------------------
  // refresh

  /**
   * `POST /auth/refresh`: the decoded claims of the presented token (`None` when it does not
   * decode) must exist and be of type "refresh", and the subject must still exist.
   */
  method Refresh(db: Database, payload: Option<map<string, string>>) returns (resp: Response<TokenResponse>)
    requires db.Valid()
    ensures payload.None? || payload.value == map[] || Get(payload.value, "type") != Some("refresh") ==>
      resp == Fail(UNAUTHORIZED, INVALID_REFRESH)
    ensures payload.Some? && Get(payload.value, "type") == Some("refresh") ==>
      var sub := Get(payload.value, "sub");
      if sub.Some? && sub.value in db.users then resp == Ok(TokensFor(sub.value))
      else resp == Fail(UNAUTHORIZED, USER_NOT_FOUND)
  {
    if payload.None? || payload.value == map[] || Get(payload.value, "type") != Some("refresh") {
      return Fail(UNAUTHORIZED, INVALID_REFRESH);
    }
    var sub := Get(payload.value, "sub");
    if sub.None? || sub.value !in db.users {
      return Fail(UNAUTHORIZED, USER_NOT_FOUND);
    }
    var u := db.users[sub.value];
    resp := Ok(TokensFor(u.id));
  }
}
