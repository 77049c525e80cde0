/**
 * The client-side session (`useAuthStore`): the signed-in user and both tokens, mirrored
 * into `localStorage` so that requests can read the access token.
 */
module AuthStore {
  import opened Common
  import opened Browser

  /** The user object the store keeps, as the profile endpoint returns it. */
  datatype SessionUser = SessionUser(
    id: Id,
    email: string,
    fullName: Option<string>,
    role: string,
    organizationId: Id,
    isActive: bool
  )

  const ADMIN_ROLE: string := "admin"

  class SessionStore {
    var user: Option<SessionUser>
    var accessToken: Option<string>
    var refreshToken: Option<string>

    /** Nobody is signed in. */
    constructor ()
      ensures user == None && accessToken == None && refreshToken == None
      ensures !IsAuthenticated() && !IsAdmin()
    {
      user := None;
      accessToken := None;
      refreshToken := None;
    }

    /** `isAuthenticated()`: the access token is set and not empty. */
    predicate IsAuthenticated()
      reads this
    {
      Truthy(accessToken)
    }

    /** `isAdmin()`: a user is set and its role is "admin". */
    predicate IsAdmin()
      reads this
    {
      user.Some? && user.value.role == ADMIN_ROLE
    }

    /** `setAuth(user, accessToken, refreshToken)`: keeps all three and writes both storage keys. */
    method SetAuth(u: SessionUser, access: string, refresh: string, storage: LocalStorage)
      modifies this, storage
      ensures user == Some(u) && accessToken == Some(access) && refreshToken == Some(refresh)
      ensures storage.items == WithTokens(old(storage.items), access, refresh)
      ensures IsAuthenticated() <==> access != ""
      ensures IsAdmin() <==> u.role == ADMIN_ROLE
    {
      user, accessToken, refreshToken := Some(u), Some(access), Some(refresh);
      StoreTokens(storage, access, refresh);
    }

    /** `clearAuth()`: forgets all three and removes both storage keys. */
    method ClearAuth(storage: LocalStorage)
      modifies this, storage
      ensures user == None && accessToken == None && refreshToken == None
      ensures storage.items == WithoutTokens(old(storage.items))
      ensures !IsAuthenticated() && !IsAdmin()
    {
      user, accessToken, refreshToken := None, None, None;
      RemoveTokens(storage);
    }
  }
}
