/**
 * The page the OAuth flow redirects to (`/auth/callback`): it takes both tokens from the
 * query string, stores them, loads the profile and opens the dashboard.
 */
module AuthCallback {
  import opened Common
  import opened Browser
  import opened AuthStore

  /**
   * `handleCallback`: `access` and `refresh` are the query parameters; `profile` is the
   * outcome of `getCurrentUser`, `None` when it throws. Without both tokens nothing is stored
   * and the login page opens; a failed profile request opens it too, but leaves the tokens
   * in storage.
   */
  method HandleCallback(access: Option<string>, refresh: Option<string>, profile: Option<SessionUser>,
                        storage: LocalStorage, store: SessionStore)
    returns (nav: Navigation)
    modifies storage, store
    ensures !(Truthy(access) && Truthy(refresh)) ==>
      nav == GoTo("/login") && storage.items == old(storage.items)
      && store.user == old(store.user) && store.accessToken == old(store.accessToken) && store.refreshToken == old(store.refreshToken)
    ensures Truthy(access) && Truthy(refresh) ==>
      storage.items == WithTokens(old(storage.items), access.value, refresh.value)
    ensures Truthy(access) && Truthy(refresh) && profile.Some? ==>
      nav == GoTo("/dashboard") && store.user == profile && store.accessToken == access && store.refreshToken == refresh
      && store.IsAuthenticated()
    ensures Truthy(access) && Truthy(refresh) && profile.None? ==>
      nav == GoTo("/login")
      && store.user == old(store.user) && store.accessToken == old(store.accessToken) && store.refreshToken == old(store.refreshToken)
  {
    if Truthy(access) && Truthy(refresh) {
      StoreTokens(storage, access.value, refresh.value);
      if profile.Some? {
        store.SetAuth(profile.value, access.value, refresh.value, storage);
        WithTokensIdempotent(old(storage.items), access.value, refresh.value);
        nav := GoTo("/dashboard");
      } else {
        nav := GoTo("/login");
      }
    } else {
      nav := GoTo("/login");
    }
  }
}
