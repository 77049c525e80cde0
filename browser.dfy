/**
 * What the frontend components share from the browser: `localStorage` as a map from key to
 * string, JavaScript truthiness of an optional string, and the outcome of a `fetch`.
 */
module Browser {
  import opened Common

  const ACCESS_TOKEN: string := "access_token"
  const REFRESH_TOKEN: string := "refresh_token"

  /** `!!x` for a `string | null`: neither null nor empty. */
  predicate Truthy(s: Option<string>)
  {
    s.Some? && s.value != ""
  }

  /** A `router.push` (or assignment to `window.location.href`), or no navigation. */
  datatype Navigation = Stay | GoTo(path: string)

  /**
   * What a `fetch` gives back to a handler: a response with `ok` set and its decoded body, a
   * response that is not ok with its status and its `detail`, or a rejected promise.
   */
  datatype Fetch<+T> = Fine(body: T) | NotOk(status: int, detail: Option<string>) | Raised

  /** The origin's `localStorage`. */
  class LocalStorage {
    var items: map<string, string>

    constructor (initial: map<string, string>)
      ensures items == initial
    {
      items := initial;
    }

    /** `localStorage.getItem(key)`. */
    function GetItem(key: string): (r: Option<string>)
      reads this
      ensures r.Some? <==> key in items
      ensures r.Some? ==> r.value == items[key]
    {
      if key in items then Some(items[key]) else None
    }

    method SetItem(key: string, value: string)
      modifies this
      ensures items == old(items)[key := value]
    {
      items := items[key := value];
    }

    method RemoveItem(key: string)
      modifies this
      ensures items == old(items) - {key}
    {
      items := items - {key};
    }
  }

  /** The storage after both session tokens are written. */
  function WithTokens(items: map<string, string>, access: string, refresh: string): (r: map<string, string>)
    ensures r.Keys == items.Keys + {ACCESS_TOKEN, REFRESH_TOKEN}
    ensures r[ACCESS_TOKEN] == access && r[REFRESH_TOKEN] == refresh
    ensures forall k :: k in items && k != ACCESS_TOKEN && k != REFRESH_TOKEN ==> r[k] == items[k]
  {
    items[ACCESS_TOKEN := access][REFRESH_TOKEN := refresh]
  }

  /** The storage after both session tokens are removed. */
  function WithoutTokens(items: map<string, string>): (r: map<string, string>)
    ensures r.Keys == items.Keys - {ACCESS_TOKEN, REFRESH_TOKEN}
    ensures forall k :: k in r ==> r[k] == items[k]
  {
    items - {ACCESS_TOKEN, REFRESH_TOKEN}
  }

  /** Writes `access_token` then `refresh_token`. */
  method StoreTokens(storage: LocalStorage, access: string, refresh: string)
    modifies storage
    ensures storage.items == WithTokens(old(storage.items), access, refresh)
  {
    storage.SetItem(ACCESS_TOKEN, access);
    storage.SetItem(REFRESH_TOKEN, refresh);
  }

  /** Removes `access_token` then `refresh_token`. */
  method RemoveTokens(storage: LocalStorage)
    modifies storage
    ensures storage.items == WithoutTokens(old(storage.items))
  {
    storage.RemoveItem(ACCESS_TOKEN);
    storage.RemoveItem(REFRESH_TOKEN);
  }

  /** Writing the same tokens again changes nothing. */
  lemma WithTokensIdempotent(items: map<string, string>, access: string, refresh: string)
    ensures WithTokens(WithTokens(items, access, refresh), access, refresh) == WithTokens(items, access, refresh)
  {
  }

  /** Signing in then out leaves no session token, whatever was stored before. */
  lemma SignOutForgetsTokens(items: map<string, string>, access: string, refresh: string)
    ensures WithoutTokens(WithTokens(items, access, refresh)) == WithoutTokens(items)
    ensures ACCESS_TOKEN !in WithoutTokens(WithTokens(items, access, refresh))
  {
  }
}
