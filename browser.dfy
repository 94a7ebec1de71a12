/**
 * The browser surroundings the page controllers act on: `localStorage`
 * keys, the login route, and a log of the outward effects (requests sent,
 * navigations, alerts, console errors) that the model records instead of
 * performing them.
 */
module Browser {
  import Api
  import opened Wrappers

  const AccessTokenKey: string := "accessToken"
  const RefreshTokenKey: string := "refreshToken"
  const LoginPath: string := "/login"

  datatype Effect =
      /** One wrapper call sent with `credential` (the bearer token, or the refresh token for
          `refreshToken`) about the object `target` (a post or account id), if any. */
    | Request(wrapper: Api.Wrapper, credential: string, target: Option<int>)
      /** A wrapper call that also carries the wrapper's data argument, before the wrapper
          merges its defaults into it and serialises it. */
    | Send(wrapper: Api.Wrapper, credential: string, target: Option<int>, body: Api.Body)
    | Navigate(path: string)
    | Alert(message: string)
    | ConsoleError(message: string)

  /** `localStorage.getItem(key)` used as a condition: missing (null) and "" are falsy. */
  predicate StoredTruthy(storage: map<string, string>, key: string) {
    key in storage && storage[key] != ""
  }

  /** A `string | null` state value used as a condition. */
  predicate TokenTruthy(token: Option<string>) {
    token.Some? && token.value != ""
  }

  /** The two storages agree on every key except the two credential keys. */
  ghost predicate SameOutsideCredentials(s: map<string, string>, t: map<string, string>) {
    forall k :: k != AccessTokenKey && k != RefreshTokenKey ==>
      (k in s <==> k in t) && (k in s ==> s[k] == t[k])
  }
}
