# MSAL authentication provider, session bridge and session freshness — a Dafny model

This project models the authentication core of a Next.js sample application
that signs users in through Microsoft's identity library (MSAL):

- **`MsalAuthProvider`** (lib/MsalAuth/MsalAuthProvider.ts), a stateful object
  that holds the authentication state, the current error and the account
  record; runs login (popup or redirect), silent token renewal with an
  interactive fallback, and the reconciliation `processLogin`; and tells four
  sets of listeners (state, account info, error, initialisation) about every
  change. It is the class `Provider.MsalAuthProvider` (provider.dfy). Each of
  its operations is proved to follow a chain of value-level steps in
  `ProviderSpec` (provider_spec.dfy): the new state, the calls made into the
  identity library, and the listener calls (`Follows`). What each chain
  promises is proved in a lemma next to it. One invariant runs through all of
  them (`Announced`): every change of state, error or account record is
  broadcast, so a listener that applies every value it receives rebuilds the
  provider's state.
- **The session bridge** (lib/auth/MsalAuth/client.ts): the `sessionReducer`,
  the flags `useSession` derives, and the `Provider` component, which builds
  one provider, registers its four callbacks and dispatches what they
  receive. It is `SessionBridge` (session_bridge.dfy). The class `SessionStore`
  is proved to keep the session in step with the provider after mounting,
  signing in, fetching a token, completing a redirect and finishing
  initialisation.
- **The next-auth style freshness rule** (lib/MsalAuth/client.ts): `getSession`
  and the hook's `_getSession`. This is `NextAuthClient`
  (next_auth_client.dfy). The skip decision is the predicate `Skips`, and the
  method `SessionHook.Refresh` is proved against it.

The identity library is not modelled; it is an oracle. A `Library` value
gives, for one operation, the configured client id, the cached account, the
login-in-progress flag and the outcome of each call (`Ok(response)` or
`Err(error)`). The calls the core makes are logged as `LibraryRequest`s,
each with the parameters as they were at the moment of the call. Listener
callbacks are opaque `Handle`s. Every callback call is appended to a
notification log, and a `forEach` over a set is described by what it must
contain (each listener once, with the value), since the order is left to
the set. The clock and the session server are parameters of
`SessionHook.Refresh`.

`extraQueryParameters` is modelled as an object (`QueryParameters`), because
the source's `{ ...params }` copies are shallow. Deleting `domain_hint` from
a refresh copy therefore deletes it from the caller's parameters, or from
the stored parameters when the caller passed none. The model keeps this:
`Provider.MsalAuthProvider.AcquireToken` states it, and so does `StoredExtra()`
in the constructor, `ProcessLogin` and `Login`.

In these places the model keeps behaviour of the code that a reader might not expect:

- Only a truthy `domain_hint` is removed. A `domain_hint` whose value is the
  empty string stays in the parameters of the silent call.
- The provider's constructor runs `initializeProvider`. The `InProgress` and
  `Completed` signals go to the init listeners registered at that moment.
  The bridge registers its callbacks only after `new` returns, so it
  receives the `Completed` signal only. `ProviderSpec.FreshStartWithoutAccount`
  states the broadcasts of a fresh start.
- `processLogin` does not record a `user_login_error` from the ID-token
  refresh. When the silent call fails with it, `loginToRefreshToken`
  (lib/MsalAuth/MsalAuthProvider.ts:315-320) has already stored and broadcast
  it, so the error stays stored and the exception at
  lib/MsalAuth/MsalAuthProvider.ts:346-354 only avoids a second broadcast
  (`ProviderSpec.UserLoginErrorStillStored`). The exception keeps the error
  out of the error slot only when the redirect fallback
  `acquireTokenRedirect` (lib/MsalAuth/MsalAuthProvider.ts:295) throws it
  synchronously. That call is outside any `try`, so its error is never
  recorded (`ProviderSpec.UserLoginErrorFromRedirectNotStored`).
- `isReady` in the session is not monotonic. A later non-`Completed` init
  signal turns it off again (`SessionBridge.ReadyFollowsLatestInit`).

## Model

| member | source | states |
|---|---|---|
| ProviderSpec.SetAuthenticationState | lib/MsalAuth/MsalAuthProvider.ts:365-376 | the state becomes the new value; state listeners are told exactly when it differs from the old one; error, account record and library calls are untouched |
| ProviderSpec.SetError | lib/MsalAuth/MsalAuthProvider.ts:280-284 | the error slot holds the given error (or none), every error listener is told, nothing else changes |
| ProviderSpec.SetInitState | lib/MsalAuth/MsalAuthProvider.ts:378-380 | the init signal is broadcast and nothing is stored |
| ProviderSpec.MergeAccountInfo | lib/MsalAuth/MsalAuthProvider.ts:382-393 | the account comes from the prior record if any, else from the response; an ID-token response replaces only `jwtIdToken`, an access-token response only `jwtAccessToken`, any other type neither |
| ProviderSpec.MergeOrderIrrelevant | lib/MsalAuth/MsalAuthProvider.ts:382-393 | merging an ID-token response and an access-token response gives the same record in either order |
| ProviderSpec.SetAccountInfo | lib/MsalAuth/MsalAuthProvider.ts:382-399 | the merged record is stored and broadcast to account-info listeners |
| ProviderSpec.TokenAcquired | lib/MsalAuth/MsalAuthProvider.ts:142-145 | a token response is merged into the account record and the state becomes `Authenticated`; the error is kept |
| ProviderSpec.Rejected | lib/MsalAuth/MsalAuthProvider.ts:309-310 | a failure records the error first and then makes the state `Unauthenticated`; the account record is kept |
| ProviderSpec.StripDomainHint | lib/MsalAuth/MsalAuthProvider.ts:133-139 | the result has no truthy `domain_hint`, and every other key keeps its value; without a truthy hint the map is unchanged |
| ProviderSpec.RefreshRedirectUri | lib/MsalAuth/MsalAuthProvider.ts:120-124 | the caller's redirect URI when truthy, else the configured `tokenRefreshUri` |
| ProviderSpec.RefreshParameters | lib/MsalAuth/MsalAuthProvider.ts:167-188 | silent-refresh parameters: `[clientId]` as the only scope for an ID token, the caller's or stored scopes for an access token, the refresh redirect URI, and no truthy `domain_hint` |
| ProviderSpec.FallbackParameters | lib/MsalAuth/MsalAuthProvider.ts:199-208 | the interactive fallback uses the effective parameters with the already-stripped extras; for an ID token without a truthy caller login hint, the cached user name becomes the login hint |
| ProviderSpec.LoginToRefreshTokenOutcome | lib/MsalAuth/MsalAuthProvider.ts:286-322 | interaction-required in redirect mode: only the redirect call is made, and nothing changes or is broadcast, whether the call starts the redirect or throws (the throw becomes the failure); in popup mode one popup call follows, and its success authenticates while its failure records the error and unauthenticates; any other error is recorded without an interactive call; every change is broadcast and no init signal is sent |
| ProviderSpec.AcquireTokenOutcome | lib/MsalAuth/MsalAuthProvider.ts:114-213 | the first library call is the silent one with the refresh parameters; the outcome is the silent response, else the redirect or the popup's reply for interaction-required, else the silent failure; a token means `Authenticated`, a failure means `Unauthenticated` with that error recorded, except a throw of the redirect fallback, which like a redirect changes nothing; every change is broadcast |
| ProviderSpec.ProcessLoginOutcome | lib/MsalAuth/MsalAuthProvider.ts:337-363 | a stored error means `Unauthenticated` with no library call; a cached account means a silent ID-token refresh whose outcome decides the state, and a failure is stored unless it is a `user_login_error` thrown by the redirect fallback; otherwise `InProgress` exactly when a login is in progress, else `Unauthenticated`; every change is broadcast and no init signal is sent |
| ProviderSpec.UserLoginErrorFromRedirectNotStored | lib/MsalAuth/MsalAuthProvider.ts:292-298 | a `user_login_error` thrown by the redirect fallback during the ID-token refresh leaves no error stored, only `Unauthenticated`, after the silent and the redirect calls |
| ProviderSpec.UserLoginErrorStillStored | lib/MsalAuth/MsalAuthProvider.ts:337-356 | a `user_login_error` from the silent ID-token refresh still ends with that error stored and `Unauthenticated`, after exactly one silent call, with the error broadcast once |
| ProviderSpec.ClearErrorForLogin | lib/MsalAuth/MsalAuthProvider.ts:79-82 | the stored error is cleared (and the clearing broadcast) unless it is `block_token_requests` |
| ProviderSpec.PopupLoginOutcome | lib/MsalAuth/MsalAuthProvider.ts:95-104 | the popup is called once with the effective parameters; success leaves `InProgress`, failure records the error and leaves `Unauthenticated`; a cleared error is the first broadcast |
| ProviderSpec.RedirectLoginOutcome | lib/MsalAuth/MsalAuthProvider.ts:85-94 | the redirect is called once with the effective parameters; the state is `InProgress`, or `Unauthenticated` with the error when the call throws; the account record is untouched |
| ProviderSpec.LoginOutcome | lib/MsalAuth/MsalAuthProvider.ts:72-108 | redirect mode ends after the redirect with no reconciliation; popup mode calls the popup first and always reconciles afterwards: a failed popup leaves exactly the popup's error and `Unauthenticated`; a successful popup with no error left ends `Authenticated` when the cached account's silent refresh yields a token, `Unauthenticated` with its error when it fails, and, with no cached account, `InProgress` or `Unauthenticated` by the login-in-progress flag; every change is broadcast |
| ProviderSpec.InitializeProviderSignals | lib/MsalAuth/MsalAuthProvider.ts:331-334 | the first broadcast is the `InProgress` init signal and no other init signal follows before the `await` ends; every change is broadcast |
| ProviderSpec.CompleteInitialization | lib/MsalAuth/MsalAuthProvider.ts:334 | the `Completed` signal is broadcast and the state is untouched |
| ProviderSpec.RedirectCallbackOutcome | lib/MsalAuth/MsalAuthProvider.ts:324-329 | a reported error is recorded and then makes the state `Unauthenticated` with no library call; with no error and no cached account the state follows the login-in-progress flag; with no error and a cached account the ID-token refresh's outcome decides the state as in `processLogin`; every change is broadcast and no init signal is sent |
| ProviderSpec.FreshStartWithoutAccount | lib/MsalAuth/MsalAuthProvider.ts:331-335 | with no error, account or login in progress, initialisation broadcasts `InProgress`, `Unauthenticated`, `Completed`, ends `Unauthenticated`, and calls nothing |
| Listeners.SeenFanOut | lib/MsalAuth/MsalAuthProvider.ts:280-284 | one `forEach` broadcast reaches each listener of the set exactly once and no other listener |
| Listeners.SeenFiltered | lib/MsalAuth/MsalAuthProvider.ts:365-403 | any listener receives exactly the broadcasts of the kinds it is registered for, in the order they were made, and nothing else |
| Listeners.SeenDelivered | lib/MsalAuth/MsalAuthProvider.ts:365-403 | a listener registered in all four sets receives exactly the broadcast values, in order |
| Listeners.DeliveredToNobody | lib/MsalAuth/MsalAuthProvider.ts:53-70 | broadcasts with no listener registered call nobody |
| Provider.MsalAuthProvider.constructor | lib/MsalAuth/MsalAuthProvider.ts:53-70 | parameters stored; options are the given ones or popup mode with the page origin as refresh URI; no listener registered and none called; state, library calls and broadcasts follow `initializeProvider`; stored `domain_hint` stripped exactly when an account is cached |
| Provider.MsalAuthProvider.GetAccountInfo | lib/MsalAuth/MsalAuthProvider.ts:110-112 | the current account record, or none |
| Provider.MsalAuthProvider.GetError | lib/MsalAuth/MsalAuthProvider.ts:219-220 | the current error, or none |
| Provider.MsalAuthProvider.GetAuthenticationParameters | lib/MsalAuth/MsalAuthProvider.ts:215-217 | a shallow copy that shares the stored `extraQueryParameters` object |
| Provider.MsalAuthProvider.GetProviderOptions | lib/MsalAuth/MsalAuthProvider.ts:228-230 | the stored options |
| Provider.MsalAuthProvider.SetAuthenticationParameters | lib/MsalAuth/MsalAuthProvider.ts:222-226 | the getter returns the new parameters afterwards |
| Provider.MsalAuthProvider.SetProviderOptions | lib/MsalAuth/MsalAuthProvider.ts:232-237 | the getter returns the new options; redirect mode registers the redirect callback with the library, popup mode calls nothing |
| Provider.MsalAuthProvider.RegisterAuthenticationStateHandler | lib/MsalAuth/MsalAuthProvider.ts:239-244 | the handle joins the state set and is called once with the current state, even when already registered |
| Provider.MsalAuthProvider.UnregisterAuthenticationStateHandler | lib/MsalAuth/MsalAuthProvider.ts:246-250 | only that handle leaves only the state set; nobody is called |
| Provider.MsalAuthProvider.RegisterAccountInfoHandler | lib/MsalAuth/MsalAuthProvider.ts:252-255 | the handle joins the account-info set and is called once with the current record |
| Provider.MsalAuthProvider.UnregisterAccountInfoHandler | lib/MsalAuth/MsalAuthProvider.ts:257-261 | only that handle leaves only the account-info set |
| Provider.MsalAuthProvider.RegisterErrorHandler | lib/MsalAuth/MsalAuthProvider.ts:263-266 | the handle joins the error set and is called once with the current error |
| Provider.MsalAuthProvider.UnregisterErrorHandler | lib/MsalAuth/MsalAuthProvider.ts:268-270 | only that handle leaves only the error set |
| Provider.MsalAuthProvider.RegisterInitInfoHandler | lib/MsalAuth/MsalAuthProvider.ts:272-274 | the handle joins the init set and is not called |
| Provider.MsalAuthProvider.UnregisterInitInfoHandler | lib/MsalAuth/MsalAuthProvider.ts:276-278 | only that handle leaves only the init set |
| Provider.MsalAuthProvider.Notify | lib/MsalAuth/MsalAuthProvider.ts:282 | the `forEach` loop calls every listener of the value's kind exactly once with the value, and nobody else |
| Provider.MsalAuthProvider.SetAuthenticationState | lib/MsalAuth/MsalAuthProvider.ts:365-376 | follows `ProviderSpec.SetAuthenticationState` and returns the resulting state |
| Provider.MsalAuthProvider.SetError | lib/MsalAuth/MsalAuthProvider.ts:280-284 | follows `ProviderSpec.SetError` |
| Provider.MsalAuthProvider.SetInitState | lib/MsalAuth/MsalAuthProvider.ts:378-380 | follows `ProviderSpec.SetInitState` |
| Provider.MsalAuthProvider.SetAccountInfo | lib/MsalAuth/MsalAuthProvider.ts:382-403 | follows `ProviderSpec.SetAccountInfo` and returns the stored record |
| Provider.MsalAuthProvider.LoginToRefreshToken | lib/MsalAuth/MsalAuthProvider.ts:286-322 | state, library calls and listener calls follow `ProviderSpec.LoginToRefreshToken`, and the outcome is its outcome |
| Provider.MsalAuthProvider.RemoveDomainHint | lib/MsalAuth/MsalAuthProvider.ts:133-139 | the shared map afterwards is the old map with a truthy `domain_hint` removed |
| Provider.MsalAuthProvider.SilentThenInteractive | lib/MsalAuth/MsalAuthProvider.ts:141-156 | the silent attempt, and on failure the interactive fallback, follow `ProviderSpec.AcquireToken` |
| Provider.MsalAuthProvider.AcquireToken | lib/MsalAuth/MsalAuthProvider.ts:114-157 | follows `ProviderSpec.AcquireToken`; the caller's (or, without one, the stored) `extraQueryParameters` object has lost its truthy `domain_hint` |
| Provider.MsalAuthProvider.GetAccessToken | lib/MsalAuth/MsalAuthProvider.ts:114-157 | an access-token request following `ProviderSpec.AcquireToken`, with the in-place strip |
| Provider.MsalAuthProvider.GetIdToken | lib/MsalAuth/MsalAuthProvider.ts:159-213 | an ID-token request following `ProviderSpec.AcquireToken`, with the in-place strip |
| Provider.MsalAuthProvider.ProcessLogin | lib/MsalAuth/MsalAuthProvider.ts:337-363 | follows `ProviderSpec.ProcessLogin`; the stored extras lose a truthy `domain_hint` exactly when the ID token is refreshed |
| Provider.MsalAuthProvider.ClearErrorForLogin | lib/MsalAuth/MsalAuthProvider.ts:79-82 | follows `ProviderSpec.ClearErrorForLogin` |
| Provider.MsalAuthProvider.PopupLogin | lib/MsalAuth/MsalAuthProvider.ts:95-104 | follows `ProviderSpec.PopupLogin` |
| Provider.MsalAuthProvider.RedirectLogin | lib/MsalAuth/MsalAuthProvider.ts:85-94 | follows `ProviderSpec.RedirectLogin` |
| Provider.MsalAuthProvider.Login | lib/MsalAuth/MsalAuthProvider.ts:72-108 | follows `ProviderSpec.Login`; the stored extras are stripped only in popup mode, and only when the reconciliation refreshes the ID token |
| Provider.MsalAuthProvider.InitializeProvider | lib/MsalAuth/MsalAuthProvider.ts:331-334 | follows `ProviderSpec.InitializeProvider` |
| Provider.MsalAuthProvider.CompleteInitialization | lib/MsalAuth/MsalAuthProvider.ts:334 | follows `ProviderSpec.CompleteInitialization` |
| Provider.MsalAuthProvider.AuthenticationRedirectCallback | lib/MsalAuth/MsalAuthProvider.ts:324-329 | follows `ProviderSpec.RedirectCallback` |
| SessionBridge.InitialState | lib/auth/MsalAuth/client.ts:22-29 | not ready, `Unauthenticated`, not loading, with no account record, error or provider |
| SessionBridge.Reduce | lib/auth/MsalAuth/client.ts:35-67 | each action replaces only its own fields; `loading` is set exactly for `InProgress`; `isReady` exactly for `Completed`; any other action changes nothing |
| SessionBridge.ReduceIdempotent | lib/auth/MsalAuth/client.ts:35-67 | dispatching an action twice has the effect of dispatching it once |
| SessionBridge.ReduceKeepsLoadingConsistent | lib/auth/MsalAuth/client.ts:50-57 | `loading` stays equal to "state is `InProgress`" across every action |
| SessionBridge.ReadyFollowsLatestInit | lib/auth/MsalAuth/client.ts:46-49 | `isReady` reflects only the latest init signal |
| SessionBridge.UseSession | lib/auth/MsalAuth/client.ts:135-144 | `isAuthenticated` exactly when `Authenticated`; `loading` and `isReady` passed through |
| SessionBridge.NotLoadingWhenAuthenticated | lib/auth/MsalAuth/client.ts:135-144 | a session whose `loading` matches its state is never loading and authenticated at once |
| SessionBridge.AccessTokenOf | lib/auth/MsalAuth/client.ts:137-142 | a token response yields only its access-token string; a rejection propagates its error |
| SessionBridge.ActionOf | lib/auth/MsalAuth/client.ts:80-90 | each callback dispatches a change action, never the provider or an unknown action |
| SessionBridge.ReducePayloads | lib/auth/MsalAuth/client.ts:80-90 | callback dispatches never replace the provider and keep `loading` consistent |
| SessionBridge.ReducePayloadsMirrors | lib/auth/MsalAuth/client.ts:80-90 | dispatching the broadcast values rebuilds, in the session, the provider state they announce |
| SessionBridge.ReducePayloadsKeepsReady | lib/auth/MsalAuth/client.ts:89-90 | values without an init signal leave `isReady` alone |
| SessionBridge.AfterOperation | lib/auth/MsalAuth/client.ts:80-90 | after any announced provider operation the session mirrors the provider's new state |
| SessionBridge.AfterCompletion | lib/auth/MsalAuth/client.ts:89-90 | the `Completed` signal makes the session ready and changes nothing else |
| SessionBridge.ReplaysMirror | lib/auth/MsalAuth/client.ts:98-102 | the three values replayed on registration bring the session in line with the provider |
| SessionBridge.SessionStore.constructor | lib/auth/MsalAuth/client.ts:79 | the reducer starts from `initialState` |
| SessionBridge.SessionStore.Dispatch | lib/auth/MsalAuth/client.ts:79 | the session becomes the reducer's result |
| SessionBridge.SessionStore.Forward | lib/auth/MsalAuth/client.ts:80-90 | the session becomes the reduction of every value the bridge's callbacks received since the last forward |
| SessionBridge.SessionStore.Mount | lib/auth/MsalAuth/client.ts:91-109 | with a provider already in the session nothing happens; otherwise one new provider is built, all four callbacks are registered, and the session mirrors the state `initializeProvider` left, with `isReady` unchanged |
| SessionBridge.SessionStore.Attach | lib/auth/MsalAuth/client.ts:98-107 | registering the four callbacks and dispatching the provider leaves the session mirroring the provider |
| SessionBridge.SessionStore.SignIn | lib/auth/MsalAuth/client.ts:129-131 | after `login()` the session mirrors the state `ProviderSpec.Login` gives |
| SessionBridge.SessionStore.GetAccessToken | lib/auth/MsalAuth/client.ts:137-142 | the result is the access-token string of the outcome `ProviderSpec.AcquireToken` gives for `{ scopes }`, and the session mirrors the new provider state |
| SessionBridge.SessionStore.FinishInitialization | lib/auth/MsalAuth/client.ts:89-90 | the `Completed` signal makes the session ready and changes nothing else |
| SessionBridge.SessionStore.RedirectCompleted | lib/auth/MsalAuth/client.ts:80-88 | after the redirect callback the session mirrors the state `ProviderSpec.RedirectCallback` gives |
| NextAuthClient.ResolveRequest | lib/MsalAuth/client.ts:11-13 | a given request is kept; without one, the context's request (if any) is used |
| NextAuthClient.FetchOptionsFor | lib/MsalAuth/client.ts:16 | a request's cookie header is forwarded; without a request no header is sent |
| NextAuthClient.Seconds | lib/MsalAuth/client.ts:48 | the clock rounded down to whole seconds |
| NextAuthClient.Skips | lib/MsalAuth/client.ts:51-73 | a storage event or an unknown cached session always fetches; without a maximum age the call skips exactly when no event triggered it; a negative maximum age never skips; a known absent session with a maximum age always skips; an unparsable last sync never counts as fresh |
| NextAuthClient.NextAuth.GetSession | lib/MsalAuth/client.ts:7-22 | one fetch with the resolved request's cookie; the session message is sent exactly when the fetch succeeded and `triggerEvent` is set; the reply is returned |
| NextAuthClient.SessionHook.constructor | lib/MsalAuth/client.ts:39-40 | `data` starts as the given session and `loading` as true |
| NextAuthClient.SessionHook.Refresh | lib/MsalAuth/client.ts:41-99 | a skipped call changes nothing; otherwise the last sync becomes the current second, one fetch without headers is made, the message is sent only when not triggered by storage, and a reply becomes the cached session and `data` with `loading` false, while a failed fetch leaves an unknown cache `null` and the hook's state as it was |
| NextAuthClient.ThrottledAfterSync | lib/MsalAuth/client.ts:65-72 | after a sync that stored a known value, with a maximum age set, every non-storage call made at least a second before the maximum age has passed skips |

## Left out

- The identity library (MSAL) is an oracle: `loginPopup`, `loginRedirect`, `acquireTokenSilent`, `acquireTokenPopup`, `acquireTokenRedirect`, `getAccount`, `getLoginInProgress`, `handleRedirectCallback` and `getCurrentConfiguration` are represented by a `Library` value of replies. Token validation and caching happen inside the library.
- Promise interleaving is not modelled. Each operation runs as one sequential step, and overlapping calls are out of scope. The constructor completes `initializeProvider` up to its `await`, including the whole `processLogin`; in the source, the part of `processLogin` after its first `await` runs after the constructor returns, so the bridge's callbacks, registered right after, receive its broadcasts directly rather than through the replay on registration. The session ends in the same state either way.
- Provider.MsalAuthProvider.CompleteInitialization: the `Completed` signal after the `await` is a separate method, called by `SessionBridge.SessionStore.FinishInitialization`, rather than being tied to the end of the constructor.
- `Logger.ERROR` calls are left out (logging only).
- In Redirect mode the interactive fallback of `loginToRefreshToken` returns a promise that resolves at once with `undefined` (lib/MsalAuth/MsalAuthProvider.ts:298). This is the outcome `Redirecting`. `getIdToken` and `getAccessToken` pass that `undefined` to `new IdTokenResponse(...)` or `new AccessTokenResponse(...)`; those wrappers are not part of this model. A redirect therefore gives `NoToken` in `SessionBridge.AccessTokenOf`.
- ProviderSpec.ProcessLogin: treating `Redirecting` as a success assumes that `IdTokenResponse` accepts `undefined`. If the wrapper reads a field of its argument, it throws a `TypeError`, and the `catch` of `processLogin` (lib/MsalAuth/MsalAuthProvider.ts:344-356) records that error and sets `Unauthenticated`. The model does not capture this case.
- The value `setError` and `setAccountInfo` return (a copy of the stored value) is returned by `SetAccountInfo`; `SetError` returns nothing, since no caller uses the value.
- The `UserAgentApplication` self-reference and the MSAL `Configuration` passed to the base class are left out, apart from the client id, which the `Library` value carries.
- Error classes are reduced to `InteractionRequired`, `ClientAuth` and other errors, with the error code and message. `{ ...error }` copies are values here.
- Only `scopes`, `loginHint`, `redirectUri` and `extraQueryParameters` of `AuthenticationParameters` are modelled; the other fields are copied unchanged by the source and affect no decision.
- `logout` is inherited from the library and not defined in the source; `signOut` (lib/auth/MsalAuth/client.ts:132-134) only calls the inherited `logout` and is left out with it. `_sendMessage`, `_fetchData`, `_apiBaseUrl`, `setOptions` and `logger` are not defined in lib/MsalAuth/client.ts: the fetch is the `reply` parameter with a log of fetch options, and `_sendMessage` is a log of messages.
- `__NEXTAUTH._getSession = _getSession`, the `useEffect` that calls it, `useSession`'s context lookup and the `Provider` of lib/MsalAuth/client.ts are React wiring and are left out.
- NextAuthClient.NextAuth: `parseInt(__NEXTAUTH._clientLastSync)` is the stored whole second, or `None` for `NaN`. Fractional or non-numeric maximum ages are not modelled.
- React wiring (`createContext`, `useReducer`, `useEffect`, `createElement`) is left out. The callbacks' `dispatch` calls are modelled as `SessionBridge.SessionStore.Forward`, which replays the provider's listener log in order.
- SessionBridge.SessionStore.SignIn and SessionBridge.SessionStore.GetAccessToken require a provider in the session. The source dereferences `session.msalAuthProvider` and would throw without one.
- The server session endpoint (lib/MsalAuth/server/api/session.ts), configuration constants, pages, menu data and REST wrappers are not part of this model.
