/**
 * What each operation of `MsalAuthProvider` (lib/MsalAuth/MsalAuthProvider.ts)
 * does, as functions on values. An operation is a chain of steps over an
 * `Effect`: the provider's state (`Core`), the values broadcast to listeners
 * so far, and the calls made into the identity library so far. Each step
 * function takes the effect accumulated so far and extends it, in the order
 * the source runs its statements; the class in provider.dfy is proved to
 * follow these chains.
 */
module ProviderSpec {
  import opened AuthTypes

  /** The provider fields an operation changes: `authenticationState` (unset until first set), `_error`, `_accountInfo`. */
  datatype Core = Core(
    state: Option<AuthenticationState>,
    error: Option<AuthError>,
    accountInfo: Option<AccountInfo>)

  datatype Effect = Effect(core: Core, sent: seq<Payload>, requests: seq<LibraryRequest>)

  /** An effect together with how a token request ended. */
  datatype Refresh = Refresh(effect: Effect, outcome: TokenOutcome)

  datatype TokenRequest = ForAccessToken | ForIdToken

  function Start(c: Core): Effect
  {
    Effect(c, [], [])
  }

  // Announcement: every change of the core is broadcast

  /** The core as a listener that applies every value it receives would reconstruct it. */
  function Apply(c: Core, p: Payload): Core
  {
    match p
    case StateValue(s) => c.(state := s)
    case AccountInfoValue(i) => c.(accountInfo := i)
    case ErrorValue(e) => c.(error := e)
    case InitValue(_) => c
  }

  function Replay(c: Core, sent: seq<Payload>): Core
    decreases |sent|
  {
    if sent == [] then c else Replay(Apply(c, sent[0]), sent[1..])
  }

  lemma {:induction false} ReplayAppend(c: Core, s1: seq<Payload>, s2: seq<Payload>)
    ensures Replay(c, s1 + s2) == Replay(Replay(c, s1), s2)
    decreases |s1|
  {
    if s1 == [] {
      assert s1 + s2 == s2;
    } else {
      assert (s1 + s2)[0] == s1[0];
      assert (s1 + s2)[1..] == s1[1..] + s2;
      ReplayAppend(Apply(c, s1[0]), s1[1..], s2);
    }
  }

  /**
   * `r` extends `acc`, and the new core is what replaying the new broadcasts
   * on the old core gives: no field changes without its listeners being told.
   */
  ghost predicate Announced(acc: Effect, r: Effect)
  {
    && |acc.sent| <= |r.sent|
    && r.sent[..|acc.sent|] == acc.sent
    && |acc.requests| <= |r.requests|
    && r.requests[..|acc.requests|] == acc.requests
    && r.core == Replay(acc.core, r.sent[|acc.sent|..])
  }

  lemma AnnouncedNothing(acc: Effect)
    ensures Announced(acc, acc)
  {
    assert acc.sent[|acc.sent|..] == [];
  }

  lemma {:induction false} AnnouncedTrans(a: Effect, b: Effect, c: Effect)
    requires Announced(a, b) && Announced(b, c)
    ensures Announced(a, c)
  {
    assert c.sent[..|a.sent|] == c.sent[..|b.sent|][..|a.sent|];
    assert c.requests[..|a.requests|] == c.requests[..|b.requests|][..|a.requests|];
    assert c.sent[|a.sent|..] == b.sent[|a.sent|..] + c.sent[|b.sent|..];
    ReplayAppend(a.core, b.sent[|a.sent|..], c.sent[|b.sent|..]);
  }

  /** Nothing `acc` did not already hold in `r` is an initialisation signal. */
  ghost predicate SendsNoInit(acc: Effect, r: Effect)
  {
    forall i | |acc.sent| <= i < |r.sent| :: !r.sent[i].InitValue?
  }

  lemma SendsNoInitTrans(a: Effect, b: Effect, c: Effect)
    requires Announced(a, b) && Announced(b, c) && SendsNoInit(a, b) && SendsNoInit(b, c)
    ensures SendsNoInit(a, c)
  {
    forall i | |a.sent| <= i < |b.sent| ensures c.sent[i] == b.sent[i] {
      assert c.sent[..|b.sent|][i] == c.sent[i];
    }
  }

  // Single steps

  /** `setAuthenticationState`: broadcast only when the value changes. */
  function SetAuthenticationState(acc: Effect, s: AuthenticationState): (r: Effect)
    ensures r.core.state == Some(s)
    ensures r.core.error == acc.core.error && r.core.accountInfo == acc.core.accountInfo
    ensures r.sent == acc.sent + (if acc.core.state == Some(s) then [] else [StateValue(Some(s))])
    ensures r.requests == acc.requests
    ensures Announced(acc, r)
    ensures SendsNoInit(acc, r)
  {
    if acc.core.state == Some(s) then
      assert acc.sent[|acc.sent|..] == [];
      acc
    else
      var r := Effect(acc.core.(state := Some(s)), acc.sent + [StateValue(Some(s))], acc.requests);
      assert r.sent[|acc.sent|..] == [StateValue(Some(s))];
      r
  }

  /** `setError`: store the error (or clear it) and always broadcast it. */
  function SetError(acc: Effect, err: Option<AuthError>): (r: Effect)
    ensures r.core == acc.core.(error := err)
    ensures r.sent == acc.sent + [ErrorValue(err)] && r.requests == acc.requests
    ensures Announced(acc, r)
    ensures SendsNoInit(acc, r)
  {
    var r := Effect(acc.core.(error := err), acc.sent + [ErrorValue(err)], acc.requests);
    assert r.sent[|acc.sent|..] == [ErrorValue(err)];
    r
  }

  /** `setInitState`: broadcast only; nothing is stored. */
  function SetInitState(acc: Effect, i: InitState): (r: Effect)
    ensures r.core == acc.core
    ensures r.sent == acc.sent + [InitValue(i)] && r.requests == acc.requests
    ensures Announced(acc, r)
  {
    var r := Effect(acc.core, acc.sent + [InitValue(i)], acc.requests);
    assert r.sent[|acc.sent|..] == [InitValue(i)];
    r
  }

  /**
   * The account record `setAccountInfo` builds: the prior record (or a new one
   * holding only the response's account) with the one token field the
   * response's type selects replaced.
   */
  function MergeAccountInfo(prior: Option<AccountInfo>, resp: AuthResponse): (info: AccountInfo)
    ensures info.account == (if prior.Some? then prior.value.account else resp.account)
    ensures info.jwtIdToken ==
      if resp.tokenType == IdToken then Some(resp.rawIdToken)
      else if prior.Some? then prior.value.jwtIdToken else None
    ensures info.jwtAccessToken ==
      if resp.tokenType == AccessToken then Some(resp.accessToken)
      else if prior.Some? then prior.value.jwtAccessToken else None
  {
    var base := if prior.Some? then prior.value else AccountInfo(resp.account, None, None);
    match resp.tokenType
    case IdToken => base.(jwtIdToken := Some(resp.rawIdToken))
    case AccessToken => base.(jwtAccessToken := Some(resp.accessToken))
    case OtherTokenType => base
  }

  /** An ID-token response and an access-token response merged in either order give the same record. */
  lemma MergeOrderIrrelevant(prior: AccountInfo, idResp: AuthResponse, accessResp: AuthResponse)
    requires idResp.tokenType == IdToken && accessResp.tokenType == AccessToken
    ensures MergeAccountInfo(Some(MergeAccountInfo(Some(prior), idResp)), accessResp)
         == MergeAccountInfo(Some(MergeAccountInfo(Some(prior), accessResp)), idResp)
  {
  }

  /** `setAccountInfo`: store the merged record and broadcast it. */
  function SetAccountInfo(acc: Effect, resp: AuthResponse): (r: Effect)
    ensures r.core == acc.core.(accountInfo := Some(MergeAccountInfo(acc.core.accountInfo, resp)))
    ensures r.sent == acc.sent + [AccountInfoValue(r.core.accountInfo)] && r.requests == acc.requests
    ensures Announced(acc, r)
    ensures SendsNoInit(acc, r)
  {
    var info := MergeAccountInfo(acc.core.accountInfo, resp);
    var r := Effect(acc.core.(accountInfo := Some(info)), acc.sent + [AccountInfoValue(Some(info))], acc.requests);
    assert r.sent[|acc.sent|..] == [AccountInfoValue(Some(info))];
    r
  }

  /** A call into the identity library. */
  function Ask(acc: Effect, req: LibraryRequest): (r: Effect)
    ensures r.core == acc.core && r.sent == acc.sent && r.requests == acc.requests + [req]
    ensures Announced(acc, r)
    ensures SendsNoInit(acc, r)
  {
    var r := Effect(acc.core, acc.sent, acc.requests + [req]);
    assert r.sent[|acc.sent|..] == [];
    r
  }

  /** A token obtained: merge it into the account record, then become `Authenticated`. */
  function TokenAcquired(acc: Effect, resp: AuthResponse): (r: Effect)
    ensures r.core == Core(Some(Authenticated), acc.core.error, Some(MergeAccountInfo(acc.core.accountInfo, resp)))
    ensures r.requests == acc.requests
    ensures Announced(acc, r)
    ensures SendsNoInit(acc, r)
  {
    var a := SetAccountInfo(acc, resp);
    var r := SetAuthenticationState(a, Authenticated);
    AnnouncedTrans(acc, a, r);
    SendsNoInitTrans(acc, a, r);
    r
  }

  /** A failure: record the error, then become `Unauthenticated`. */
  function Rejected(acc: Effect, e: AuthError): (r: Effect)
    ensures r.core == Core(Some(Unauthenticated), Some(e), acc.core.accountInfo)
    ensures r.requests == acc.requests
    ensures |r.sent| > |acc.sent| && r.sent[|acc.sent|] == ErrorValue(Some(e))
    ensures Announced(acc, r)
    ensures SendsNoInit(acc, r)
  {
    var a := SetError(acc, Some(e));
    var r := SetAuthenticationState(a, Unauthenticated);
    AnnouncedTrans(acc, a, r);
    SendsNoInitTrans(acc, a, r);
    r
  }

  // Parameters

  /** JavaScript truthiness of an optional string. */
  predicate Truthy(s: Option<string>)
  {
    s.Some? && s.value != ""
  }

  const DomainHintKey: string := "domain_hint"

  /** Whether the source's guard `extraQueryParameters && extraQueryParameters.domain_hint` holds. */
  predicate HasDomainHint(extra: Option<map<string, string>>)
  {
    extra.Some? && DomainHintKey in extra.value && extra.value[DomainHintKey] != ""
  }

  /** The `delete ... domain_hint` workaround: every other key and value is kept. */
  function StripDomainHint(extra: Option<map<string, string>>): (r: Option<map<string, string>>)
    ensures !HasDomainHint(r)
    ensures r.Some? <==> extra.Some?
    ensures extra.Some? ==> forall k | k != DomainHintKey :: (k in r.value <==> k in extra.value)
    ensures extra.Some? ==> forall k | k in r.value :: k in extra.value && r.value[k] == extra.value[k]
    ensures !HasDomainHint(extra) ==> r == extra
  {
    if HasDomainHint(extra) then Some(extra.value - {DomainHintKey}) else extra
  }

  /** `parameters || this.getAuthenticationParameters()`. */
  function EffectiveParameters(given: Option<RequestParameters>, stored: RequestParameters): RequestParameters
  {
    if given.Some? then given.value else stored
  }

  /** The redirect URI of a silent refresh: the caller's, if truthy, else `tokenRefreshUri`. */
  function RefreshRedirectUri(given: Option<RequestParameters>, options: ProviderOptions): (u: Option<string>)
    ensures given.Some? && Truthy(given.value.redirectUri) ==> u == given.value.redirectUri
    ensures !(given.Some? && Truthy(given.value.redirectUri)) ==> u == options.tokenRefreshUri
  {
    if given.Some? && Truthy(given.value.redirectUri) then given.value.redirectUri else options.tokenRefreshUri
  }

  /**
   * The parameter set passed to `acquireTokenSilent`: the effective
   * parameters with the refresh redirect URI, `[clientId]` as the only scope
   * for an ID token, and no truthy `domain_hint`.
   */
  function RefreshParameters(kind: TokenRequest, given: Option<RequestParameters>, stored: RequestParameters,
                             options: ProviderOptions, clientId: string): (p: RequestParameters)
    ensures kind == ForIdToken ==> p.scopes == Some([clientId])
    ensures kind == ForAccessToken ==> p.scopes == EffectiveParameters(given, stored).scopes
    ensures p.loginHint == EffectiveParameters(given, stored).loginHint
    ensures p.redirectUri == RefreshRedirectUri(given, options)
    ensures p.extraQueryParameters == StripDomainHint(EffectiveParameters(given, stored).extraQueryParameters)
    ensures !HasDomainHint(p.extraQueryParameters)
  {
    var base := EffectiveParameters(given, stored);
    RequestParameters(
      if kind == ForIdToken then Some([clientId]) else base.scopes,
      base.loginHint,
      RefreshRedirectUri(given, options),
      StripDomainHint(base.extraQueryParameters))
  }

  /**
   * The parameter set for the interactive fallback: a copy of the effective
   * parameters, whose shared `extraQueryParameters` the silent attempt has
   * already stripped; for an ID token, the cached account's user name is the
   * login hint when the caller gave none.
   */
  function FallbackParameters(kind: TokenRequest, given: Option<RequestParameters>, stored: RequestParameters,
                              account: Option<Account>): (p: RequestParameters)
    ensures p.scopes == EffectiveParameters(given, stored).scopes
    ensures p.redirectUri == EffectiveParameters(given, stored).redirectUri
    ensures p.extraQueryParameters == StripDomainHint(EffectiveParameters(given, stored).extraQueryParameters)
    ensures kind == ForIdToken && account.Some? && (given.None? || !Truthy(given.value.loginHint)) ==>
              p.loginHint == Some(account.value.userName)
    ensures !(kind == ForIdToken && account.Some? && (given.None? || !Truthy(given.value.loginHint))) ==>
              p.loginHint == EffectiveParameters(given, stored).loginHint
  {
    var base := EffectiveParameters(given, stored);
    var copy := base.(extraQueryParameters := StripDomainHint(base.extraQueryParameters));
    if kind == ForIdToken && account.Some? && (given.None? || !Truthy(given.value.loginHint)) then
      copy.(loginHint := Some(account.value.userName))
    else
      copy
  }

  // Operations. Each operation is a plain chain of steps; what it promises is
  // stated by the lemma that follows it, so that callers that only need to
  // name the chain do not carry its properties along.

  /**
   * `loginToRefreshToken`: an interaction-required error leads to a redirect
   * (nothing else happens, and a synchronous throw of the redirect call
   * rejects without being recorded) or to one popup attempt; any other error
   * is recorded and rethrown without an interactive attempt.
   */
  function LoginToRefreshToken(acc: Effect, error: AuthError, params: RequestParameters,
                               loginType: LoginType, popup: Outcome<AuthResponse>,
                               redirect: Option<AuthError>): Refresh
  {
    if error.kind == InteractionRequired then
      if loginType == Redirect then
        var a := Ask(acc, AcquireTokenRedirectRequest(params));
        match redirect
        case Some(e) => Refresh(a, Failed(e))
        case None => Refresh(a, Redirecting)
      else
        var a := Ask(acc, AcquireTokenPopupRequest(params));
        match popup
        case Ok(resp) => Refresh(TokenAcquired(a, resp), Token(resp))
        case Err(e) => Refresh(Rejected(a, e), Failed(e))
    else
      Refresh(Rejected(acc, error), Failed(error))
  }

  lemma LoginToRefreshTokenOutcome(acc: Effect, error: AuthError, params: RequestParameters,
                                   loginType: LoginType, popup: Outcome<AuthResponse>,
                                   redirect: Option<AuthError>)
    ensures var r := LoginToRefreshToken(acc, error, params, loginType, popup, redirect);
            error.kind == InteractionRequired && loginType == Redirect ==>
              r.outcome == (if redirect.Some? then Failed(redirect.value) else Redirecting)
              && r.effect == Effect(acc.core, acc.sent, acc.requests + [AcquireTokenRedirectRequest(params)])
    ensures var r := LoginToRefreshToken(acc, error, params, loginType, popup, redirect);
            error.kind == InteractionRequired && loginType == Popup ==>
              r.effect.requests == acc.requests + [AcquireTokenPopupRequest(params)]
    ensures var r := LoginToRefreshToken(acc, error, params, loginType, popup, redirect);
            error.kind == InteractionRequired && loginType == Popup && popup.Ok? ==>
              r.outcome == Token(popup.value)
              && r.effect.core == Core(Some(Authenticated), acc.core.error,
                                       Some(MergeAccountInfo(acc.core.accountInfo, popup.value)))
    ensures var r := LoginToRefreshToken(acc, error, params, loginType, popup, redirect);
            error.kind == InteractionRequired && loginType == Popup && popup.Err? ==>
              r.outcome == Failed(popup.error)
              && r.effect.core == Core(Some(Unauthenticated), Some(popup.error), acc.core.accountInfo)
    ensures var r := LoginToRefreshToken(acc, error, params, loginType, popup, redirect);
            error.kind != InteractionRequired ==>
              r.outcome == Failed(error)
              && r.effect.core == Core(Some(Unauthenticated), Some(error), acc.core.accountInfo)
              && r.effect.requests == acc.requests
    ensures var r := LoginToRefreshToken(acc, error, params, loginType, popup, redirect);
            Announced(acc, r.effect) && SendsNoInit(acc, r.effect)
  {
    if error.kind == InteractionRequired && loginType == Popup {
      var a := Ask(acc, AcquireTokenPopupRequest(params));
      match popup
      case Ok(resp) =>
        AnnouncedTrans(acc, a, TokenAcquired(a, resp));
        SendsNoInitTrans(acc, a, TokenAcquired(a, resp));
      case Err(e) =>
        AnnouncedTrans(acc, a, Rejected(a, e));
        SendsNoInitTrans(acc, a, Rejected(a, e));
    }
  }

  /**
   * Whether a token request ends in the synchronous throw of the redirect
   * fallback, which `loginToRefreshToken` neither records nor broadcasts.
   */
  predicate RedirectThrows(loginType: LoginType, lib: Library)
  {
    && lib.acquireTokenSilent.Err? && lib.acquireTokenSilent.error.kind == InteractionRequired
    && loginType == Redirect && lib.acquireTokenRedirect.Some?
  }

  /**
   * How a token request ends, from the library's replies alone: the silent
   * response; else, for an interaction-required failure, a redirect (or its
   * synchronous throw) or the popup's reply; else the silent failure.
   */
  function ExpectedOutcome(loginType: LoginType, lib: Library): TokenOutcome
  {
    match lib.acquireTokenSilent
    case Ok(resp) => Token(resp)
    case Err(e) =>
      if e.kind != InteractionRequired then Failed(e)
      else if loginType == Redirect then
        match lib.acquireTokenRedirect
        case Some(e2) => Failed(e2)
        case None => Redirecting
      else match lib.acquireTokenPopup
        case Ok(resp) => Token(resp)
        case Err(e2) => Failed(e2)
  }

  /**
   * `getAccessToken` and `getIdToken`: one silent attempt with the refresh
   * parameters; on success the token is merged and the state becomes
   * `Authenticated`; on failure `loginToRefreshToken` decides.
   */
  function AcquireToken(acc: Effect, kind: TokenRequest, given: Option<RequestParameters>, stored: RequestParameters,
                        options: ProviderOptions, lib: Library): Refresh
  {
    var a := Ask(acc, AcquireTokenSilentRequest(RefreshParameters(kind, given, stored, options, lib.clientId)));
    match lib.acquireTokenSilent
    case Ok(resp) => Refresh(TokenAcquired(a, resp), Token(resp))
    case Err(e) =>
      LoginToRefreshToken(a, e, FallbackParameters(kind, given, stored, lib.account),
                          options.loginType, lib.acquireTokenPopup, lib.acquireTokenRedirect)
  }

  lemma AcquireTokenOutcome(acc: Effect, kind: TokenRequest, given: Option<RequestParameters>, stored: RequestParameters,
                            options: ProviderOptions, lib: Library)
    ensures var r := AcquireToken(acc, kind, given, stored, options, lib);
            |r.effect.requests| > |acc.requests|
            && r.effect.requests[|acc.requests|]
               == AcquireTokenSilentRequest(RefreshParameters(kind, given, stored, options, lib.clientId))
    ensures var r := AcquireToken(acc, kind, given, stored, options, lib);
            lib.acquireTokenSilent.Ok? ==>
              r.effect.core == Core(Some(Authenticated), acc.core.error,
                                    Some(MergeAccountInfo(acc.core.accountInfo, lib.acquireTokenSilent.value)))
              && |r.effect.requests| == |acc.requests| + 1
    ensures var r := AcquireToken(acc, kind, given, stored, options, lib);
            lib.acquireTokenSilent.Err? && lib.acquireTokenSilent.error.kind == InteractionRequired ==>
              r.effect.requests == acc.requests
                + [AcquireTokenSilentRequest(RefreshParameters(kind, given, stored, options, lib.clientId)),
                   if options.loginType == Popup
                   then AcquireTokenPopupRequest(FallbackParameters(kind, given, stored, lib.account))
                   else AcquireTokenRedirectRequest(FallbackParameters(kind, given, stored, lib.account))]
    ensures var r := AcquireToken(acc, kind, given, stored, options, lib);
            lib.acquireTokenSilent.Err? && lib.acquireTokenSilent.error.kind != InteractionRequired ==>
              |r.effect.requests| == |acc.requests| + 1
    ensures var r := AcquireToken(acc, kind, given, stored, options, lib);
            r.outcome == ExpectedOutcome(options.loginType, lib)
    ensures var r := AcquireToken(acc, kind, given, stored, options, lib);
            && (r.outcome.Token? ==> r.effect.core.state == Some(Authenticated))
            && (r.outcome.Failed? && !RedirectThrows(options.loginType, lib) ==>
                  r.effect.core.state == Some(Unauthenticated) && r.effect.core.error == Some(r.outcome.error))
            && (RedirectThrows(options.loginType, lib) || r.outcome.Redirecting? ==> r.effect.core == acc.core)
    ensures var r := AcquireToken(acc, kind, given, stored, options, lib);
            Announced(acc, r.effect) && SendsNoInit(acc, r.effect)
  {
    var a := Ask(acc, AcquireTokenSilentRequest(RefreshParameters(kind, given, stored, options, lib.clientId)));
    match lib.acquireTokenSilent
    case Ok(resp) =>
      AnnouncedTrans(acc, a, TokenAcquired(a, resp));
      SendsNoInitTrans(acc, a, TokenAcquired(a, resp));
    case Err(e) =>
      var fallback := FallbackParameters(kind, given, stored, lib.account);
      var r := LoginToRefreshToken(a, e, fallback, options.loginType, lib.acquireTokenPopup, lib.acquireTokenRedirect);
      LoginToRefreshTokenOutcome(a, e, fallback, options.loginType, lib.acquireTokenPopup, lib.acquireTokenRedirect);
      AnnouncedTrans(acc, a, r.effect);
      SendsNoInitTrans(acc, a, r.effect);
  }

  /** The "user not logged in" failure that `processLogin` does not record a second time. */
  predicate IsUserLoginError(e: AuthError)
  {
    e.kind == ClientAuth && e.errorCode == "user_login_error"
  }

  /** Whether `processLogin` refreshes the ID token (and so strips the stored `domain_hint`). */
  predicate RefreshesIdToken(c: Core, lib: Library)
  {
    c.error.None? && lib.account.Some?
  }

  /**
   * `processLogin`: a stored error means `Unauthenticated`; else a cached
   * account means a silent ID-token refresh whose failure means
   * `Unauthenticated`; else the library's login-in-progress flag means
   * `InProgress`; else `Unauthenticated`.
   */
  function ProcessLogin(acc: Effect, stored: RequestParameters, options: ProviderOptions, lib: Library): Effect
  {
    if acc.core.error.Some? then
      SetAuthenticationState(acc, Unauthenticated)
    else if lib.account.Some? then
      var inner := AcquireToken(acc, ForIdToken, None, stored, options, lib);
      match inner.outcome
      case Failed(e) =>
        var b := if IsUserLoginError(e) then inner.effect else SetError(inner.effect, Some(e));
        SetAuthenticationState(b, Unauthenticated)
      case _ => inner.effect
    else if lib.loginInProgress then
      SetAuthenticationState(acc, InProgress)
    else
      SetAuthenticationState(acc, Unauthenticated)
  }

  lemma ProcessLoginOutcome(acc: Effect, stored: RequestParameters, options: ProviderOptions, lib: Library)
    ensures var r := ProcessLogin(acc, stored, options, lib);
            acc.core.error.Some? ==>
              r.core == acc.core.(state := Some(Unauthenticated)) && r.requests == acc.requests
    ensures var r := ProcessLogin(acc, stored, options, lib);
            RefreshesIdToken(acc.core, lib) ==>
              |r.requests| > |acc.requests|
              && r.requests[|acc.requests|]
                 == AcquireTokenSilentRequest(RefreshParameters(ForIdToken, None, stored, options, lib.clientId))
    ensures var r := ProcessLogin(acc, stored, options, lib);
            RefreshesIdToken(acc.core, lib) ==>
              var outcome := ExpectedOutcome(options.loginType, lib);
              && (outcome.Token? ==> r.core.state == Some(Authenticated))
              && (outcome.Failed? ==>
                    && r.core.state == Some(Unauthenticated)
                    && r.core.error == (if RedirectThrows(options.loginType, lib) && IsUserLoginError(outcome.error)
                                        then None else Some(outcome.error)))
              && (outcome.Redirecting? ==> r.core == acc.core)
    ensures var r := ProcessLogin(acc, stored, options, lib);
            acc.core.error.None? && lib.account.None? ==>
              r.requests == acc.requests
              && r.core == acc.core.(state := Some(if lib.loginInProgress then InProgress else Unauthenticated))
    ensures var r := ProcessLogin(acc, stored, options, lib);
            Announced(acc, r) && SendsNoInit(acc, r)
  {
    if acc.core.error.None? && lib.account.Some? {
      var inner := AcquireToken(acc, ForIdToken, None, stored, options, lib);
      AcquireTokenOutcome(acc, ForIdToken, None, stored, options, lib);
      if inner.outcome.Failed? {
        var e := inner.outcome.error;
        var b := if IsUserLoginError(e) then inner.effect else SetError(inner.effect, Some(e));
        var r := SetAuthenticationState(b, Unauthenticated);
        AnnouncedNothing(inner.effect);
        AnnouncedTrans(acc, inner.effect, b);
        SendsNoInitTrans(acc, inner.effect, b);
        AnnouncedTrans(acc, b, r);
        SendsNoInitTrans(acc, b, r);
      }
    }
  }

  /**
   * The `user_login_error` exception in `processLogin`'s `catch` changes
   * nothing: `loginToRefreshToken` has already stored and broadcast the
   * error, so the provider ends `Unauthenticated` with the error stored, as
   * after any other failure, and the error is broadcast once.
   */
  lemma UserLoginErrorStillStored(acc: Effect, stored: RequestParameters, options: ProviderOptions, lib: Library)
    requires acc.core.error.None? && lib.account.Some?
    requires lib.acquireTokenSilent.Err? && IsUserLoginError(lib.acquireTokenSilent.error)
    ensures var r := ProcessLogin(acc, stored, options, lib);
            var e := lib.acquireTokenSilent.error;
            && r.core == Core(Some(Unauthenticated), Some(e), acc.core.accountInfo)
            && r.requests
               == acc.requests + [AcquireTokenSilentRequest(RefreshParameters(ForIdToken, None, stored, options, lib.clientId))]
            && r.sent == acc.sent + [ErrorValue(Some(e))]
                 + (if acc.core.state == Some(Unauthenticated) then [] else [StateValue(Some(Unauthenticated))])
  {
    var e := lib.acquireTokenSilent.error;
    var a := Ask(acc, AcquireTokenSilentRequest(RefreshParameters(ForIdToken, None, stored, options, lib.clientId)));
    var inner := AcquireToken(acc, ForIdToken, None, stored, options, lib);
    assert inner == Refresh(Rejected(a, e), Failed(e));
    var b := SetError(a, Some(e));
    assert inner.effect == SetAuthenticationState(b, Unauthenticated);
  }

  /**
   * The one failure the `user_login_error` exception does keep out of the
   * error slot: the synchronous throw of the redirect fallback, which
   * `loginToRefreshToken` passes on without recording it. `processLogin`
   * then only sets `Unauthenticated`.
   */
  lemma UserLoginErrorFromRedirectNotStored(acc: Effect, stored: RequestParameters, options: ProviderOptions,
                                            lib: Library)
    requires acc.core.error.None? && lib.account.Some? && options.loginType == Redirect
    requires lib.acquireTokenSilent.Err? && lib.acquireTokenSilent.error.kind == InteractionRequired
    requires lib.acquireTokenRedirect.Some? && IsUserLoginError(lib.acquireTokenRedirect.value)
    ensures var r := ProcessLogin(acc, stored, options, lib);
            && r.core == acc.core.(state := Some(Unauthenticated))
            && r.requests
               == acc.requests + [AcquireTokenSilentRequest(RefreshParameters(ForIdToken, None, stored, options, lib.clientId)),
                                  AcquireTokenRedirectRequest(FallbackParameters(ForIdToken, None, stored, lib.account))]
            && r.sent == acc.sent + (if acc.core.state == Some(Unauthenticated) then [] else [StateValue(Some(Unauthenticated))])
  {
    var a := Ask(acc, AcquireTokenSilentRequest(RefreshParameters(ForIdToken, None, stored, options, lib.clientId)));
    var b := Ask(a, AcquireTokenRedirectRequest(FallbackParameters(ForIdToken, None, stored, lib.account)));
    var inner := AcquireToken(acc, ForIdToken, None, stored, options, lib);
    assert inner == Refresh(b, Failed(lib.acquireTokenRedirect.value));
  }

  /** Whether `login` keeps the stored error: only the `block_token_requests` error survives a new login. */
  predicate KeepsError(c: Core)
  {
    c.error.None? || c.error.value.errorCode == "block_token_requests"
  }

  /** The part of `login` before any interaction: the error is cleared unless it must be kept. */
  function ClearErrorForLogin(acc: Effect): (r: Effect)
    ensures KeepsError(acc.core) ==> r == acc
    ensures !KeepsError(acc.core) ==> r == SetError(acc, None)
    ensures r.core.error == if KeepsError(acc.core) then acc.core.error else None
    ensures Announced(acc, r)
  {
    if KeepsError(acc.core) then AnnouncedNothing(acc); acc else SetError(acc, None)
  }

  /** `login` in popup mode up to (not including) the `processLogin` that follows the popup. */
  function PopupLogin(acc: Effect, given: Option<RequestParameters>, stored: RequestParameters, lib: Library): Effect
  {
    var d := Ask(SetAuthenticationState(ClearErrorForLogin(acc), InProgress),
                 LoginPopupRequest(EffectiveParameters(given, stored)));
    if lib.loginPopup.Err? then Rejected(d, lib.loginPopup.error) else d
  }

  lemma PopupLoginOutcome(acc: Effect, given: Option<RequestParameters>, stored: RequestParameters, lib: Library)
    ensures var r := PopupLogin(acc, given, stored, lib);
            r.requests == acc.requests + [LoginPopupRequest(EffectiveParameters(given, stored))]
    ensures var r := PopupLogin(acc, given, stored, lib);
            lib.loginPopup.Err? ==> r.core == Core(Some(Unauthenticated), Some(lib.loginPopup.error), acc.core.accountInfo)
    ensures var r := PopupLogin(acc, given, stored, lib);
            lib.loginPopup.Ok? ==>
              r.core == Core(Some(InProgress), ClearErrorForLogin(acc).core.error, acc.core.accountInfo)
    ensures var r := PopupLogin(acc, given, stored, lib);
            !KeepsError(acc.core) ==> |r.sent| > |acc.sent| && r.sent[|acc.sent|] == ErrorValue(None)
    ensures Announced(acc, PopupLogin(acc, given, stored, lib))
  {
    var a := ClearErrorForLogin(acc);
    var b := SetAuthenticationState(a, InProgress);
    var d := Ask(b, LoginPopupRequest(EffectiveParameters(given, stored)));
    var r := if lib.loginPopup.Err? then Rejected(d, lib.loginPopup.error) else d;
    AnnouncedTrans(acc, a, b);
    AnnouncedTrans(acc, b, d);
    AnnouncedNothing(d);
    AnnouncedTrans(acc, d, r);
    assert r.sent[..|acc.sent|] == acc.sent;
  }

  /** `login` in redirect mode: `InProgress`, the redirect, and on a synchronous throw the error and `Unauthenticated`. */
  function RedirectLogin(acc: Effect, given: Option<RequestParameters>, stored: RequestParameters, lib: Library): Effect
  {
    var d := Ask(SetAuthenticationState(ClearErrorForLogin(acc), InProgress),
                 LoginRedirectRequest(EffectiveParameters(given, stored)));
    if lib.loginRedirect.Some? then Rejected(d, lib.loginRedirect.value) else d
  }

  lemma RedirectLoginOutcome(acc: Effect, given: Option<RequestParameters>, stored: RequestParameters, lib: Library)
    ensures var r := RedirectLogin(acc, given, stored, lib);
            !KeepsError(acc.core) ==> |r.sent| > |acc.sent| && r.sent[|acc.sent|] == ErrorValue(None)
    ensures var r := RedirectLogin(acc, given, stored, lib);
            r.requests == acc.requests + [LoginRedirectRequest(EffectiveParameters(given, stored))]
            && r.core.accountInfo == acc.core.accountInfo
    ensures var r := RedirectLogin(acc, given, stored, lib);
            lib.loginRedirect.None? ==>
              r.core.state == Some(InProgress) && r.core.error == ClearErrorForLogin(acc).core.error
    ensures var r := RedirectLogin(acc, given, stored, lib);
            lib.loginRedirect.Some? ==>
              r.core.state == Some(Unauthenticated) && r.core.error == lib.loginRedirect
    ensures Announced(acc, RedirectLogin(acc, given, stored, lib))
  {
    var a := ClearErrorForLogin(acc);
    var b := SetAuthenticationState(a, InProgress);
    var d := Ask(b, LoginRedirectRequest(EffectiveParameters(given, stored)));
    var r := if lib.loginRedirect.Some? then Rejected(d, lib.loginRedirect.value) else d;
    AnnouncedTrans(acc, a, b);
    AnnouncedTrans(acc, b, d);
    AnnouncedNothing(d);
    AnnouncedTrans(acc, d, r);
    assert r.sent[..|acc.sent|] == acc.sent;
  }

  /**
   * `login`. In redirect mode: `InProgress`, the redirect, and on a
   * synchronous throw the error and `Unauthenticated`; no reconciliation. In
   * popup mode: `InProgress`, the popup, on failure the error and
   * `Unauthenticated`, and `processLogin` afterwards in every case.
   */
  function Login(acc: Effect, given: Option<RequestParameters>, stored: RequestParameters,
                 options: ProviderOptions, lib: Library): Effect
  {
    match options.loginType
    case Redirect => RedirectLogin(acc, given, stored, lib)
    case Popup => ProcessLogin(PopupLogin(acc, given, stored, lib), stored, options, lib)
  }

  lemma LoginOutcome(acc: Effect, given: Option<RequestParameters>, stored: RequestParameters,
                     options: ProviderOptions, lib: Library)
    ensures var r := Login(acc, given, stored, options, lib);
            !KeepsError(acc.core) ==> |r.sent| > |acc.sent| && r.sent[|acc.sent|] == ErrorValue(None)
    ensures var r := Login(acc, given, stored, options, lib);
            options.loginType == Redirect ==>
              r.requests == acc.requests + [LoginRedirectRequest(EffectiveParameters(given, stored))]
              && r.core.accountInfo == acc.core.accountInfo
              && (lib.loginRedirect.None? ==>
                    r.core.state == Some(InProgress) && r.core.error == ClearErrorForLogin(acc).core.error)
              && (lib.loginRedirect.Some? ==>
                    r.core.state == Some(Unauthenticated) && r.core.error == lib.loginRedirect)
    ensures var r := Login(acc, given, stored, options, lib);
            options.loginType == Popup ==>
              |r.requests| > |acc.requests|
              && r.requests[|acc.requests|] == LoginPopupRequest(EffectiveParameters(given, stored))
    ensures var r := Login(acc, given, stored, options, lib);
            options.loginType == Popup && lib.loginPopup.Err? ==>
              r.core == Core(Some(Unauthenticated), Some(lib.loginPopup.error), acc.core.accountInfo)
              && r.requests == acc.requests + [LoginPopupRequest(EffectiveParameters(given, stored))]
    ensures var r := Login(acc, given, stored, options, lib);
            options.loginType == Popup && lib.loginPopup.Ok? && acc.core.error.Some? && KeepsError(acc.core) ==>
              r.core.state == Some(Unauthenticated)
    ensures var r := Login(acc, given, stored, options, lib);
            var outcome := ExpectedOutcome(Popup, lib);
            options.loginType == Popup && lib.loginPopup.Ok? && ClearErrorForLogin(acc).core.error.None? ==>
              && (lib.account.Some? && outcome.Token? ==> r.core.state == Some(Authenticated))
              && (lib.account.Some? && outcome.Failed? ==>
                    r.core.state == Some(Unauthenticated) && r.core.error == Some(outcome.error))
              && (lib.account.None? ==>
                    r.core == Core(Some(if lib.loginInProgress then InProgress else Unauthenticated), None,
                                   acc.core.accountInfo))
    ensures Announced(acc, Login(acc, given, stored, options, lib))
  {
    match options.loginType
    case Redirect =>
      RedirectLoginOutcome(acc, given, stored, lib);
    case Popup =>
      var p := PopupLogin(acc, given, stored, lib);
      var r := ProcessLogin(p, stored, options, lib);
      PopupLoginOutcome(acc, given, stored, lib);
      ProcessLoginOutcome(p, stored, options, lib);
      AnnouncedTrans(acc, p, r);
      assert r.requests[..|p.requests|] == p.requests;
      assert r.requests[|acc.requests|] == p.requests[|acc.requests|];
      if !KeepsError(acc.core) {
        assert r.sent[..|p.sent|] == p.sent;
        assert r.sent[|acc.sent|] == p.sent[|acc.sent|];
      }
  }

  /** `initializeProvider` up to its `await`: the `InProgress` signal, then `processLogin`. */
  function InitializeProvider(acc: Effect, stored: RequestParameters, options: ProviderOptions, lib: Library): Effect
  {
    ProcessLogin(SetInitState(acc, InitInProgress), stored, options, lib)
  }

  lemma InitializeProviderSignals(acc: Effect, stored: RequestParameters, options: ProviderOptions, lib: Library)
    ensures var r := InitializeProvider(acc, stored, options, lib);
            |r.sent| > |acc.sent| && r.sent[|acc.sent|] == InitValue(InitInProgress)
    ensures var r := InitializeProvider(acc, stored, options, lib);
            forall i | |acc.sent| < i < |r.sent| :: !r.sent[i].InitValue?
    ensures Announced(acc, InitializeProvider(acc, stored, options, lib))
  {
    var a := SetInitState(acc, InitInProgress);
    var r := ProcessLogin(a, stored, options, lib);
    ProcessLoginOutcome(a, stored, options, lib);
    AnnouncedTrans(acc, a, r);
    assert r.sent[..|a.sent|] == a.sent;
    assert r.sent[|acc.sent|] == a.sent[|acc.sent|];
  }

  /** The continuation of `initializeProvider` after its `await`: the `Completed` signal. */
  function CompleteInitialization(acc: Effect): (r: Effect)
    ensures r.core == acc.core && r.sent == acc.sent + [InitValue(InitCompleted)]
    ensures Announced(acc, r)
  {
    SetInitState(acc, InitCompleted)
  }

  /** `authenticationRedirectCallback`: record a reported error, then `processLogin`. */
  function RedirectCallback(acc: Effect, error: Option<AuthError>, stored: RequestParameters,
                            options: ProviderOptions, lib: Library): Effect
  {
    ProcessLogin(if error.Some? then SetError(acc, error) else acc, stored, options, lib)
  }

  lemma RedirectCallbackOutcome(acc: Effect, error: Option<AuthError>, stored: RequestParameters,
                                options: ProviderOptions, lib: Library)
    ensures var r := RedirectCallback(acc, error, stored, options, lib);
            error.Some? ==>
              r.core == acc.core.(error := error, state := Some(Unauthenticated)) && r.requests == acc.requests
    ensures var r := RedirectCallback(acc, error, stored, options, lib);
            error.None? && acc.core.error.None? && lib.account.None? ==>
              r.requests == acc.requests
              && r.core == acc.core.(state := Some(if lib.loginInProgress then InProgress else Unauthenticated))
    ensures var r := RedirectCallback(acc, error, stored, options, lib);
            var outcome := ExpectedOutcome(options.loginType, lib);
            error.None? && acc.core.error.None? && lib.account.Some? ==>
              && (outcome.Token? ==> r.core.state == Some(Authenticated))
              && (outcome.Failed? ==>
                    && r.core.state == Some(Unauthenticated)
                    && r.core.error == (if RedirectThrows(options.loginType, lib) && IsUserLoginError(outcome.error)
                                        then None else Some(outcome.error)))
              && (outcome.Redirecting? ==> r.core == acc.core)
    ensures var r := RedirectCallback(acc, error, stored, options, lib);
            Announced(acc, r) && SendsNoInit(acc, r)
  {
    var a := if error.Some? then SetError(acc, error) else acc;
    var r := ProcessLogin(a, stored, options, lib);
    ProcessLoginOutcome(a, stored, options, lib);
    AnnouncedNothing(acc);
    AnnouncedTrans(acc, a, r);
    SendsNoInitTrans(acc, a, r);
  }

  /**
   * A provider built with no stored error, no cached account and no login in
   * progress ends its initialisation `Unauthenticated`, having broadcast the
   * `InProgress` signal, the new state and the `Completed` signal, and having
   * asked the library for nothing.
   */
  lemma FreshStartWithoutAccount(stored: RequestParameters, options: ProviderOptions, lib: Library)
    requires lib.account.None? && !lib.loginInProgress
    ensures var r := CompleteInitialization(InitializeProvider(Start(Core(None, None, None)), stored, options, lib));
            && r.core == Core(Some(Unauthenticated), None, None)
            && r.sent == [InitValue(InitInProgress), StateValue(Some(Unauthenticated)), InitValue(InitCompleted)]
            && r.requests == []
  {
  }
}
