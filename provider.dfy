/**
 * `MsalAuthProvider` (lib/MsalAuth/MsalAuthProvider.ts): the long-lived
 * authentication state machine. Its fields are updated in place; listeners
 * are handles in four sets and every call of a listener is appended to `log`;
 * every call into the identity library is appended to `requests`, and what
 * the library answers during an operation is the `Library` argument.
 *
 * Each operation is proved to follow the chain of steps ProviderSpec gives
 * for it: `Follows(log0, requests0, e)` says that the provider's state is the
 * chain's core, that the library calls since the operation began are the
 * chain's, and that the listener calls since then deliver the chain's
 * broadcasts to the listeners registered.
 */
module Provider {
  import opened AuthTypes
  import opened Listeners
  import Spec = ProviderSpec

  class MsalAuthProvider {
    var authenticationState: Option<AuthenticationState>
    var parameters: AuthenticationParameters
    var options: ProviderOptions
    var accountInfo: Option<AccountInfo>
    var error: Option<AuthError>

    var stateHandlers: set<Handle>
    var accountInfoHandlers: set<Handle>
    var errorHandlers: set<Handle>
    var initHandlers: set<Handle>

    /** Every listener call made so far, in order. */
    var log: seq<Notification>
    /** Every call into the identity library made so far, in order. */
    var requests: seq<LibraryRequest>

    ghost function View(): Spec.Core
      reads this
    {
      Spec.Core(authenticationState, error, accountInfo)
    }

    function Registered(): Registry
      reads this
    {
      Registry(stateHandlers, accountInfoHandlers, errorHandlers, initHandlers)
    }

    /** The stored baseline's `extraQueryParameters`, as they are now. */
    function StoredExtra(): Option<map<string, string>>
      reads this, ObjectsOf(parameters)
    {
      Snapshot(parameters).extraQueryParameters
    }

    ghost predicate Follows(log0: seq<Notification>, requests0: seq<LibraryRequest>, e: Spec.Effect)
      reads this
    {
      && View() == e.core
      && requests == requests0 + e.requests
      && Extends(log0, log, e.sent, Registered())
    }

    constructor (params: AuthenticationParameters, opts: Option<ProviderOptions>, origin: string, lib: Library)
      modifies ObjectsOf(params)
      ensures parameters == params
      ensures options == if opts.Some? then opts.value else ProviderOptions(Popup, Some(origin))
      ensures Registered() == Registry({}, {}, {}, {}) && log == []
      ensures Follows([], if options.loginType == Redirect then [HandleRedirectCallbackRequest] else [],
                      Spec.InitializeProvider(Spec.Start(Spec.Core(None, None, None)), old(Snapshot(params)), options, lib))
      ensures StoredExtra() == if lib.account.Some? then Spec.StripDomainHint(old(Snapshot(params).extraQueryParameters))
                               else old(Snapshot(params).extraQueryParameters)
    {
      authenticationState := None;
      parameters := params;
      var o := if opts.Some? then opts.value else ProviderOptions(Popup, Some(origin));
      options := o;
      accountInfo := None;
      error := None;
      stateHandlers, accountInfoHandlers, errorHandlers, initHandlers := {}, {}, {}, {};
      log := [];
      requests := if o.loginType == Redirect then [HandleRedirectCallbackRequest] else [];
      new;
      ghost var e := Spec.InitializeProvider(Spec.Start(Spec.Core(None, None, None)), old(Snapshot(params)), o, lib);
      assert View() == Spec.Core(None, None, None) && Snapshot(parameters) == old(Snapshot(params));
      InitializeProvider(lib);
      assert Follows([], if o.loginType == Redirect then [HandleRedirectCallbackRequest] else [], e);
      NobodyNotified();
    }

    /** Without registered listeners an operation's broadcasts call nobody. */
    lemma NobodyNotified()
      requires Registered() == Registry({}, {}, {}, {})
      requires exists sent :: Extends([], log, sent, Registered())
      ensures log == []
    {
      var sent :| Extends([], log, sent, Registered());
      assert log[0..] == log;
      DeliveredToNobody(log, sent);
    }

    // Getters and setters (lines 110-112, 215-237)

    function GetAccountInfo(): (r: Option<AccountInfo>)
      reads this
      ensures r == accountInfo
    {
      accountInfo
    }

    function GetError(): (r: Option<AuthError>)
      reads this
      ensures r == error
    {
      error
    }

    /** A shallow copy: the copy shares the `extraQueryParameters` object. */
    function GetAuthenticationParameters(): (r: AuthenticationParameters)
      reads this
      ensures r == parameters && r.extraQueryParameters == parameters.extraQueryParameters
    {
      parameters
    }

    function GetProviderOptions(): (r: ProviderOptions)
      reads this
      ensures r == options
    {
      options
    }

    method SetAuthenticationParameters(p: AuthenticationParameters)
      modifies this`parameters
      ensures parameters == p && GetAuthenticationParameters() == p
    {
      parameters := p;
    }

    /** Storing redirect-mode options registers the redirect callback with the library. */
    method SetProviderOptions(o: ProviderOptions)
      modifies this`options, this`requests
      ensures options == o && GetProviderOptions() == o
      ensures requests == old(requests) + if o.loginType == Redirect then [HandleRedirectCallbackRequest] else []
    {
      options := o;
      if o.loginType == Redirect {
        requests := requests + [HandleRedirectCallbackRequest];
      }
    }

    // Listener registry (lines 239-278)

    method RegisterAuthenticationStateHandler(h: Handle)
      modifies this`stateHandlers, this`log
      ensures stateHandlers == old(stateHandlers) + {h}
      ensures log == old(log) + [Notification(h, StateValue(authenticationState))]
    {
      stateHandlers := stateHandlers + {h};
      log := log + [Notification(h, StateValue(authenticationState))];
    }

    method UnregisterAuthenticationStateHandler(h: Handle)
      modifies this`stateHandlers
      ensures stateHandlers == old(stateHandlers) - {h}
    {
      stateHandlers := stateHandlers - {h};
    }

    method RegisterAccountInfoHandler(h: Handle)
      modifies this`accountInfoHandlers, this`log
      ensures accountInfoHandlers == old(accountInfoHandlers) + {h}
      ensures log == old(log) + [Notification(h, AccountInfoValue(accountInfo))]
    {
      accountInfoHandlers := accountInfoHandlers + {h};
      log := log + [Notification(h, AccountInfoValue(accountInfo))];
    }

    method UnregisterAccountInfoHandler(h: Handle)
      modifies this`accountInfoHandlers
      ensures accountInfoHandlers == old(accountInfoHandlers) - {h}
    {
      accountInfoHandlers := accountInfoHandlers - {h};
    }

    method RegisterErrorHandler(h: Handle)
      modifies this`errorHandlers, this`log
      ensures errorHandlers == old(errorHandlers) + {h}
      ensures log == old(log) + [Notification(h, ErrorValue(error))]
    {
      errorHandlers := errorHandlers + {h};
      log := log + [Notification(h, ErrorValue(error))];
    }

    method UnregisterErrorHandler(h: Handle)
      modifies this`errorHandlers
      ensures errorHandlers == old(errorHandlers) - {h}
    {
      errorHandlers := errorHandlers - {h};
    }

    /** Init-state listeners are not called on registration. */
    method RegisterInitInfoHandler(h: Handle)
      modifies this`initHandlers
      ensures initHandlers == old(initHandlers) + {h}
    {
      initHandlers := initHandlers + {h};
    }

    method UnregisterInitInfoHandler(h: Handle)
      modifies this`initHandlers
      ensures initHandlers == old(initHandlers) - {h}
    {
      initHandlers := initHandlers - {h};
    }

    // Fan-out and the single steps (lines 280-284, 365-403)

    /** Call every listener of `p`'s kind once with `p` (a `forEach` over the set). */
    method Notify(p: Payload)
      modifies this`log
      ensures Extends(old(log), log, [p], Registered())
    {
      var hs := Registered().Listeners(p.Kind());
      var rest := hs;
      var calls := [];
      PartialFanOutStart(hs, p);
      while rest != {}
        invariant PartialFanOut(calls, hs, rest, p)
        invariant log == old(log)
        decreases rest
      {
        var h :| h in rest;
        PartialFanOutStep(calls, hs, rest, p, h);
        calls := calls + [Notification(h, p)];
        rest := rest - {h};
      }
      PartialFanOutDone(calls, hs, p);
      ExtendsByFanOut(log, calls, p, Registered());
      log := log + calls;
    }

    method SetAuthenticationState(s: AuthenticationState, ghost log0: seq<Notification>,
                                  ghost requests0: seq<LibraryRequest>, ghost acc: Spec.Effect)
      returns (r: AuthenticationState)
      requires Follows(log0, requests0, acc)
      modifies this`authenticationState, this`log
      ensures Follows(log0, requests0, Spec.SetAuthenticationState(acc, s))
      ensures r == s
    {
      if authenticationState != Some(s) {
        authenticationState := Some(s);
        Notify(StateValue(Some(s)));
        ExtendsTrans(log0, old(log), log, acc.sent, [StateValue(Some(s))], Registered());
      }
      r := authenticationState.value;
    }

    method SetError(err: Option<AuthError>, ghost log0: seq<Notification>,
                    ghost requests0: seq<LibraryRequest>, ghost acc: Spec.Effect)
      requires Follows(log0, requests0, acc)
      modifies this`error, this`log
      ensures Follows(log0, requests0, Spec.SetError(acc, err))
    {
      error := err;
      Notify(ErrorValue(err));
      ExtendsTrans(log0, old(log), log, acc.sent, [ErrorValue(err)], Registered());
    }

    method SetInitState(i: InitState, ghost log0: seq<Notification>,
                        ghost requests0: seq<LibraryRequest>, ghost acc: Spec.Effect)
      requires Follows(log0, requests0, acc)
      modifies this`log
      ensures Follows(log0, requests0, Spec.SetInitState(acc, i))
    {
      Notify(InitValue(i));
      ExtendsTrans(log0, old(log), log, acc.sent, [InitValue(i)], Registered());
    }

    /** `setAccountInfo`, reached through `handleAcquireTokenSuccess`. */
    method SetAccountInfo(resp: AuthResponse, ghost log0: seq<Notification>,
                          ghost requests0: seq<LibraryRequest>, ghost acc: Spec.Effect)
      returns (info: AccountInfo)
      requires Follows(log0, requests0, acc)
      modifies this`accountInfo, this`log
      ensures Follows(log0, requests0, Spec.SetAccountInfo(acc, resp))
      ensures accountInfo == Some(info)
    {
      var base := if accountInfo.Some? then accountInfo.value else AccountInfo(resp.account, None, None);
      if resp.tokenType == IdToken {
        base := base.(jwtIdToken := Some(resp.rawIdToken));
      } else if resp.tokenType == AccessToken {
        base := base.(jwtAccessToken := Some(resp.accessToken));
      }
      accountInfo := Some(base);
      Notify(AccountInfoValue(accountInfo));
      ExtendsTrans(log0, old(log), log, acc.sent, [AccountInfoValue(accountInfo)], Registered());
      info := base;
    }

    method Ask(req: LibraryRequest, ghost log0: seq<Notification>,
               ghost requests0: seq<LibraryRequest>, ghost acc: Spec.Effect)
      requires Follows(log0, requests0, acc)
      modifies this`requests
      ensures Follows(log0, requests0, Spec.Ask(acc, req))
    {
      requests := requests + [req];
      assert requests == requests0 + (acc.requests + [req]);
    }

    // Token acquisition (lines 114-213, 286-322)

    /** `loginToRefreshToken`. */
    method LoginToRefreshToken(failure: AuthError, params: RequestParameters, lib: Library,
                               ghost log0: seq<Notification>, ghost requests0: seq<LibraryRequest>,
                               ghost acc: Spec.Effect)
      returns (outcome: TokenOutcome)
      requires Follows(log0, requests0, acc)
      modifies this`authenticationState, this`error, this`accountInfo, this`log, this`requests
      ensures var r := Spec.LoginToRefreshToken(acc, failure, params, options.loginType, lib.acquireTokenPopup,
                                                lib.acquireTokenRedirect);
              Follows(log0, requests0, r.effect) && outcome == r.outcome
    {
      if failure.kind == InteractionRequired {
        if options.loginType == Redirect {
          Ask(AcquireTokenRedirectRequest(params), log0, requests0, acc);
          match lib.acquireTokenRedirect {
            case Some(e) => outcome := Failed(e);
            case None => outcome := Redirecting;
          }
          return;
        }
        Ask(AcquireTokenPopupRequest(params), log0, requests0, acc);
        ghost var a := Spec.Ask(acc, AcquireTokenPopupRequest(params));
        match lib.acquireTokenPopup {
          case Ok(resp) =>
            var _ := SetAccountInfo(resp, log0, requests0, a);
            var _ := SetAuthenticationState(Authenticated, log0, requests0, Spec.SetAccountInfo(a, resp));
            outcome := Token(resp);
          case Err(e) =>
            SetError(Some(e), log0, requests0, a);
            var _ := SetAuthenticationState(Unauthenticated, log0, requests0, Spec.SetError(a, Some(e)));
            outcome := Failed(e);
        }
      } else {
        SetError(Some(failure), log0, requests0, acc);
        var _ := SetAuthenticationState(Unauthenticated, log0, requests0, Spec.SetError(acc, Some(failure)));
        outcome := Failed(failure);
      }
    }

    /**
     * The body shared by `getAccessToken` and `getIdToken`: build the refresh
     * parameters, delete a truthy `domain_hint` from the (shared)
     * `extraQueryParameters` object, try silently, and fall back to
     * `loginToRefreshToken` with a copy of the effective parameters.
     */
    method AcquireToken(kind: Spec.TokenRequest, given: Option<AuthenticationParameters>, lib: Library,
                        ghost log0: seq<Notification>, ghost requests0: seq<LibraryRequest>,
                        ghost acc: Spec.Effect)
      returns (outcome: TokenOutcome)
      requires Follows(log0, requests0, acc)
      modifies this`authenticationState, this`error, this`accountInfo, this`log, this`requests
      modifies if given.Some? then ObjectsOf(given.value) else ObjectsOf(parameters)
      ensures var r := Spec.AcquireToken(acc, kind, old(SnapshotOf(given)), old(Snapshot(parameters)), options, lib);
              Follows(log0, requests0, r.effect) && outcome == r.outcome
      ensures var effective := if given.Some? then given.value else parameters;
              Snapshot(effective).extraQueryParameters
              == Spec.StripDomainHint(old(Snapshot(effective).extraQueryParameters))
    {
      ghost var g0, s0 := SnapshotOf(given), Snapshot(parameters);
      var effective := if given.Some? then given.value else parameters;
      ghost var e0 := Snapshot(effective);
      assert e0 == Spec.EffectiveParameters(g0, s0);
      var refreshParams := effective.(
        redirectUri := if given.Some? && Spec.Truthy(given.value.redirectUri) then given.value.redirectUri
                       else options.tokenRefreshUri,
        scopes := if kind == Spec.ForIdToken then Some([lib.clientId]) else effective.scopes);
      RemoveDomainHint(refreshParams.extraQueryParameters);
      ghost var stripped := e0.(extraQueryParameters := Spec.StripDomainHint(e0.extraQueryParameters));
      assert Snapshot(effective) == stripped;
      RefreshParametersAfterStrip(kind, g0, s0, options, lib.clientId);
      ghost var silent := Spec.RefreshParameters(kind, g0, s0, options, lib.clientId);
      var silentParams := Snapshot(refreshParams);
      assert silentParams == silent;
      outcome := SilentThenInteractive(kind, given, effective, silentParams, lib, log0, requests0, acc, g0, s0);
    }

    /** The `try`/`catch` around `acquireTokenSilent` in `getAccessToken` and `getIdToken`. */
    method SilentThenInteractive(kind: Spec.TokenRequest, given: Option<AuthenticationParameters>,
                                 effective: AuthenticationParameters, silentParams: RequestParameters, lib: Library,
                                 ghost log0: seq<Notification>, ghost requests0: seq<LibraryRequest>,
                                 ghost acc: Spec.Effect, ghost g0: Option<RequestParameters>, ghost s0: RequestParameters)
      returns (outcome: TokenOutcome)
      requires Follows(log0, requests0, acc)
      requires silentParams == Spec.RefreshParameters(kind, g0, s0, options, lib.clientId)
      requires g0.Some? <==> given.Some?
      requires given.Some? ==> given.value.loginHint == g0.value.loginHint
      requires var e := Spec.EffectiveParameters(g0, s0);
               Snapshot(effective) == e.(extraQueryParameters := Spec.StripDomainHint(e.extraQueryParameters))
      modifies this`authenticationState, this`error, this`accountInfo, this`log, this`requests
      ensures var r := Spec.AcquireToken(acc, kind, g0, s0, options, lib);
              Follows(log0, requests0, r.effect) && outcome == r.outcome
    {
      Ask(AcquireTokenSilentRequest(silentParams), log0, requests0, acc);
      ghost var a := Spec.Ask(acc, AcquireTokenSilentRequest(silentParams));
      match lib.acquireTokenSilent {
        case Ok(resp) =>
          var _ := SetAccountInfo(resp, log0, requests0, a);
          var _ := SetAuthenticationState(Authenticated, log0, requests0, Spec.SetAccountInfo(a, resp));
          outcome := Token(resp);
        case Err(e) =>
          var loginParams := Snapshot(effective);
          if kind == Spec.ForIdToken && lib.account.Some? && (given.None? || !Spec.Truthy(given.value.loginHint)) {
            loginParams := loginParams.(loginHint := Some(lib.account.value.userName));
          }
          assert loginParams == Spec.FallbackParameters(kind, g0, s0, lib.account);
          outcome := LoginToRefreshToken(e, loginParams, lib, log0, requests0, a);
      }
    }

    /** `delete extraQueryParameters.domain_hint` when the hint is truthy. */
    static method RemoveDomainHint(extra: Option<QueryParameters>)
      modifies if extra.Some? then {extra.value} else {}
      ensures extra.Some? ==> extra.value.entries == Spec.StripDomainHint(old(Some(extra.value.entries))).value
    {
      if extra.Some? {
        var q := extra.value;
        if Spec.DomainHintKey in q.entries && q.entries[Spec.DomainHintKey] != "" {
          q.entries := q.entries - {Spec.DomainHintKey};
        }
      }
    }

    /** The silent-refresh parameters are the stripped effective parameters with the refresh URI and scopes. */
    static lemma RefreshParametersAfterStrip(kind: Spec.TokenRequest, given: Option<RequestParameters>,
                                             stored: RequestParameters, options: ProviderOptions, clientId: string)
      ensures var e := Spec.EffectiveParameters(given, stored);
              Spec.RefreshParameters(kind, given, stored, options, clientId)
              == e.(extraQueryParameters := Spec.StripDomainHint(e.extraQueryParameters),
                    redirectUri := if given.Some? && Spec.Truthy(given.value.redirectUri) then given.value.redirectUri
                                   else options.tokenRefreshUri,
                    scopes := if kind == Spec.ForIdToken then Some([clientId]) else e.scopes)
    {
    }

    method GetAccessToken(given: Option<AuthenticationParameters>, lib: Library) returns (outcome: TokenOutcome)
      modifies this`authenticationState, this`error, this`accountInfo, this`log, this`requests
      modifies if given.Some? then ObjectsOf(given.value) else ObjectsOf(parameters)
      ensures var r := Spec.AcquireToken(Spec.Start(old(View())), Spec.ForAccessToken, old(SnapshotOf(given)),
                                         old(Snapshot(parameters)), options, lib);
              Follows(old(log), old(requests), r.effect) && outcome == r.outcome
      ensures var effective := if given.Some? then given.value else parameters;
              Snapshot(effective).extraQueryParameters
              == Spec.StripDomainHint(old(Snapshot(effective).extraQueryParameters))
    {
      Begin();
      outcome := AcquireToken(Spec.ForAccessToken, given, lib, log, requests, Spec.Start(View()));
    }

    method GetIdToken(given: Option<AuthenticationParameters>, lib: Library) returns (outcome: TokenOutcome)
      modifies this`authenticationState, this`error, this`accountInfo, this`log, this`requests
      modifies if given.Some? then ObjectsOf(given.value) else ObjectsOf(parameters)
      ensures var r := Spec.AcquireToken(Spec.Start(old(View())), Spec.ForIdToken, old(SnapshotOf(given)),
                                         old(Snapshot(parameters)), options, lib);
              Follows(old(log), old(requests), r.effect) && outcome == r.outcome
      ensures var effective := if given.Some? then given.value else parameters;
              Snapshot(effective).extraQueryParameters
              == Spec.StripDomainHint(old(Snapshot(effective).extraQueryParameters))
    {
      Begin();
      outcome := AcquireToken(Spec.ForIdToken, given, lib, log, requests, Spec.Start(View()));
    }

    /** The start of an operation: nothing sent and nothing asked yet. */
    lemma Begin()
      ensures Follows(log, requests, Spec.Start(View()))
    {
      ExtendsNothing(log, Registered());
      assert requests == requests + [];
    }

    // Reconciliation and login (lines 72-108, 324-363)

    /** `processLogin`. */
    method ProcessLogin(lib: Library, ghost log0: seq<Notification>, ghost requests0: seq<LibraryRequest>,
                        ghost acc: Spec.Effect)
      requires Follows(log0, requests0, acc)
      modifies this`authenticationState, this`error, this`accountInfo, this`log, this`requests, ObjectsOf(parameters)
      ensures Follows(log0, requests0, Spec.ProcessLogin(acc, old(Snapshot(parameters)), options, lib))
      ensures StoredExtra() == if Spec.RefreshesIdToken(acc.core, lib) then Spec.StripDomainHint(old(StoredExtra()))
                               else old(StoredExtra())
    {
      if error.Some? {
        var _ := SetAuthenticationState(Unauthenticated, log0, requests0, acc);
      } else if lib.account.Some? {
        var outcome := AcquireToken(Spec.ForIdToken, None, lib, log0, requests0, acc);
        ghost var inner := Spec.AcquireToken(acc, Spec.ForIdToken, None, old(Snapshot(parameters)), options, lib);
        if outcome.Failed? {
          ghost var b := inner.effect;
          if !Spec.IsUserLoginError(outcome.error) {
            SetError(Some(outcome.error), log0, requests0, inner.effect);
            b := Spec.SetError(inner.effect, Some(outcome.error));
          }
          var _ := SetAuthenticationState(Unauthenticated, log0, requests0, b);
        }
      } else if lib.loginInProgress {
        var _ := SetAuthenticationState(InProgress, log0, requests0, acc);
      } else {
        var _ := SetAuthenticationState(Unauthenticated, log0, requests0, acc);
      }
    }

    /** The start of `login`: clear the stored error unless it is `block_token_requests`. */
    method ClearErrorForLogin(ghost log0: seq<Notification>, ghost requests0: seq<LibraryRequest>, ghost acc: Spec.Effect)
      requires Follows(log0, requests0, acc)
      modifies this`error, this`log
      ensures Follows(log0, requests0, Spec.ClearErrorForLogin(acc))
    {
      if error.Some? && error.value.errorCode != "block_token_requests" {
        SetError(None, log0, requests0, acc);
      }
    }

    /** `login` in popup mode, before the `processLogin` that follows the popup. */
    method PopupLogin(params: AuthenticationParameters, lib: Library, ghost log0: seq<Notification>,
                      ghost requests0: seq<LibraryRequest>, ghost acc: Spec.Effect, ghost given: Option<RequestParameters>,
                      ghost stored: RequestParameters)
      requires Follows(log0, requests0, acc)
      requires Snapshot(params) == Spec.EffectiveParameters(given, stored)
      modifies this`authenticationState, this`error, this`log, this`requests
      ensures Follows(log0, requests0, Spec.PopupLogin(acc, given, stored, lib))
    {
      ClearErrorForLogin(log0, requests0, acc);
      ghost var a := Spec.ClearErrorForLogin(acc);
      var _ := SetAuthenticationState(InProgress, log0, requests0, a);
      ghost var b := Spec.SetAuthenticationState(a, InProgress);
      Ask(LoginPopupRequest(Snapshot(params)), log0, requests0, b);
      ghost var d := Spec.Ask(b, LoginPopupRequest(Snapshot(params)));
      if lib.loginPopup.Err? {
        SetError(Some(lib.loginPopup.error), log0, requests0, d);
        var _ := SetAuthenticationState(Unauthenticated, log0, requests0, Spec.SetError(d, Some(lib.loginPopup.error)));
      }
    }

    /** `login` in redirect mode: no reconciliation follows. */
    method RedirectLogin(params: AuthenticationParameters, lib: Library, ghost log0: seq<Notification>,
                         ghost requests0: seq<LibraryRequest>, ghost acc: Spec.Effect, ghost given: Option<RequestParameters>,
                         ghost stored: RequestParameters)
      requires Follows(log0, requests0, acc)
      requires Snapshot(params) == Spec.EffectiveParameters(given, stored)
      modifies this`authenticationState, this`error, this`log, this`requests
      ensures Follows(log0, requests0, Spec.RedirectLogin(acc, given, stored, lib))
    {
      ClearErrorForLogin(log0, requests0, acc);
      ghost var a := Spec.ClearErrorForLogin(acc);
      var _ := SetAuthenticationState(InProgress, log0, requests0, a);
      ghost var b := Spec.SetAuthenticationState(a, InProgress);
      Ask(LoginRedirectRequest(Snapshot(params)), log0, requests0, b);
      ghost var d := Spec.Ask(b, LoginRedirectRequest(Snapshot(params)));
      if lib.loginRedirect.Some? {
        SetError(lib.loginRedirect, log0, requests0, d);
        var _ := SetAuthenticationState(Unauthenticated, log0, requests0, Spec.SetError(d, lib.loginRedirect));
      }
    }

    /** `login`. */
    method Login(given: Option<AuthenticationParameters>, lib: Library)
      modifies this`authenticationState, this`error, this`accountInfo, this`log, this`requests, ObjectsOf(parameters)
      ensures Follows(old(log), old(requests),
                      Spec.Login(Spec.Start(old(View())), old(SnapshotOf(given)), old(Snapshot(parameters)), options, lib))
      ensures StoredExtra() ==
                if options.loginType == Popup
                   && Spec.RefreshesIdToken(Spec.PopupLogin(Spec.Start(old(View())), old(SnapshotOf(given)),
                                                            old(Snapshot(parameters)), lib).core, lib)
                then Spec.StripDomainHint(old(StoredExtra()))
                else old(StoredExtra())
    {
      var params := if given.Some? then given.value else parameters;
      ghost var log0, requests0, acc := log, requests, Spec.Start(View());
      ghost var g0, s0 := SnapshotOf(given), Snapshot(parameters);
      Begin();
      if options.loginType == Redirect {
        RedirectLogin(params, lib, log0, requests0, acc, g0, s0);
      } else {
        PopupLogin(params, lib, log0, requests0, acc, g0, s0);
        ProcessLogin(lib, log0, requests0, Spec.PopupLogin(acc, g0, s0, lib));
      }
    }

    /** `initializeProvider` up to its `await`: signal `InProgress`, then reconcile. */
    method InitializeProvider(lib: Library)
      modifies this`authenticationState, this`error, this`accountInfo, this`log, this`requests, ObjectsOf(parameters)
      ensures Follows(old(log), old(requests),
                      Spec.InitializeProvider(Spec.Start(old(View())), old(Snapshot(parameters)), options, lib))
      ensures StoredExtra() == if Spec.RefreshesIdToken(old(View()), lib) then Spec.StripDomainHint(old(StoredExtra()))
                               else old(StoredExtra())
    {
      ghost var log0, requests0, acc := log, requests, Spec.Start(View());
      Begin();
      SetInitState(InitInProgress, log0, requests0, acc);
      ProcessLogin(lib, log0, requests0, Spec.SetInitState(acc, InitInProgress));
    }

    /** The continuation of `initializeProvider` once `processLogin` has settled: signal `Completed`. */
    method CompleteInitialization()
      modifies this`log
      ensures Follows(old(log), old(requests), Spec.CompleteInitialization(Spec.Start(old(View()))))
    {
      Begin();
      SetInitState(InitCompleted, log, requests, Spec.Start(View()));
    }

    /** `authenticationRedirectCallback`, which the library calls when a redirect completes. */
    method AuthenticationRedirectCallback(reported: Option<AuthError>, lib: Library)
      modifies this`authenticationState, this`error, this`accountInfo, this`log, this`requests, ObjectsOf(parameters)
      ensures Follows(old(log), old(requests),
                      Spec.RedirectCallback(Spec.Start(old(View())), reported, old(Snapshot(parameters)), options, lib))
    {
      ghost var log0, requests0, acc := log, requests, Spec.Start(View());
      Begin();
      ghost var a := acc;
      if reported.Some? {
        SetError(reported, log0, requests0, acc);
        a := Spec.SetError(acc, reported);
      }
      ProcessLogin(lib, log0, requests0, a);
    }
  }
}
