/**
 * The session bridge of lib/auth/MsalAuth/client.ts: the reducer that keeps
 * the application's session record, the values `useSession` derives from it,
 * and the component that builds one provider and feeds its listener calls
 * into the reducer.
 *
 * The bridge registers one callback of each kind under `BridgeHandle`; a
 * callback call is a notification to that handle in the provider's log, and
 * `SessionStore.Forward` dispatches those notifications, in log order, as the
 * callbacks would.
 */
module SessionBridge {
  import opened AuthTypes
  import opened Listeners
  import Spec = ProviderSpec
  import Provider

  /** `AuthenticationProviderState` (lib/MsalAuth/enums/AuthenticationProviderState.ts). */
  datatype AuthenticationProviderState = AuthenticationProviderState(
    isReady: bool,
    authenticationState: Option<AuthenticationState>,
    loading: bool,
    accountInfo: Option<AccountInfo>,
    error: Option<AuthError>,
    msalAuthProvider: Option<Provider.MsalAuthProvider>)

  /** `SessionAction` (lib/MsalAuth/enums/AuthenticationActions.ts), plus any other action type. */
  datatype SessionAction =
    | InitMsalProvider(provider: Provider.MsalAuthProvider)
    | AuthStateChange(state: Option<AuthenticationState>)
    | AccountInfoChange(accountInfo: Option<AccountInfo>)
    | ErrorChange(error: Option<AuthError>)
    | InitStateChange(initState: InitState)
    | OtherAction(actionType: string)

  /** `initialState`. */
  function InitialState(): (s: AuthenticationProviderState)
    ensures !s.isReady && !s.loading
    ensures s.authenticationState == Some(Unauthenticated)
    ensures s.accountInfo.None? && s.error.None? && s.msalAuthProvider.None?
  {
    AuthenticationProviderState(false, Some(Unauthenticated), false, None, None, None)
  }

  /** `sessionReducer`: each action replaces its own fields and keeps every other one. */
  function Reduce(s: AuthenticationProviderState, a: SessionAction): (r: AuthenticationProviderState)
    ensures a.InitMsalProvider? ==> r == s.(msalAuthProvider := Some(a.provider))
    ensures a.InitStateChange? ==> r == s.(isReady := a.initState == InitCompleted)
    ensures a.AuthStateChange? ==>
              r == s.(authenticationState := a.state, loading := a.state == Some(InProgress))
    ensures a.AccountInfoChange? ==> r == s.(accountInfo := a.accountInfo)
    ensures a.ErrorChange? ==> r == s.(error := a.error)
    ensures a.OtherAction? ==> r == s
  {
    match a
    case InitMsalProvider(p) => s.(msalAuthProvider := Some(p))
    case InitStateChange(i) => s.(isReady := i == InitCompleted)
    case AuthStateChange(st) => s.(authenticationState := st, loading := st == Some(InProgress))
    case AccountInfoChange(info) => s.(accountInfo := info)
    case ErrorChange(e) => s.(error := e)
    case OtherAction(_) => s
  }

  /** Every action, dispatched twice in a row, has the effect of dispatching it once. */
  lemma ReduceIdempotent(s: AuthenticationProviderState, a: SessionAction)
    ensures Reduce(Reduce(s, a), a) == Reduce(s, a)
  {
  }

  /** `loading` says exactly whether the state is `InProgress`. */
  ghost predicate LoadingConsistent(s: AuthenticationProviderState)
  {
    s.loading <==> s.authenticationState == Some(InProgress)
  }

  lemma ReduceKeepsLoadingConsistent(s: AuthenticationProviderState, a: SessionAction)
    ensures LoadingConsistent(s) ==> LoadingConsistent(Reduce(s, a))
  {
  }

  /** `isReady` follows the latest init signal, so a later non-`Completed` signal turns it off again. */
  lemma ReadyFollowsLatestInit(s: AuthenticationProviderState, i: InitState, j: InitState)
    ensures Reduce(Reduce(s, InitStateChange(i)), InitStateChange(j)).isReady <==> j == InitCompleted
  {
  }

  // What `useSession` derives

  datatype SessionView = SessionView(isAuthenticated: bool, loading: bool, isReady: bool)

  /** The flags of `useSession`. */
  function UseSession(s: AuthenticationProviderState): (v: SessionView)
    ensures v.isAuthenticated <==> s.authenticationState == Some(Authenticated)
    ensures v.loading == s.loading && v.isReady == s.isReady
  {
    SessionView(s.authenticationState == Some(Authenticated), s.loading, s.isReady)
  }

  /** A consistent session is never both loading and authenticated. */
  lemma NotLoadingWhenAuthenticated(s: AuthenticationProviderState)
    requires LoadingConsistent(s)
    ensures !(UseSession(s).loading && UseSession(s).isAuthenticated)
  {
  }

  /** What the `getAccessToken` of `useSession` hands back. */
  datatype AccessTokenResult = Granted(token: string) | Rejection(error: AuthError) | NoToken

  /** Only the access-token string of a response; a rejection propagates; a redirect yields no token. */
  function AccessTokenOf(outcome: TokenOutcome): (r: AccessTokenResult)
    ensures outcome.Token? <==> r.Granted?
    ensures outcome.Token? ==> r.token == outcome.response.accessToken
    ensures outcome.Failed? <==> r.Rejection?
    ensures outcome.Failed? ==> r.error == outcome.error
  {
    match outcome
    case Token(resp) => Granted(resp.accessToken)
    case Failed(e) => Rejection(e)
    case Redirecting => NoToken
  }

  // Listener calls as actions

  /** The action each of the bridge's callbacks dispatches for the value it is called with. */
  function ActionOf(p: Payload): (a: SessionAction)
    ensures !a.InitMsalProvider? && !a.OtherAction?
  {
    match p
    case StateValue(s) => AuthStateChange(s)
    case AccountInfoValue(i) => AccountInfoChange(i)
    case ErrorValue(e) => ErrorChange(e)
    case InitValue(i) => InitStateChange(i)
  }

  /** The session after the callbacks are called with `ps`, one after another. */
  function ReducePayloads(s: AuthenticationProviderState, ps: seq<Payload>): (r: AuthenticationProviderState)
    ensures r.msalAuthProvider == s.msalAuthProvider
    ensures LoadingConsistent(s) ==> LoadingConsistent(r)
    decreases |ps|
  {
    if ps == [] then s
    else
      var prior := ReducePayloads(s, ps[..|ps| - 1]);
      ReduceKeepsLoadingConsistent(prior, ActionOf(ps[|ps| - 1]));
      Reduce(prior, ActionOf(ps[|ps| - 1]))
  }

  lemma ReducePayloadsSingle(s: AuthenticationProviderState, p: Payload)
    ensures ReducePayloads(s, [p]) == Reduce(s, ActionOf(p))
  {
    assert [p][..0] == [];
  }

  /** The session mirrors the provider's state, error and account record. */
  ghost predicate Mirrors(s: AuthenticationProviderState, c: Spec.Core)
  {
    s.authenticationState == c.state && s.error == c.error && s.accountInfo == c.accountInfo
  }

  /** Feeding the broadcast values to the callbacks rebuilds the provider's core from the old one. */
  lemma {:induction false} ReducePayloadsMirrors(s: AuthenticationProviderState, c: Spec.Core, ps: seq<Payload>)
    requires Mirrors(s, c)
    ensures Mirrors(ReducePayloads(s, ps), Spec.Replay(c, ps))
    decreases |ps|
  {
    if ps != [] {
      var init, last := ps[..|ps| - 1], ps[|ps| - 1];
      ReducePayloadsMirrors(s, c, init);
      assert ps == init + [last];
      Spec.ReplayAppend(c, init, [last]);
      assert Spec.Replay(Spec.Replay(c, init), [last]) == Spec.Apply(Spec.Replay(c, init), last);
    }
  }

  /** Values that hold no init signal leave `isReady` alone. */
  lemma {:induction false} ReducePayloadsKeepsReady(s: AuthenticationProviderState, ps: seq<Payload>)
    requires forall i | 0 <= i < |ps| :: !ps[i].InitValue?
    ensures ReducePayloads(s, ps).isReady == s.isReady
    decreases |ps|
  {
    if ps != [] {
      ReducePayloadsKeepsReady(s, ps[..|ps| - 1]);
    }
  }

  /**
   * After a provider operation whose broadcasts reached the bridge, the
   * session mirrors the provider's new core.
   */
  lemma AfterOperation(s: AuthenticationProviderState, v0: Spec.Core, e: Spec.Effect,
                       d: seq<Notification>, reg: Registry)
    requires Mirrors(s, v0)
    requires Spec.Announced(Spec.Start(v0), e)
    requires Delivered(d, e.sent, reg)
    requires BridgeHandle in reg.state && BridgeHandle in reg.accountInfo
    requires BridgeHandle in reg.error && BridgeHandle in reg.init
    ensures Mirrors(ReducePayloads(s, Seen(d, BridgeHandle)), e.core)
  {
    SeenDelivered(d, e.sent, reg, BridgeHandle);
    assert e.sent[|Spec.Start(v0).sent|..] == e.sent;
    ReducePayloadsMirrors(s, v0, e.sent);
  }

  /** The `Completed` signal reaching the bridge makes the session ready and changes nothing else. */
  lemma AfterCompletion(s: AuthenticationProviderState, d: seq<Notification>, reg: Registry)
    requires Delivered(d, [InitValue(InitCompleted)], reg)
    requires BridgeHandle in reg.state && BridgeHandle in reg.accountInfo
    requires BridgeHandle in reg.error && BridgeHandle in reg.init
    ensures ReducePayloads(s, Seen(d, BridgeHandle)) == s.(isReady := true)
  {
    SeenDelivered(d, [InitValue(InitCompleted)], reg, BridgeHandle);
    ReducePayloadsSingle(s, InitValue(InitCompleted));
  }

  /** The three values replayed on registration bring the session in line with the provider and keep `isReady`. */
  lemma ReplaysMirror(s: AuthenticationProviderState, c: Spec.Core)
    ensures var r := ReducePayloads(s, [AccountInfoValue(c.accountInfo), StateValue(c.state), ErrorValue(c.error)]);
            Mirrors(r, c) && r.isReady == s.isReady
  {
    var ps := [AccountInfoValue(c.accountInfo), StateValue(c.state), ErrorValue(c.error)];
    assert ps[..2] == [ps[0], ps[1]];
    assert ps[..2][..1] == [ps[0]];
    assert [ps[0]][..0] == [];
    assert ReducePayloads(s, [ps[0]]) == Reduce(s, ActionOf(ps[0]));
    assert ReducePayloads(s, ps[..2]) == Reduce(Reduce(s, ActionOf(ps[0])), ActionOf(ps[1]));
    assert ReducePayloads(s, ps) == Reduce(Reduce(Reduce(s, ActionOf(ps[0])), ActionOf(ps[1])), ActionOf(ps[2]));
  }

  /** The handle under which the bridge registers its four callbacks. */
  const BridgeHandle: Handle := Handle(0)

  /** The `useReducer` state of the `Provider` component, and the provider it builds. */
  class SessionStore {
    var session: AuthenticationProviderState
    /** How much of the provider's listener log has been dispatched. */
    var forwarded: nat

    ghost predicate Valid()
      reads this, if session.msalAuthProvider.Some? then {session.msalAuthProvider.value} else {}
    {
      && LoadingConsistent(session)
      && (session.msalAuthProvider.Some? ==>
            var p := session.msalAuthProvider.value;
            && BridgeHandle in p.stateHandlers && BridgeHandle in p.accountInfoHandlers
            && BridgeHandle in p.errorHandlers && BridgeHandle in p.initHandlers
            && forwarded == |p.log|
            && Mirrors(session, p.View()))
    }

    constructor ()
      ensures session == InitialState() && Valid()
    {
      session := InitialState();
      forwarded := 0;
    }

    method Dispatch(a: SessionAction)
      modifies this`session
      ensures session == Reduce(old(session), a)
    {
      session := Reduce(session, a);
    }

    /** Dispatch every callback call the provider has made since the last forward. */
    method Forward()
      requires session.msalAuthProvider.Some?
      requires forwarded <= |session.msalAuthProvider.value.log|
      modifies this`session, this`forwarded
      ensures var p := old(session.msalAuthProvider.value);
              && session == ReducePayloads(old(session), Seen(p.log[old(forwarded)..], BridgeHandle))
              && forwarded == |p.log|
    {
      var p := session.msalAuthProvider.value;
      ghost var s0, f0 := session, forwarded;
      while forwarded < |p.log|
        invariant f0 <= forwarded <= |p.log|
        invariant session == ReducePayloads(s0, Seen(p.log[f0..forwarded], BridgeHandle))
        decreases |p.log| - forwarded
      {
        var n := p.log[forwarded];
        ghost var before := Seen(p.log[f0..forwarded], BridgeHandle);
        assert p.log[f0..forwarded + 1] == p.log[f0..forwarded] + [n];
        SeenAppend(p.log[f0..forwarded], [n], BridgeHandle);
        assert Seen([n], BridgeHandle) == (if n.handle == BridgeHandle then [n.payload] else []) + Seen([], BridgeHandle);
        if n.handle == BridgeHandle {
          assert (before + [n.payload])[..|before|] == before;
          Dispatch(ActionOf(n.payload));
        } else {
          assert before + [] == before;
        }
        forwarded := forwarded + 1;
      }
      assert p.log[f0..forwarded] == p.log[f0..];
    }

    /**
     * The `useEffect` of `Provider`: only when the session holds no provider,
     * build one, register the four callbacks (each but the init callback is
     * called at once with the current value), and store the provider.
     */
    method Mount(params: AuthenticationParameters, opts: Option<ProviderOptions>, origin: string, lib: Library)
      requires Valid()
      modifies this`session, this`forwarded, ObjectsOf(params)
      ensures Valid()
      ensures old(session.msalAuthProvider).Some? ==> session == old(session) && forwarded == old(forwarded)
      ensures old(session.msalAuthProvider).None? ==>
                && session.msalAuthProvider.Some? && fresh(session.msalAuthProvider.value)
                && session.isReady == old(session.isReady)
                && var p := session.msalAuthProvider.value;
                   && p.Registered() == Registry({BridgeHandle}, {BridgeHandle}, {BridgeHandle}, {BridgeHandle})
                   && Mirrors(session, Spec.InitializeProvider(Spec.Start(Spec.Core(None, None, None)),
                                                               old(Snapshot(params)), p.options, lib).core)
    {
      if session.msalAuthProvider.Some? {
        return;
      }
      var p := new Provider.MsalAuthProvider(params, opts, origin, lib);
      Attach(p);
    }

    /**
     * The rest of that `useEffect`: register the four callbacks on a provider
     * nobody listens to yet, dispatch the values the registrations replay,
     * and store the provider in the session.
     */
    method Attach(p: Provider.MsalAuthProvider)
      requires Valid() && session.msalAuthProvider.None?
      requires p.Registered() == Registry({}, {}, {}, {}) && p.log == []
      modifies this`session, this`forwarded,
               p`stateHandlers, p`accountInfoHandlers, p`errorHandlers, p`initHandlers, p`log
      ensures Valid() && session.msalAuthProvider == Some(p) && session.isReady == old(session.isReady)
      ensures p.Registered() == Registry({BridgeHandle}, {BridgeHandle}, {BridgeHandle}, {BridgeHandle})
      ensures Mirrors(session, p.View())
    {
      p.RegisterAccountInfoHandler(BridgeHandle);
      p.RegisterAuthenticationStateHandler(BridgeHandle);
      p.RegisterErrorHandler(BridgeHandle);
      p.RegisterInitInfoHandler(BridgeHandle);
      ghost var c := p.View();
      ghost var replays := [AccountInfoValue(c.accountInfo), StateValue(c.state), ErrorValue(c.error)];
      SeenOnly(p.log, BridgeHandle);
      assert Seen(p.log, BridgeHandle) == replays;
      ghost var s0 := session;
      session := session.(msalAuthProvider := Some(p));
      forwarded := 0;
      assert p.log[0..] == p.log;
      Forward();
      ReplaysMirror(s0.(msalAuthProvider := Some(p)), c);
      Dispatch(InitMsalProvider(p));
    }

    /** `signIn` of `useSession`: `login()` with the stored parameters. */
    method SignIn(lib: Library)
      requires Valid() && session.msalAuthProvider.Some?
      modifies this`session, this`forwarded, session.msalAuthProvider.value,
               ObjectsOf(session.msalAuthProvider.value.parameters)
      ensures Valid() && session.msalAuthProvider == old(session.msalAuthProvider)
      ensures var p := session.msalAuthProvider.value;
              Mirrors(session, Spec.Login(Spec.Start(old(p.View())), None, old(Snapshot(p.parameters)), p.options, lib).core)
    {
      var p := session.msalAuthProvider.value;
      ghost var s0, v0, log0 := session, p.View(), p.log;
      p.Login(None, lib);
      Forward();
      ghost var e := Spec.Login(Spec.Start(v0), None, old(Snapshot(p.parameters)), p.options, lib);
      assert Spec.Announced(Spec.Start(v0), e) by {
        Spec.LoginOutcome(Spec.Start(v0), None, old(Snapshot(p.parameters)), p.options, lib);
      }
      AfterOperation(s0, v0, e, p.log[|log0|..], p.Registered());
    }

    /** `getAccessToken` of `useSession`: ask the provider with only `scopes` set and hand back the token string. */
    method GetAccessToken(scopes: seq<string>, lib: Library) returns (r: AccessTokenResult)
      requires Valid() && session.msalAuthProvider.Some?
      modifies this`session, this`forwarded, session.msalAuthProvider.value
      ensures Valid() && session.msalAuthProvider == old(session.msalAuthProvider)
      ensures var p := session.msalAuthProvider.value;
              var e := Spec.AcquireToken(Spec.Start(old(p.View())), Spec.ForAccessToken,
                                         Some(RequestParameters(Some(scopes), None, None, None)),
                                         old(Snapshot(p.parameters)), p.options, lib);
              && r == AccessTokenOf(e.outcome)
              && Mirrors(session, e.effect.core)
    {
      var p := session.msalAuthProvider.value;
      ghost var s0, v0, log0 := session, p.View(), p.log;
      var given := AuthenticationParameters(Some(scopes), None, None, None);
      var outcome := p.GetAccessToken(Some(given), lib);
      Forward();
      ghost var e := Spec.AcquireToken(Spec.Start(v0), Spec.ForAccessToken, Some(Snapshot(given)),
                                       old(Snapshot(p.parameters)), p.options, lib);
      AfterOperation(s0, v0, e.effect, p.log[|log0|..], p.Registered());
      r := AccessTokenOf(outcome);
    }

    /** The end of `initializeProvider`: `Completed` reaches the init callback and the session becomes ready. */
    method FinishInitialization()
      requires Valid() && session.msalAuthProvider.Some?
      modifies this`session, this`forwarded, session.msalAuthProvider.value
      ensures Valid()
      ensures session == old(session).(isReady := true)
    {
      var p := session.msalAuthProvider.value;
      ghost var s0, log0 := session, p.log;
      p.CompleteInitialization();
      Forward();
      AfterCompletion(s0, p.log[|log0|..], p.Registered());
    }

    /** The library's redirect callback, as the bridge sees it. */
    method RedirectCompleted(reported: Option<AuthError>, lib: Library)
      requires Valid() && session.msalAuthProvider.Some?
      modifies this`session, this`forwarded, session.msalAuthProvider.value,
               ObjectsOf(session.msalAuthProvider.value.parameters)
      ensures Valid() && session.msalAuthProvider == old(session.msalAuthProvider)
      ensures var p := session.msalAuthProvider.value;
              Mirrors(session, Spec.RedirectCallback(Spec.Start(old(p.View())), reported, old(Snapshot(p.parameters)),
                                                     p.options, lib).core)
    {
      var p := session.msalAuthProvider.value;
      ghost var s0, v0, log0 := session, p.View(), p.log;
      p.AuthenticationRedirectCallback(reported, lib);
      Forward();
      ghost var e := Spec.RedirectCallback(Spec.Start(v0), reported, old(Snapshot(p.parameters)), p.options, lib);
      assert Spec.Announced(Spec.Start(v0), e) by {
        Spec.RedirectCallbackOutcome(Spec.Start(v0), reported, old(Snapshot(p.parameters)), p.options, lib);
      }
      AfterOperation(s0, v0, e, p.log[|log0|..], p.Registered());
    }
  }
}
