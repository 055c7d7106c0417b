/**
 * The values the authentication core works with: the enums of
 * lib/MsalAuth/enums, the records of lib/MsalAuth/interfaces, and the parts
 * of the identity library's (MSAL's) types that the core reads or writes.
 */
module AuthTypes {

  datatype Option<T> = None | Some(value: T)

  datatype AuthenticationState = Unauthenticated | InProgress | Authenticated

  /** The provider's initialisation signal; it is only ever broadcast, never stored. */
  datatype InitState = InitNotStarted | InitInProgress | InitCompleted

  datatype LoginType = Popup | Redirect

  /** `tokenType` of an identity-library response; any other value updates no token field. */
  datatype TokenType = IdToken | AccessToken | OtherTokenType

  /**
   * The error classes the core distinguishes: `InteractionRequiredAuthError`
   * (the `interaction_required` error of section 3.1.2.6 of OpenID Connect
   * Core 1.0), `ClientAuthError`, and every other `AuthError`.
   */
  datatype ErrorKind = InteractionRequired | ClientAuth | OtherAuth

  datatype AuthError = AuthError(kind: ErrorKind, errorCode: string, errorMessage: string)

  /** The account the identity library has cached for the signed-in user. */
  datatype Account = Account(homeAccountId: string, userName: string)

  datatype AuthResponse = AuthResponse(
    tokenType: TokenType,
    rawIdToken: string,
    accessToken: string,
    account: Account)

  /** `IAccountInfo`: the account plus the raw tokens obtained so far. */
  datatype AccountInfo = AccountInfo(
    account: Account,
    jwtIdToken: Option<string>,
    jwtAccessToken: Option<string>)

  datatype ProviderOptions = ProviderOptions(loginType: LoginType, tokenRefreshUri: Option<string>)

  /**
   * The `extraQueryParameters` dictionary of a parameter object. It is an
   * object of its own: spreading a parameter object copies the reference, so
   * deleting a key through one copy deletes it for every holder.
   */
  class QueryParameters {
    var entries: map<string, string>

    constructor (entries: map<string, string>)
      ensures this.entries == entries
    {
      this.entries := entries;
    }
  }

  /** `AuthenticationParameters` as the core holds them (the `login_hint` of section 3.1.2.1 of OpenID Connect Core 1.0 is `loginHint`). */
  datatype AuthenticationParameters = AuthenticationParameters(
    scopes: Option<seq<string>>,
    loginHint: Option<string>,
    redirectUri: Option<string>,
    extraQueryParameters: Option<QueryParameters>)

  /** A parameter set as the identity library sees it at the moment of a call. */
  datatype RequestParameters = RequestParameters(
    scopes: Option<seq<string>>,
    loginHint: Option<string>,
    redirectUri: Option<string>,
    extraQueryParameters: Option<map<string, string>>)

  function ObjectsOf(p: AuthenticationParameters): set<object>
  {
    if p.extraQueryParameters.Some? then {p.extraQueryParameters.value} else {}
  }

  function Snapshot(p: AuthenticationParameters): (r: RequestParameters)
    reads ObjectsOf(p)
    ensures r.extraQueryParameters.Some? <==> p.extraQueryParameters.Some?
  {
    RequestParameters(
      p.scopes, p.loginHint, p.redirectUri,
      if p.extraQueryParameters.Some? then Some(p.extraQueryParameters.value.entries) else None)
  }

  function SnapshotOf(given: Option<AuthenticationParameters>): (r: Option<RequestParameters>)
    reads if given.Some? then ObjectsOf(given.value) else {}
    ensures r.Some? <==> given.Some?
  {
    if given.Some? then Some(Snapshot(given.value)) else None
  }

  /** The calls the core makes into the identity library, with the parameters passed. */
  datatype LibraryRequest =
    | LoginPopupRequest(params: RequestParameters)
    | LoginRedirectRequest(params: RequestParameters)
    | AcquireTokenSilentRequest(params: RequestParameters)
    | AcquireTokenPopupRequest(params: RequestParameters)
    | AcquireTokenRedirectRequest(params: RequestParameters)
    | HandleRedirectCallbackRequest

  datatype Outcome<T> = Ok(value: T) | Err(error: AuthError)

  /**
   * What the identity library answers during one operation of the provider:
   * the configured client id, the cached account, the login-in-progress flag,
   * and the outcome of each interactive or silent call (a redirect login or
   * a redirect token request either starts or throws synchronously).
   */
  datatype Library = Library(
    clientId: string,
    account: Option<Account>,
    loginInProgress: bool,
    loginPopup: Outcome<AuthResponse>,
    loginRedirect: Option<AuthError>,
    acquireTokenSilent: Outcome<AuthResponse>,
    acquireTokenPopup: Outcome<AuthResponse>,
    acquireTokenRedirect: Option<AuthError>)

  /** How a token request ends: a response, a rejection, or a navigation away. */
  datatype TokenOutcome = Token(response: AuthResponse) | Failed(error: AuthError) | Redirecting

  // Listeners

  /** A registered callback, identified by an opaque handle. */
  datatype Handle = Handle(id: nat)

  datatype ListenerKind = StateListener | AccountInfoListener | ErrorListener | InitListener

  /** The value one callback is called with; its constructor says which kind of listener receives it. */
  datatype Payload =
    | StateValue(state: Option<AuthenticationState>)
    | AccountInfoValue(accountInfo: Option<AccountInfo>)
    | ErrorValue(error: Option<AuthError>)
    | InitValue(initState: InitState)
  {
    function Kind(): ListenerKind
    {
      match this
      case StateValue(_) => StateListener
      case AccountInfoValue(_) => AccountInfoListener
      case ErrorValue(_) => ErrorListener
      case InitValue(_) => InitListener
    }
  }

  /** One call of one listener. */
  datatype Notification = Notification(handle: Handle, payload: Payload)

  /** The four listener sets of a provider. */
  datatype Registry = Registry(
    state: set<Handle>,
    accountInfo: set<Handle>,
    error: set<Handle>,
    init: set<Handle>)
  {
    function Listeners(k: ListenerKind): set<Handle>
    {
      match k
      case StateListener => state
      case AccountInfoListener => accountInfo
      case ErrorListener => error
      case InitListener => init
    }
  }
}
