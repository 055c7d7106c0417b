/**
 * The client half of the next-auth style session hook
 * (lib/MsalAuth/client.ts): `getSession`, which fetches the session from the
 * server and tells other windows about it, and `_getSession`, which decides
 * whether the cached session is fresh enough to skip that fetch and
 * otherwise refreshes the shared `__NEXTAUTH` record and the hook's state.
 * The server and the other windows are the logs `fetches` and `messages`;
 * the clock and the server's reply are parameters.
 */
module NextAuthClient {
  import opened AuthTypes

  /** `__NEXTAUTH._clientSession` and the hook's `data`: not yet known (`undefined`), no session (`null`), or a session. */
  datatype SessionValue = Undefined | Null | Present(data: string)

  /** The part of an incoming HTTP request that `getSession` forwards: its cookie header. */
  datatype Request = Request(cookie: Option<string>)

  /** The `appContext` of `getInitialProps`, which may carry a request. */
  datatype Context = Context(req: Option<Request>)

  /** The options `getSession` passes to the fetch: the request's cookie header, or nothing. */
  datatype FetchOptions = CookieHeader(cookie: Option<string>) | NoHeaders

  /** The `{ event: 'session', data: { trigger: 'getSession' } }` message sent to other windows. */
  datatype Message = SessionMessage(trigger: string)

  /** The server's reply to one fetch: the session value, or a thrown error. */
  datatype FetchReply = Fetched(session: SessionValue) | FetchFailed

  /** The request `getSession` uses: `ctx.req` takes the place of a missing `req`. */
  function ResolveRequest(req: Option<Request>, ctx: Option<Context>): (r: Option<Request>)
    ensures req.Some? ==> r == req
    ensures req.None? ==> r == (if ctx.Some? then ctx.value.req else None)
  {
    if req.None? && ctx.Some? && ctx.value.req.Some? then ctx.value.req else req
  }

  /** The fetch options for a resolved request. */
  function FetchOptionsFor(req: Option<Request>): (o: FetchOptions)
    ensures o.CookieHeader? <==> req.Some?
    ensures req.Some? ==> o.cookie == req.value.cookie
  {
    match req
    case Some(r) => CookieHeader(r.cookie)
    case None => NoHeaders
  }

  /** `Math.floor(new Date().getTime() / 1000)`: the clock in whole seconds. */
  function Seconds(millis: int): (s: int)
    ensures s * 1000 <= millis < s * 1000 + 1000
  {
    millis / 1000
  }

  /** A `_getSession` call is triggered by an event when its `event` argument is not `null`. */
  predicate TriggeredByEvent(event: Option<string>)
  {
    event.Some?
  }

  /** `!!(event && event === 'storage')`: the event came from another window's storage write. */
  predicate TriggeredByStorageEvent(event: Option<string>)
  {
    event == Some("storage")
  }

  /**
   * Whether `_getSession` returns without fetching. A storage event, or no
   * cached session at all, always fetches; otherwise the call skips when no
   * maximum age is set and no event triggered it, when a maximum age is set
   * and the cache says there is no session, or when a maximum age is set and
   * the last sync is younger than it. An unparsable last sync (`NaN`, here
   * `None`) is never younger.
   */
  function Skips(event: Option<string>, clientMaxAge: int, lastSync: Option<int>, now: int, cached: SessionValue): (b: bool)
    ensures TriggeredByStorageEvent(event) || cached == Undefined ==> !b
    ensures clientMaxAge == 0 && cached != Undefined ==> (b <==> !TriggeredByEvent(event))
    ensures clientMaxAge < 0 ==> !b
    ensures clientMaxAge > 0 && cached == Null && !TriggeredByStorageEvent(event) ==> b
    ensures lastSync.None? && cached != Null ==> (b <==> clientMaxAge == 0 && !TriggeredByEvent(event) && cached != Undefined)
  {
    && !TriggeredByStorageEvent(event)
    && cached != Undefined
    && ((clientMaxAge == 0 && !TriggeredByEvent(event))
        || (clientMaxAge > 0 && cached == Null)
        || (clientMaxAge > 0 && lastSync.Some? && now < lastSync.value + clientMaxAge))
  }

  /**
   * The shared `__NEXTAUTH` record, together with the traffic the client
   * produces: the fetches sent to the session endpoint and the messages sent
   * to other windows.
   */
  class NextAuth {
    const clientMaxAge: int
    /** `parseInt(__NEXTAUTH._clientLastSync)`, `None` where that is `NaN`. */
    var clientLastSync: Option<int>
    var clientSession: SessionValue
    var fetches: seq<FetchOptions>
    var messages: seq<Message>

    constructor (clientMaxAge: int, clientLastSync: Option<int>, clientSession: SessionValue)
      ensures this.clientMaxAge == clientMaxAge && this.clientLastSync == clientLastSync
      ensures this.clientSession == clientSession && fetches == [] && messages == []
    {
      this.clientMaxAge := clientMaxAge;
      this.clientLastSync := clientLastSync;
      this.clientSession := clientSession;
      fetches := [];
      messages := [];
    }

    /**
     * `getSession`: fetch the session, forwarding the cookie of the request
     * (or of the context's request), then, if asked to, tell the other
     * windows. A failed fetch throws before any message is sent.
     */
    method GetSession(req: Option<Request>, ctx: Option<Context>, triggerEvent: bool, reply: FetchReply)
      returns (r: FetchReply)
      modifies this`fetches, this`messages
      ensures fetches == old(fetches) + [FetchOptionsFor(ResolveRequest(req, ctx))]
      ensures messages == old(messages) + (if reply.Fetched? && triggerEvent then [SessionMessage("getSession")] else [])
      ensures r == reply
    {
      var options := FetchOptionsFor(ResolveRequest(req, ctx));
      fetches := fetches + [options];
      if reply.FetchFailed? {
        return FetchFailed;
      }
      if triggerEvent {
        messages := messages + [SessionMessage("getSession")];
      }
      r := reply;
    }
  }

  /** The state of one `_useSessionHook`: `data` and `loading`, and the shared record it reads and writes. */
  class SessionHook {
    var data: SessionValue
    var loading: bool
    const nextAuth: NextAuth

    constructor (session: SessionValue, nextAuth: NextAuth)
      ensures data == session && loading && this.nextAuth == nextAuth
    {
      data := session;
      loading := true;
      this.nextAuth := nextAuth;
    }

    /**
     * `_getSession`. `nowMillis` is the clock read for the freshness
     * decision and `syncMillis` the later read stored as the last sync;
     * `reply` is the server's answer.
     */
    method Refresh(event: Option<string>, nowMillis: int, syncMillis: int, reply: FetchReply)
      modifies this`data, this`loading, nextAuth`clientLastSync, nextAuth`clientSession,
               nextAuth`fetches, nextAuth`messages
      ensures var env := nextAuth;
              Skips(event, env.clientMaxAge, old(env.clientLastSync), Seconds(nowMillis), old(env.clientSession)) ==>
                && env.clientLastSync == old(env.clientLastSync) && env.clientSession == old(env.clientSession)
                && env.fetches == old(env.fetches) && env.messages == old(env.messages)
                && data == old(data) && loading == old(loading)
      ensures var env := nextAuth;
              !Skips(event, env.clientMaxAge, old(env.clientLastSync), Seconds(nowMillis), old(env.clientSession)) ==>
                && env.clientLastSync == Some(Seconds(syncMillis))
                && env.fetches == old(env.fetches) + [NoHeaders]
                && env.messages == old(env.messages)
                     + (if reply.Fetched? && !TriggeredByStorageEvent(event) then [SessionMessage("getSession")] else [])
                && (reply.Fetched? ==> env.clientSession == reply.session && data == reply.session && !loading)
                && (reply.FetchFailed? ==>
                      && env.clientSession == (if old(env.clientSession) == Undefined then Null else old(env.clientSession))
                      && data == old(data) && loading == old(loading))
    {
      var triggeredByEvent := event.Some?;
      var triggeredByStorageEvent := event.Some? && event.value == "storage";
      var clientMaxAge := nextAuth.clientMaxAge;
      var clientLastSync := nextAuth.clientLastSync;
      var currentTime := nowMillis / 1000;
      var clientSession := nextAuth.clientSession;

      if !triggeredByStorageEvent && clientSession != Undefined {
        if clientMaxAge == 0 && !triggeredByEvent {
          return;
        } else if clientMaxAge > 0 && clientSession == Null {
          return;
        } else if clientMaxAge > 0 && clientLastSync.Some? && currentTime < clientLastSync.value + clientMaxAge {
          return;
        }
      }

      if clientSession == Undefined {
        nextAuth.clientSession := Null;
      }
      nextAuth.clientLastSync := Some(syncMillis / 1000);

      var triggerEvent := !triggeredByStorageEvent;
      var newClientSessionData := nextAuth.GetSession(None, None, triggerEvent, reply);
      if newClientSessionData.FetchFailed? {
        // the error is caught and logged; nothing more changes
        return;
      }
      nextAuth.clientSession := newClientSessionData.session;
      data := newClientSessionData.session;
      loading := false;
    }
  }

  /**
   * After a refresh that reached the server and brought back a known value,
   * with a maximum age set, every later call not triggered by a storage event
   * skips until the maximum age has passed since the sync.
   */
  lemma ThrottledAfterSync(event: Option<string>, clientMaxAge: int, syncMillis: int, laterMillis: int, fetched: SessionValue)
    requires clientMaxAge > 0 && fetched != Undefined && !TriggeredByStorageEvent(event)
    requires laterMillis < syncMillis + 1000 * clientMaxAge - 999
    ensures Skips(event, clientMaxAge, Some(Seconds(syncMillis)), Seconds(laterMillis), fetched)
  {
    assert Seconds(laterMillis) * 1000 <= laterMillis;
    assert syncMillis < Seconds(syncMillis) * 1000 + 1000;
  }
}
