/**
 * The HTTP entry point of the server: the process-wide session registry, the
 * `POST /mcp` handler that reuses a session or opens one for an authenticated
 * initialize request, the `GET`/`DELETE /mcp` handler, the callbacks through
 * which a transport registers and deregisters itself, the central error
 * handler and the order in which middleware guards the routes.
 *
 * The SDK transport is reduced to what the router sees of it: its session id
 * and the identity-bound operations of the server connected to it. Whether a
 * body is an initialize request, the generated session id and whether the
 * SDK's initialize handshake reaches the point of assigning that id are
 * parameters. Responses are JSON-RPC 2.0 error objects with `id: null`
 * (section 5.1 of the JSON-RPC 2.0 specification) or plain text.
 */
module SessionRouter {
  import opened Wrappers
  import opened Js
  import opened Cognito
  import TokenVerifier

  const SessionHeader := "mcp-session-id"
  const GlucoseTool := "get_glucose_entries"
  const CarbTool := "add_carb_treatment"
  const CarbPrompt := "estimate-carbs"

  const UnauthorizedCode := -32001
  const BadRequestCode := -32000
  const UnauthorizedPrefix := "Unauthorized: "
  const NoValidSessionMessage := "Bad Request: No valid session ID provided"
  const InvalidSessionMessage := "Invalid or missing session ID"

  /**
   * The properties every plain object inherits from `Object.prototype`. The
   * registry is a plain object, so looking one of these up finds a truthy
   * value (a function, or the prototype itself) that is not a transport.
   */
  const ObjectPrototypeKeys: set<string> := {
    "constructor", "__proto__", "__defineGetter__", "__defineSetter__", "__lookupGetter__",
    "__lookupSetter__", "hasOwnProperty", "isPrototypeOf", "propertyIsEnumerable",
    "toLocaleString", "toString", "valueOf"}

  /** The `TypeError` thrown by calling `handleRequest` on an inherited property that has none. */
  const HandleRequestMissing := PlainError("transport.handleRequest is not a function")

  /** An inbound request: its (lower-cased) headers and its parsed JSON body. */
  datatype Request = Request(headers: map<string, string>, body: JsValue)

  /** What a handler does with the response. */
  datatype Reply =
    | RpcError(status: int, code: int, message: string)  // `{ jsonrpc: "2.0", error: { code, message }, id: null }`
    | PlainText(status: int, text: string)
    | Dispatched                                           // handed to the target transport's `handleRequest`
    | Thrown(error: ThrownError)                           // the handler's promise rejects with this error

  /** An operation registered on a session's server, with the identity it acts for. */
  datatype ToolBinding = ToolBinding(name: string, username: string)

  /** The operations every new session registers, each bound to the session's user. */
  function SessionTools(username: string): (tools: seq<ToolBinding>)
    ensures forall i | 0 <= i < |tools| :: tools[i].username == username
    ensures |tools| == 2 && tools[0].name == GlucoseTool && tools[1].name == CarbTool
  {
    [ToolBinding(GlucoseTool, username), ToolBinding(CarbTool, username)]
  }

  /** The `mcp-session-id` header, with "" for a missing one (both are falsy). */
  function SessionIdOf(req: Request): (sid: string)
    ensures SessionHeader !in req.headers ==> sid == ""
    ensures SessionHeader in req.headers ==> sid == req.headers[SessionHeader]
  {
    if SessionHeader in req.headers then req.headers[SessionHeader] else ""
  }

  /**
   * One session's transport together with the server connected to it. The
   * session id is assigned once, by the initialize handshake; the user and
   * the registered operations are fixed when it is created.
   */
  class Transport {
    var sessionId: Option<string>
    const username: string
    const tools: seq<ToolBinding>
    const prompts: seq<string>

    /** Its operations are the session's two tools and one prompt, all for its own user. */
    predicate Bound() {
      tools == SessionTools(username) && prompts == [CarbPrompt]
    }

    /** A transport for `username`, before any session id exists. */
    constructor (username: string)
      ensures sessionId == None && this.username == username && Bound()
    {
      sessionId := None;
      this.username := username;
      tools := SessionTools(username);
      prompts := [CarbPrompt];
    }
  }

  /** The registry after a transport that holds `sid` deletes its entry. */
  function Deregister(m: map<string, Transport>, sid: Option<string>): (r: map<string, Transport>)
    ensures sid.Some? ==> sid.value !in r
    ensures forall k :: k in r <==> k in m && sid != Some(k)
    ensures forall k | k in r :: r[k] == m[k]
  {
    if sid.Some? then m - {sid.value} else m
  }

  /** Closing twice leaves the registry as closing once did. */
  lemma DeregisterIdempotent(m: map<string, Transport>, sid: Option<string>)
    ensures Deregister(Deregister(m, sid), sid) == Deregister(m, sid)
  {
  }

  /**
   * The router with its registry. Each entry is the transport whose own
   * session id is the key, so two ids never share a transport, and every
   * registered transport keeps the operations it was created with.
   */
  class Router {
    const cfg: CognitoConfig
    const jwks: TokenVerifier.JwksCache
    var transports: map<string, Transport>

    ghost predicate Valid()
      reads this, jwks, transports.Values
    {
      && jwks.Valid()
      && forall id | id in transports ::
           id !in ObjectPrototypeKeys && transports[id].sessionId == Some(id) && transports[id].Bound()
    }

    constructor (cfg: CognitoConfig)
      ensures Valid() && this.cfg == cfg && transports == map[] && jwks.entries == map[]
    {
      this.cfg := cfg;
      jwks := new TokenVerifier.JwksCache();
      transports := map[];
    }

    /** The key-set cache after `getUsernameFromRequest`: one issuer lookup once the header parses. */
    ghost function LookupEntries(entries: map<string, TokenVerifier.KeySet>, req: Request): map<string, TokenVerifier.KeySet>
      reads this
    {
      if TokenVerifier.BearerToken(req.headers).Failure? then entries else TokenVerifier.AfterLookup(entries, cfg)
    }

    /** The user a registered session acts for. */
    function UserOf(sid: string): Option<string>
      reads this
    {
      if sid in transports then Some(transports[sid].username) else None
    }

    /**
     * `transports[sid]` is truthy: an own entry, or a property the registry
     * object inherits.
     */
    predicate Found(sid: string)
      reads this
    {
      sid in transports || sid in ObjectPrototypeKeys
    }

    /** Under the invariant a truthy lookup is either a registered session or an inherited property, never both. */
    lemma FoundIsRegisteredOrInherited(sid: string)
      requires Valid()
      ensures Found(sid) ==> (sid in transports <==> sid !in ObjectPrototypeKeys)
      ensures sid in ObjectPrototypeKeys ==> Found(sid) && sid !in transports
    {
    }

    /**
     * `handleSessionRequest` (GET and DELETE): a missing or unknown session
     * id is a plain 400; a registered one goes to its transport; an inherited
     * property passes the check and then fails as a transport.
     */
    method HandleSession(req: Request) returns (reply: Reply, target: Transport?)
      requires Valid()
      ensures var sid := SessionIdOf(req);
        (sid == "" || !Found(sid)) <==> reply == PlainText(400, InvalidSessionMessage)
      ensures var sid := SessionIdOf(req);
        sid in ObjectPrototypeKeys <==> reply == Thrown(HandleRequestMissing)
      ensures reply.Dispatched? <==> target != null
      ensures var sid := SessionIdOf(req);
        sid != "" && sid in transports ==>
          reply == Dispatched && target == transports[sid] && target.sessionId == Some(sid)
          && target.tools == SessionTools(target.username)
    {
      var sid := SessionIdOf(req);
      if sid == "" || !Found(sid) {
        return PlainText(400, InvalidSessionMessage), null;
      }
      if sid !in transports {
        return Thrown(HandleRequestMissing), null;
      }
      reply, target := Dispatched, transports[sid];
    }

    /**
     * `onsessioninitialized`: the transport now holds the generated id and
     * the registry maps that id to it.
     */
    method SessionInitialized(t: Transport, id: string)
      requires Valid() && t.Bound() && t.sessionId == None
      requires id !in ObjectPrototypeKeys
      modifies this, t
      ensures Valid()
      ensures t.sessionId == Some(id)
      ensures transports == old(transports)[id := t]
      ensures id !in old(transports) ==>
        forall k | k in old(transports) :: k in transports && transports[k] == old(transports)[k]
    {
      t.sessionId := Some(id);
      transports := transports[id := t];
    }

    /** `onclose`: the transport deletes the entry under its own id, if it has one. */
    method Close(t: Transport)
      requires Valid()
      modifies this
      ensures Valid()
      ensures transports == Deregister(old(transports), t.sessionId)
      ensures t !in transports.Values
    {
      if t.sessionId.Some? {
        transports := transports - {t.sessionId.value};
      }
    }

    /**
     * `mcpPostHandler`. A known session id reuses its transport without
     * authenticating again; no id and an initialize body authenticates and
     * creates a transport bound to the resolved user, registered once the
     * handshake assigns `freshId`; an inherited property of the registry
     * passes the lookup and then fails as a transport; anything else is a
     * JSON-RPC 400.
     */
    method Post(req: Request, isInitializeRequest: JsValue -> bool, jwtVerify: TokenVerifier.JwtVerifier,
                freshId: string, handshakeCompletes: bool)
      returns (reply: Reply, target: Transport?)
      requires Valid()
      requires freshId !in transports && freshId !in ObjectPrototypeKeys
      modifies this, jwks
      ensures Valid()
      ensures var sid := SessionIdOf(req);
        sid != "" && sid in old(transports) ==>
          && reply == Dispatched && target == old(transports)[sid]
          && transports == old(transports) && jwks.entries == old(jwks.entries)
      ensures var sid := SessionIdOf(req);
        var user := TokenVerifier.ResolveUsername(cfg, req.headers, jwtVerify);
        sid == "" && isInitializeRequest(req.body) && user.Failure? ==>
          && reply == RpcError(401, UnauthorizedCode, UnauthorizedPrefix + user.error.message)
          && target == null && transports == old(transports)
          && jwks.entries == LookupEntries(old(jwks.entries), req)
      ensures var sid := SessionIdOf(req);
        var user := TokenVerifier.ResolveUsername(cfg, req.headers, jwtVerify);
        sid == "" && isInitializeRequest(req.body) && user.Success? ==>
          && reply == Dispatched && target != null && fresh(target)
          && target.username == user.value && target.Bound()
          && (handshakeCompletes ==> target.sessionId == Some(freshId) && transports == old(transports)[freshId := target])
          && (!handshakeCompletes ==> target.sessionId == None && transports == old(transports))
          && jwks.entries == LookupEntries(old(jwks.entries), req)
      ensures var sid := SessionIdOf(req);
        sid in ObjectPrototypeKeys ==>
          && reply == Thrown(HandleRequestMissing) && ErrorStatus(reply.error) == 500
          && target == null && transports == old(transports) && jwks.entries == old(jwks.entries)
      ensures var sid := SessionIdOf(req);
        (sid != "" && !old(Found(sid))) || (sid == "" && !isInitializeRequest(req.body)) ==>
          && reply == RpcError(400, BadRequestCode, NoValidSessionMessage)
          && target == null && transports == old(transports) && jwks.entries == old(jwks.entries)
    {
      var sid := SessionIdOf(req);
      if sid != "" && Found(sid) {
        if sid !in transports {
          return Thrown(HandleRequestMissing), null;
        }
        return Dispatched, transports[sid];
      } else if sid == "" && isInitializeRequest(req.body) {
        var user := jwks.GetUsernameFromRequest(cfg, req.headers, jwtVerify);
        if user.Failure? {
          return RpcError(401, UnauthorizedCode, UnauthorizedPrefix + user.error.message), null;
        }
        var t := new Transport(user.value);
        if handshakeCompletes {
          SessionInitialized(t, freshId);
        }
        return Dispatched, t;
      } else {
        return RpcError(400, BadRequestCode, NoValidSessionMessage), null;
      }
    }
  }

  /** Two registered sessions never share a transport, and each acts for the user its transport was created for. */
  lemma DistinctSessionsDistinctTransports(r: Router, a: string, b: string)
    requires r.Valid()
    requires a in r.transports && b in r.transports && a != b
    ensures r.transports[a] != r.transports[b]
    ensures r.UserOf(a) == Some(r.transports[a].username)
  {
  }

  // ------------------------------------------------------- error handling

  const BearerChallenge := "Bearer error=\"invalid_token\", error_description=\"Invalid or expired token\""
  const InternalErrorMessage := "Internal Server Error"

  /** The response the central error handler writes: status, `WWW-Authenticate` header if any, `{ error }` body. */
  datatype ErrorReply = ErrorReply(status: int, challenge: Option<string>, error: string)

  /** `err.status || (err.code === "ERR_JWT_EXPIRED" ? 401 : 500)` */
  function ErrorStatus(err: ThrownError): (status: int)
    ensures err.status != 0 ==> status == err.status
    ensures err.status == 0 ==> (status == 401 <==> err.code == "ERR_JWT_EXPIRED")
    ensures err.status == 0 ==> status == 401 || status == 500
  {
    if err.status != 0 then err.status
    else if err.code == "ERR_JWT_EXPIRED" then 401
    else 500
  }

  /**
   * The central error handler: nothing is written once headers were sent;
   * otherwise the status above, the bearer challenge exactly for 401, and the
   * message or a generic one.
   */
  function HandleError(err: ThrownError, headersSent: bool): (r: Option<ErrorReply>)
    ensures r.None? <==> headersSent
    ensures r.Some? ==> r.value.status == ErrorStatus(err)
    ensures r.Some? ==> (r.value.challenge.Some? <==> r.value.status == 401)
    ensures r.Some? && r.value.challenge.Some? ==> r.value.challenge.value == BearerChallenge
    ensures r.Some? ==> r.value.error != ""
    ensures r.Some? && err.message != "" ==> r.value.error == err.message
    ensures r.Some? && err.message == "" ==> r.value.error == InternalErrorMessage
  {
    if headersSent then None
    else
      var status := ErrorStatus(err);
      Some(ErrorReply(
        status,
        if status == 401 then Some(BearerChallenge) else None,
        if err.message != "" then err.message else InternalErrorMessage))
  }

  /**
   * A `verifyAccessToken` failure that reaches the central handler is a 401
   * with the bearer challenge exactly when the signature, issuer or expiry
   * check failed; the claim checks and a missing pool id throw plain errors,
   * which become 500.
   */
  lemma VerifyFailureStatus(cfg: CognitoConfig, token: string, jwtVerify: TokenVerifier.JwtVerifier)
    requires TokenVerifier.Verify(cfg, token, jwtVerify).Failure?
    ensures var err := TokenVerifier.Verify(cfg, token, jwtVerify).error;
      var iss := TokenVerifier.GetIssuer(cfg);
      ErrorStatus(err) == 401 <==>
        iss.Success? && jwtVerify(token, TokenVerifier.RemoteKeySet(TokenVerifier.JwksUrl(iss.value)), iss.value).Failure?
    ensures var err := TokenVerifier.Verify(cfg, token, jwtVerify).error;
      ErrorStatus(err) == 401 || ErrorStatus(err) == 500
    ensures var err := TokenVerifier.Verify(cfg, token, jwtVerify).error;
      ErrorStatus(err) == 401 ==> HandleError(err, false) == Some(ErrorReply(401, Some(BearerChallenge), "Invalid or expired token"))
  {
  }

  // ---------------------------------------------------------------- routes

  /** The handler a route ends in; `Other` is none of the routes below. */
  datatype Handler = McpPost | McpSession | Health | Other

  /** The route a request takes: whether the bearer middleware runs first, and the handler. */
  datatype Route = Route(bearerAuth: bool, handler: Handler)

  /**
   * The path as a route matches it by default: letters compared without
   * regard to ASCII case, and one trailing slash ignored.
   */
  function RoutePath(path: string): (p: string)
    ensures |p| <= |path|
    ensures forall i | 0 <= i < |p| :: p[i] == TokenVerifier.AsciiLower(path[i])
    ensures |p| < |path| <==> |path| > 1 && path[|path| - 1] == '/'
    ensures |p| == if |path| > 1 && path[|path| - 1] == '/' then |path| - 1 else |path|
  {
    var lower := seq(|path|, i requires 0 <= i < |path| => TokenVerifier.AsciiLower(path[i]));
    if |lower| > 1 && lower[|lower| - 1] == '/' then lower[..|lower| - 1] else lower
  }

  /** A `GET` route also answers `HEAD`. */
  predicate IsGet(verb: string) {
    verb == "GET" || verb == "HEAD"
  }

  /**
   * `app.post/get/delete("/mcp", authMiddleware, …)` and `app.get("/health", …)`:
   * every `/mcp` method the server serves is behind the bearer middleware;
   * the health check is not.
   */
  function RouteFor(verb: string, path: string): (r: Route)
    ensures r.handler == McpPost <==> verb == "POST" && RoutePath(path) == "/mcp"
    ensures r.handler == McpSession <==> (IsGet(verb) || verb == "DELETE") && RoutePath(path) == "/mcp"
    ensures r.handler == Health <==> IsGet(verb) && RoutePath(path) == "/health"
    ensures r.bearerAuth <==> r.handler == McpPost || r.handler == McpSession
  {
    var p := RoutePath(path);
    if p == "/mcp" && verb == "POST" then Route(true, McpPost)
    else if p == "/mcp" && (IsGet(verb) || verb == "DELETE") then Route(true, McpSession)
    else if p == "/health" && IsGet(verb) then Route(false, Health)
    else Route(false, Other)
  }

  /** Letter case and a trailing slash do not change the route. */
  lemma RouteIgnoresCaseAndTrailingSlash(verb: string)
    ensures RouteFor(verb, "/MCP/") == RouteFor(verb, "/mcp") == RouteFor(verb, "/Mcp")
    ensures RouteFor(verb, "/health/") == RouteFor(verb, "/HEALTH") == RouteFor(verb, "/health")
  {
  }
}
