# Nightscout MCP server: session gate, token checks and tools

This project is a Dafny model of the logic at the core of a small HTTP tool
server. The server lets an authenticated client read glucose readings from a
Nightscout instance and record carbohydrate treatments there. It speaks the
Model Context Protocol (MCP) over streamable HTTP. The model covers:

- **Session router and registry** (`session_router.dfy`, module `SessionRouter`).
  - The registry is a `Router` class whose `transports` map goes from session id to `Transport`.
  - `Post` reuses a registered session without resolving the username again (the bearer middleware still verifies the token; see `RouteFor`), authenticates an initialize request and creates a transport bound to the resolved user, and rejects everything else with a JSON-RPC 2.0 error (section 5.1 of the JSON-RPC 2.0 specification).
  - `HandleSession` serves GET and DELETE.
  - `SessionInitialized` and `Close` are the callbacks through which a transport registers and deregisters itself.
  - `HandleError` models the central error handler and `RouteFor` models the route table.
  - The invariant `Router.Valid` says that each registered transport holds its own key as session id and keeps the operations bound to its user.
- **Token verifier** (`token_verifier.dfy`, module `TokenVerifier`).
  - It builds the Cognito issuer URL.
  - `JwksCache` is the process-wide key-set cache, with one entry per issuer.
  - It runs the claim checks applied after signature verification (section 4.1 of RFC 7519).
  - It splits the scope claim.
  - It parses `Authorization: Bearer` headers, following section 2.1 of RFC 6750, with the scheme case-insensitive as in section 2.1 of RFC 7235. This parser is proved to agree with the regular expression the source uses.
  - It takes the username from the first truthy of three claims.
- **OAuth metadata** (`oauth.dfy`, module `OAuth`). It builds the issuer and hosted-domain endpoints of the authorization server metadata (section 2 of RFC 8414), with PKCE `S256` only (section 4.2 of RFC 7636).
- **Tools and prompt.**
  - `add_carb_treatment` (`carb_treatment.dfy`) validates its arguments, fills in defaults, picks the stored record and merges it with what was sent.
  - `get_glucose_entries` (`glucose_entries.dfy`) validates its arguments and applies the default window and limit.
  - The compact glucose formatter is in `glucose_format.dfy`.
  - The `estimate-carbs` prompt text builder is in `estimate_carbs_prompt.dfy`.
- **Shared definitions.** `js.dfy` holds the JavaScript value semantics the source relies on: truthiness, `||`, property access, `Number(...)` and thrown `Error` objects. It also holds the configuration records. `wrappers.dfy` holds `Option` and `Result`.

Conventions:

- An unset environment variable is the empty string; both are falsy where the source tests them.
- A thrown `Error` is `ThrownError(message, status, code)`, where status 0 and code "" mean the property is absent.
- Foreign code is passed in as function parameters:
  - `jwtVerify` (signature, issuer and expiry checks);
  - `isInitializeRequest`;
  - the credential lookup and the Nightscout requests;
  - the mg/dl to mmol/l conversion;
  - date parsing and formatting;
  - `Number` on strings.
- The clock is a `now` parameter.
- The generated session id is `freshId`, required not to be registered yet.
- Whether the SDK's initialize handshake gets as far as assigning the session id is `handshakeCompletes`.

The comment above the central error handler (src/index.ts:169) says it is there so that auth errors get 401 instead of 500. It does not do that for every auth error. A wrong token type and a client id mismatch are thrown as plain `Error`s without a `status` (src/auth/tokenVerifier.ts:51-58), so the handler answers both with 500. The model follows the code, and `SessionRouter.VerifyFailureStatus` states this.

The session registry is a plain JavaScript object. A session id that names a property every object inherits (`constructor`, `__proto__`, `toString`, …) finds a truthy value there that is not a transport. The lookup passes, and calling `handleRequest` on that value throws a `TypeError`. The model sends such ids to the `Thrown` reply, which the central handler would answer with 500. The registry never holds them as keys.

## Model

| member | source | states |
|---|---|---|
| `SessionRouter.SessionTools` | src/index.ts:124-125 | both tools of a session, get_glucose_entries and add_carb_treatment, are bound to the session's username |
| `SessionRouter.Transport.constructor` | src/index.ts:96-128 | a new transport has no session id yet, carries the resolved user, and its server has the two user-bound tools and the estimate-carbs prompt |
| `SessionRouter.Deregister` | src/index.ts:103-107 | after deregistration the transport's own id is absent; every other key and its transport are kept; without an id nothing changes |
| `SessionRouter.DeregisterIdempotent` | src/index.ts:103-107 | a second close leaves the registry as the first left it |
| `SessionRouter.SessionIdOf` | src/index.ts:76 | the session id is the `mcp-session-id` header when present and the empty (falsy) string when absent |
| `SessionRouter.Router.constructor` | src/transport/sessionRegistry.ts:5 | the registry and the key-set cache start empty, and the invariant holds |
| `SessionRouter.Router.FoundIsRegisteredOrInherited` | src/index.ts:151 | `Found`, the truthiness of `transports[sessionId]`, holds for every inherited property name, which is never registered; under the invariant a truthy lookup is a registered session exactly when it is not an inherited name |
| `SessionRouter.Router.HandleSession` | src/index.ts:146-158 | a missing id, or one neither registered nor inherited by the registry object, gives exactly the plain 400 "Invalid or missing session ID"; an inherited property name gives exactly the thrown "handleRequest is not a function" error; a registered id dispatches to its transport, whose session id is that id and whose tools are bound to its user; there is a target exactly when the request is dispatched; nothing changes |
| `SessionRouter.Router.SessionInitialized` | src/index.ts:96-101 | the transport holds the generated id, the registry maps that id to it, and with a fresh id every existing entry is kept; the invariant is preserved |
| `SessionRouter.Router.Close` | src/index.ts:103-107 | only the entry under the transport's own id is deleted, nothing if it has none; afterwards the transport is not registered; the invariant is preserved |
| `SessionRouter.Router.Post` | src/index.ts:75-144 | a registered id dispatches to its transport with registry and key cache unchanged, so no username resolution happens; an id naming an inherited property of the registry object gives the thrown "handleRequest is not a function" error, whose status is 500, and changes nothing; no id plus an initialize body whose username resolution fails gives 401 with code -32001 and "Unauthorized: " plus the message, creating nothing; a successful resolution creates a fresh transport bound to that username, registered under the fresh id exactly when the handshake assigns it; in both initialize branches the key cache changes only by the issuer lookup, and only once the header parsed; any other id, or no id with another body, gives 400 with code -32000 and leaves the registry and cache unchanged |
| `SessionRouter.DistinctSessionsDistinctTransports` | src/index.ts:96-100 | two registered ids never share a transport, and each session acts for its transport's user |
| `SessionRouter.ErrorStatus` | src/index.ts:178 | the error's truthy status wins; without one the status is 401 exactly for code ERR_JWT_EXPIRED and 500 otherwise |
| `SessionRouter.HandleError` | src/index.ts:171-191 | nothing is written once headers were sent; otherwise the status above, the bearer challenge header exactly for 401, and the error's message, or "Internal Server Error" exactly when the message is empty |
| `SessionRouter.VerifyFailureStatus` | src/auth/tokenVerifier.ts:37-63 | a verifier failure that reaches the central handler is 401 exactly when jwtVerify failed, and then carries the challenge and "Invalid or expired token"; every other verifier failure is 500 |
| `SessionRouter.RoutePath` | src/index.ts:160-167 | the path a route is matched against: every character is the ASCII lower case of the original, and it is exactly one shorter when the original is longer than "/" and ends in a slash, and otherwise exactly as long |
| `SessionRouter.RouteFor` | src/index.ts:160-167 | POST on /mcp reaches the POST handler, GET, HEAD and DELETE on /mcp reach the session handler, both only through the bearer middleware; GET and HEAD on /health are served without it; paths match regardless of ASCII case and one trailing slash |
| `SessionRouter.RouteIgnoresCaseAndTrailingSlash` | src/index.ts:160-167 | /MCP/, /Mcp and /mcp reach the same handler for every method, and so do /health/, /HEALTH and /health |
| `TokenVerifier.GetIssuer` | src/auth/tokenVerifier.ts:9-14 | fails with "COGNITO_USER_POOL_ID is not configured" exactly when the pool id is unset; otherwise the URL starts with https://cognito-idp., the region and .amazonaws.com/ |
| `TokenVerifier.IssuerRoundTrip` | src/auth/tokenVerifier.ts:13 | the pool id can be read back out of the issuer URL |
| `TokenVerifier.IssuerInjective` | src/auth/tokenVerifier.ts:13 | within one region, equal issuers mean equal pool ids |
| `TokenVerifier.JwksCache.constructor` | src/auth/tokenVerifier.ts:7 | the key-set cache starts empty |
| `TokenVerifier.JwksCache.GetJwks` | src/auth/tokenVerifier.ts:16-22 | the issuer's key set is created on first use and cached; later calls return the cached one and change nothing; no other issuer's entry changes; the issuer error passes through |
| `TokenVerifier.JwksCache.VerifyAccessToken` | src/auth/tokenVerifier.ts:31-72 | the result is `Verify` of the same inputs, and the cache changes only by the lookup of the configured issuer |
| `TokenVerifier.JwksCache.GetUsernameFromRequest` | src/auth/tokenVerifier.ts:74-90 | the result is `ResolveUsername` of the same inputs, and the cache is touched only once the header parsed |
| `TokenVerifier.CheckClaims` | src/auth/tokenVerifier.ts:51-71 | a token_use other than "access" is refused; an accepted token keeps its token and exp, has a truthy client id, and its scopes are at least one part, contain no space and joined with spaces give back the scope string (so, with `SplitJoin`, they are its split), or there are no scopes when the claim is not a string |
| `TokenVerifier.TokenClientId` | src/auth/tokenVerifier.ts:55 | the token's client id is `client_id` when truthy and `aud` otherwise, and is truthy exactly when one of them is |
| `TokenVerifier.Scopes` | src/auth/tokenVerifier.ts:65 | for a string claim, at least one part, all free of spaces, that join back to the claim (so, with `SplitJoin`, exactly its split, and `[""]` for an empty claim); no scopes for any other claim |
| `TokenVerifier.ClientIdResolution` | src/auth/tokenVerifier.ts:55-63 | the claims pass exactly when some client id exists and a configured id does not conflict with the token's; the id is the token's, else the configured one; a conflict gives the mismatch error |
| `TokenVerifier.Verify` | src/auth/tokenVerifier.ts:31-72 | a missing pool id fails first; any jwtVerify failure becomes the 401 invalid_token error; a verified payload goes through the claim checks |
| `TokenVerifier.NonAccessTokenRejected` | src/auth/tokenVerifier.ts:51-53 | a payload that verified but is not an access token is refused with "Invalid token type; expected access token" |
| `TokenVerifier.Split` | src/auth/tokenVerifier.ts:65 | splitting gives at least one part and no part contains the separator |
| `TokenVerifier.JoinSplit` | src/auth/tokenVerifier.ts:65 | joining the split scope string with the separator gives the string back |
| `TokenVerifier.SplitWithoutSeparator` | src/auth/tokenVerifier.ts:65 | a string without the separator splits into itself |
| `TokenVerifier.SplitAfterPart` | src/auth/tokenVerifier.ts:65 | a separator-free part followed by the separator splits off as the first part |
| `TokenVerifier.SplitJoin` | src/auth/tokenVerifier.ts:65 | splitting the join of separator-free parts gives the parts back |
| `TokenVerifier.LeadingSpaces` | src/auth/tokenVerifier.ts:77 | the count of leading `\s` characters: all of them are whitespace and the next one is not |
| `TokenVerifier.ParseBearer` | src/auth/tokenVerifier.ts:77-79 | every failure is "Invalid Authorization header format"; a parsed token is a non-empty suffix of the header without line terminators, after the case-insensitive "Bearer" and at least one whitespace character |
| `TokenVerifier.ParseBearerIsRegExpMatch` | src/auth/tokenVerifier.ts:77-79 | `ParseBearer`, the header parser, succeeds exactly when `^Bearer\s+(.+)$` with the i flag matches, and returns the capture of the match with the longest whitespace run, the one a backtracking matcher finds first; otherwise it fails with "Invalid Authorization header format" |
| `TokenVerifier.BearerRoundTrip` | src/auth/tokenVerifier.ts:77-79 | "Bearer " followed by a token that does not start with whitespace and has no line terminator parses back to that token |
| `TokenVerifier.BearerToken` | src/auth/tokenVerifier.ts:75-79 | without a non-empty authorization header the request fails with "Missing Authorization header"; otherwise the token is `ParseBearer` of the non-empty `authorization` header, or of `Authorization` when the lower-case one is missing or empty |
| `TokenVerifier.UsernameOf` | src/auth/tokenVerifier.ts:85-89 | a found username is non-empty; otherwise the error is "Unable to determine username from token" |
| `TokenVerifier.UsernameIsFirstTruthyClaim` | src/auth/tokenVerifier.ts:85-89 | the first truthy of username, cognito:username and sub decides: its string is the username, and a non-string fails |
| `TokenVerifier.NoTruthyClaimNoUsername` | src/auth/tokenVerifier.ts:85-88 | with none of the three claims truthy, resolution fails |
| `TokenVerifier.ResolveUsername` | src/auth/tokenVerifier.ts:74-90 | header errors pass through; once the header parsed, an issuer error passes through, a jwtVerify error passes through, and a verified payload gives exactly `UsernameOf` that payload; so a username means the token verified against the issuer's key set and the claims gave that non-empty name |
| `OAuth.Hosted` | src/auth/oauth.ts:14 | the hosted origin starts with https://, equals the domain when it already did, and otherwise is https:// followed by the domain |
| `OAuth.HostedIdempotent` | src/auth/oauth.ts:14 | applying the prefixing rule to its own output changes nothing |
| `OAuth.CreateOAuthUrls` | src/auth/oauth.ts:4-22 | fails with "Missing COGNITO_USER_POOL_ID in environment" exactly when the pool id is unset; the endpoints are the hosted origin followed by /oauth2/authorize, /oauth2/token and /oauth2/userInfo |
| `OAuth.IssuerAgreesWithVerifier` | src/auth/oauth.ts:13 | the published issuer fails on the same configurations as the verifier's issuer and otherwise equals it |
| `OAuth.EndpointsAreHttps` | src/auth/oauth.ts:14-20 | every advertised endpoint is an https URL |
| `OAuth.Metadata` | src/auth/oauth.ts:24-30 | the metadata carries the URLs, response type code, grants authorization_code and refresh_token, PKCE method S256 only, and exactly the scopes openid, email and profile |
| `CarbTreatment.ValidateCarbArgs` | src/tools/addCarbTreatment.ts:11-17 | accepted exactly when carbs coerce to a positive number, eventType is absent or one of the three listed, and the other fields are optional strings; the accepted fields are the given ones, and each failure lists issues |
| `CarbTreatment.SingletonArrayCarbs` | src/tools/addCarbTreatment.ts:12 | carbs given as a one-element array of a positive number are accepted as that number, and an empty array is refused as not positive |
| `CarbTreatment.MakeTreatment` | src/tools/addCarbTreatment.ts:68-74 | event type defaults to "Carb Correction" and author to "MCP Server" when falsy; carbs, time and notes pass through unchanged |
| `CarbTreatment.PickTreatment` | src/tools/addCarbTreatment.ts:94-98 | an array reply gives its first element, any other reply itself; a falsy result fails with "No treatment data returned from Nightscout" |
| `CarbTreatment.BuildOutput` | src/tools/addCarbTreatment.ts:102-124 | success is true; id, event type, carbs and time prefer the returned values with the stated fallbacks; notes and author appear exactly when either side has them, preferring the returned value |
| `CarbTreatment.OutputAlwaysHasAuthorAndType` | src/tools/addCarbTreatment.ts:68-124 | because the sent author is defaulted, the output always names an author and an event type |
| `CarbTreatment.AddCarbTreatment` | src/tools/addCarbTreatment.ts:51-147 | validation errors pass through unprefixed; a credential or addTreatment failure is exactly "Failed to add carb treatment: " plus its message, and an empty reply the same prefix plus "No treatment data returned from Nightscout"; when every step succeeds the tool succeeds, and a success used the session user's credentials and the stored record merged with the sent treatment |
| `GlucoseEntries.ValidateGlucoseArgs` | src/tools/getGlucoseEntries.ts:12-16 | accepted exactly when the dates are optional strings and the limit is absent or an integer in 1..10000; the accepted dates are the given ones and an accepted limit is the given number |
| `GlucoseEntries.QueryFor` | src/tools/getGlucoseEntries.ts:56-61 | an absent start is exactly 86400000 ms before now, an absent end is now, an absent limit is 1000; given values are used |
| `GlucoseEntries.QueryLimitInRange` | src/tools/getGlucoseEntries.ts:15-61 | every query built from accepted arguments asks for between 1 and 10000 entries |
| `GlucoseEntries.GetGlucoseEntries` | src/tools/getGlucoseEntries.ts:50-101 | validation errors pass through; a credential or getEntries failure is exactly "Failed to fetch glucose entries: " plus its message; a successful fetch makes the tool succeed, with the mmol/l compact form of the entries fetched with the session user's credentials for the computed window and limit |
| `GlucoseEntries.UsesOnlySessionUser` | src/tools/getGlucoseEntries.ts:64-69 | the result depends on the credential lookup only through the session user's entry |
| `GlucoseFormat.SgvEntries` | src/utils/glucoseFormat.ts:17-18 | the filter keeps no more entries than it is given, and all of them are sgv readings |
| `GlucoseFormat.SgvEntriesAppend` | src/utils/glucoseFormat.ts:17-18 | the filter keeps input order: filtering a concatenation concatenates the results |
| `GlucoseFormat.SgvEntriesMembership` | src/utils/glucoseFormat.ts:17-18 | an entry is kept exactly when it is in the input, non-null, of type sgv and with a numeric sgv |
| `GlucoseFormat.ToReading` | src/utils/glucoseFormat.ts:19-28 | the value is the raw sgv for mg/dl and its conversion for mmol/l; direction is copied; dateString falls back from dateString to sysTime to the ISO form of date |
| `GlucoseFormat.FirstUtcOffset` | src/utils/glucoseFormat.ts:15 | the first raw entry's numeric utcOffset, whether or not that entry is a reading; any non-zero result comes from it, and 0 otherwise |
| `GlucoseFormat.FirstUtcOffsetIgnoresRest` | src/utils/glucoseFormat.ts:15 | entries after the first never change the offset |
| `GlucoseFormat.FormatEntriesToCompact` | src/utils/glucoseFormat.ts:8-37 | the unit is echoed; readings are the kept entries mapped one by one and count is their number; utcOffset comes from the first raw entry or is 0; a falsy start becomes 0 and a falsy end becomes now |
| `GlucoseFormat.MgPerDlKeepsRawValues` | src/utils/glucoseFormat.ts:20-21 | in mg/dl every reading is the raw sgv of its entry |
| `EstimateCarbsPrompt.EstimateCarbs` | src/prompts/estimateCarbsPrompt.ts:29-72 | exactly one user message with text content, whose text is the concatenation of the opening, the food line, the unit phrases, the steps, the optional confidence line and the closing |
| `EstimateCarbsPrompt.UnitsPreference` | src/prompts/estimateCarbsPrompt.ts:32 | the given units, or grams when none were given |
| `EstimateCarbsPrompt.IncludeConfidence` | src/prompts/estimateCarbsPrompt.ts:33 | the confidence line is left out exactly for the string "false"; an absent argument includes it |
| `EstimateCarbsPrompt.FoodDescriptionVerbatim` | src/prompts/estimateCarbsPrompt.ts:38 | the food description appears verbatim right after "Food Description: " |
| `EstimateCarbsPrompt.GramsPhraseIff` | src/prompts/estimateCarbsPrompt.ts:42-44 | " in grams" opens the unit phrases exactly for grams and both |
| `EstimateCarbsPrompt.AndOnlyForBoth` | src/prompts/estimateCarbsPrompt.ts:42-50 | for both, " AND" sits between the grams and exchanges phrases; grams alone and exchanges alone have no " AND" |
| `EstimateCarbsPrompt.ExchangesPhraseIff` | src/prompts/estimateCarbsPrompt.ts:48-50 | the exchanges phrase closes the unit phrases exactly for exchanges and both |
| `EstimateCarbsPrompt.ConfidenceLineIff` | src/prompts/estimateCarbsPrompt.ts:33-57 | the confidence line stands right before the closing text exactly when it was asked for |
| `EstimateCarbsPrompt.ValidatePromptArgs` | src/prompts/estimateCarbsPrompt.ts:17-27 | accepted exactly when the food description is non-empty and the units, if given, are grams, exchanges or both; the accepted description, units and confidence are the given ones |

## Left out

- The MCP SDK is foreign code and is not part of this model. That covers the transport's `handleRequest`, `McpServer`, tool and prompt registration, `isInitializeRequest`, the bearer middleware and the metadata router. A transport is reduced to its session id and its bound operations. Dispatch is the `Dispatched` reply.
- Which errors reach the central error handler is decided by the SDK's bearer middleware, which is not modelled. The handler is modelled as a function of the error it receives.
- A transport closes itself on DELETE, on disconnect or on a protocol error. The model has only `Close` itself, not what triggers it.
- Requests are modelled as atomic steps. The interleaving of asynchronous handlers is left out.
- Signature cryptography (`jwtVerify`) and key fetching (`createRemoteJWKSet`) are left out. A key set is its JWKS URL.
- `randomUUID` is left out. The model assumes only that the generated id is not registered yet and is not the name of an inherited object property, which a UUID never is.
- SessionRouter.Router.Post: whether the rejected promise of a thrown `handleRequest` reaches the central error handler depends on the Express version, which is not modelled. The `Thrown` reply records the error and its 500 status.
- SessionRouter.RouteFor: Express's strict routing and case-sensitive routing options are off by default and are taken as off. Other path-to-regexp features are not used by these routes.
- The Nightscout client, the Cognito user-attribute lookup, logging and the `sendLoggingMessage` calls are I/O and are left out.
- The `/health` body, Express setup, CORS, the JSON body parser and `app.listen` are HTTP plumbing. `RouteFor` keeps only the order of middleware and handlers.
- The configuration module src/config.ts is not part of this model. Its values are the `CognitoConfig` record.
- Floating point is left out. Numbers are reals, so NaN and the infinities do not arise. `toMmolPerL` rounding and `Number` on strings are parameters. `Number` of an array goes through its comma-joined string: an empty array is 0, a one-element array converts as its element's string form, and a longer one is NaN. `Number` of an object is NaN, since the model does not run `valueOf` or `toString`. An invalid date, which yields NaN, is not modelled.
- Strings are sequences of characters. JavaScript's UTF-16 code units are not distinguished from them.
- GlucoseEntries.GetGlucoseEntries: the tool reads the clock once. The formatter reads it again for an end date of 0, and the model uses the same `now` for both reads.
- TokenVerifier.ResolveUsername: like `getUsernameFromRequest`, it does not check `token_use` or the client id itself. On POST /mcp those checks are made first by the bearer middleware through `verifyAccessToken` (src/index.ts:55-60 and src/index.ts:160). That middleware is not modelled, so `Post` does not state them.
- Key-set rotation and expiry inside the remote key set are left out.
