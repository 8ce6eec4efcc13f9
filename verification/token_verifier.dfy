/**
 * Access-token verification against the Cognito user pool: the issuer string,
 * the per-issuer key-set cache, the claim checks that follow a successful
 * signature check (section 4.1 of RFC 7519), the `Authorization: Bearer`
 * header (section 2.1 of RFC 6750, scheme matched case-insensitively as in
 * section 2.1 of RFC 7235) and the username fallback.
 *
 * Signature checking and key fetching are foreign code: `jwtVerify` is an
 * oracle from (token, key set, expected issuer) to a payload or the error it
 * throws, and a key set is identified by the URL it fetches keys from.
 */
module TokenVerifier {
  import opened Wrappers
  import opened Js
  import opened Cognito

  const IssuerPrefix := "https://cognito-idp."
  const IssuerHost := ".amazonaws.com/"

  const PoolNotConfiguredMessage := "COGNITO_USER_POOL_ID is not configured"
  const WrongTokenUseMessage := "Invalid token type; expected access token"
  const ClientMismatchMessage := "Token client_id does not match configured application client"
  const NoClientIdMessage := "Could not determine client_id from token or configuration"
  const MissingAuthMessage := "Missing Authorization header"
  const MalformedAuthMessage := "Invalid Authorization header format"
  const NoUsernameMessage := "Unable to determine username from token"

  /** The error every failed signature, issuer or expiry check is reported as. */
  const InvalidTokenError := ThrownError("Invalid or expired token", 401, "invalid_token")

  // ---------------------------------------------------------------- issuer

  /** The issuer URL of the configured user pool; fails when no pool id is configured. */
  function GetIssuer(cfg: CognitoConfig): (r: Result<string, ThrownError>)
    ensures r.Failure? <==> cfg.userPoolId == ""
    ensures r.Failure? ==> r.error == PlainError(PoolNotConfiguredMessage)
    ensures r.Success? ==> StartsWith(r.value, IssuerPrefix + cfg.region + IssuerHost)
  {
    if cfg.userPoolId == "" then Failure(PlainError(PoolNotConfiguredMessage))
    else Success(IssuerPrefix + cfg.region + IssuerHost + cfg.userPoolId)
  }

  /** Reads the pool id back out of an issuer URL for a known region. */
  function PoolIdOfIssuer(region: string, issuer: string): Option<string> {
    var p := IssuerPrefix + region + IssuerHost;
    if StartsWith(issuer, p) && |issuer| > |p| then Some(issuer[|p|..]) else None
  }

  /** The issuer URL carries the pool id: reading it back gives the configured id. */
  lemma IssuerRoundTrip(cfg: CognitoConfig)
    requires GetIssuer(cfg).Success?
    ensures PoolIdOfIssuer(cfg.region, GetIssuer(cfg).value) == Some(cfg.userPoolId)
  {
  }

  /** Two pools in the same region never share an issuer, hence never share a cached key set. */
  lemma IssuerInjective(c1: CognitoConfig, c2: CognitoConfig)
    requires c1.region == c2.region
    requires GetIssuer(c1).Success? && GetIssuer(c2).Success?
    requires GetIssuer(c1).value == GetIssuer(c2).value
    ensures c1.userPoolId == c2.userPoolId
  {
  }

  // -------------------------------------------------------------- key sets

  /** A remote key set, identified by the URL its keys are fetched from. */
  datatype KeySet = RemoteKeySet(jwksUrl: string)

  function JwksUrl(issuer: string): string {
    issuer + "/.well-known/jwks.json"
  }

  /** The `jwtVerify` oracle: (token, key set, expected issuer) to the payload, or the error it throws. */
  type JwtVerifier = (string, KeySet, string) -> Result<JsValue, ThrownError>

  /** The cache entries after one lookup for the configured issuer. */
  ghost function AfterLookup(entries: map<string, KeySet>, cfg: CognitoConfig): map<string, KeySet> {
    match GetIssuer(cfg)
    case Failure(_) => entries
    case Success(iss) => if iss in entries then entries else entries[iss := RemoteKeySet(JwksUrl(iss))]
  }

  /**
   * The process-wide key-set cache: at most one key set per issuer, created
   * on first use and never evicted.
   */
  class JwksCache {
    var entries: map<string, KeySet>

    /** Every cached key set fetches from its own issuer's JWKS URL. */
    ghost predicate Valid()
      reads this
    {
      forall iss | iss in entries :: entries[iss] == RemoteKeySet(JwksUrl(iss))
    }

    constructor ()
      ensures Valid() && entries == map[]
    {
      entries := map[];
    }

    /**
     * The key set for the configured issuer, created on the first call for
     * that issuer; later calls return the cached one and change nothing.
     */
    method GetJwks(cfg: CognitoConfig) returns (r: Result<KeySet, ThrownError>)
      requires Valid()
      modifies this
      ensures Valid()
      ensures entries == AfterLookup(old(entries), cfg)
      ensures GetIssuer(cfg).Failure? ==> r == Failure(GetIssuer(cfg).error)
      ensures GetIssuer(cfg).Success? ==>
        var iss := GetIssuer(cfg).value;
        && iss in entries
        && r == Success(entries[iss])
        && r.value == RemoteKeySet(JwksUrl(iss))
        && entries.Keys == old(entries).Keys + {iss}
        && (iss in old(entries) ==> entries == old(entries))
    {
      var issuer := GetIssuer(cfg);
      if issuer.Failure? {
        return Failure(issuer.error);
      }
      var iss := issuer.value;
      if iss !in entries {
        entries := entries[iss := RemoteKeySet(JwksUrl(iss))];
      }
      r := Success(entries[iss]);
    }

    /** `verifyAccessToken`: the result of `Verify`, warming the cache on the way. */
    method VerifyAccessToken(cfg: CognitoConfig, token: string, jwtVerify: JwtVerifier)
      returns (r: Result<AuthInfo, ThrownError>)
      requires Valid()
      modifies this
      ensures Valid()
      ensures r == Verify(cfg, token, jwtVerify)
      ensures entries == AfterLookup(old(entries), cfg)
    {
      var issuer := GetIssuer(cfg);
      if issuer.Failure? {
        return Failure(issuer.error);
      }
      var jwks := GetJwks(cfg);
      var verified := jwtVerify(token, jwks.value, issuer.value);
      if verified.Failure? {
        return Failure(InvalidTokenError);
      }
      r := CheckClaims(cfg.appClientId, token, verified.value);
    }

    /** `getUsernameFromRequest`: the result of `ResolveUsername`; the cache is touched only once the header parses. */
    method GetUsernameFromRequest(cfg: CognitoConfig, headers: map<string, string>, jwtVerify: JwtVerifier)
      returns (r: Result<string, ThrownError>)
      requires Valid()
      modifies this
      ensures Valid()
      ensures r == ResolveUsername(cfg, headers, jwtVerify)
      ensures entries == if BearerToken(headers).Failure? then old(entries) else AfterLookup(old(entries), cfg)
    {
      var token := BearerToken(headers);
      if token.Failure? {
        return Failure(token.error);
      }
      var issuer := GetIssuer(cfg);
      if issuer.Failure? {
        return Failure(issuer.error);
      }
      var jwks := GetJwks(cfg);
      var verified := jwtVerify(token.value, jwks.value, issuer.value);
      if verified.Failure? {
        return Failure(verified.error);
      }
      r := UsernameOf(verified.value);
    }
  }

  // ---------------------------------------------------------------- claims

  /** What a verified access token grants. */
  datatype AuthInfo = AuthInfo(token: string, clientId: JsValue, scopes: seq<string>, expiresAt: JsValue)

  /** `payload.client_id || payload.aud` */
  function TokenClientId(payload: JsValue): (r: JsValue)
    ensures Truthy(Get(payload, "client_id")) ==> r == Get(payload, "client_id")
    ensures !Truthy(Get(payload, "client_id")) ==> r == Get(payload, "aud")
    ensures Truthy(r) <==> Truthy(Get(payload, "client_id")) || Truthy(Get(payload, "aud"))
  {
    Or(Get(payload, "client_id"), Get(payload, "aud"))
  }

  /** The scope claim split on single spaces when it is a string, else no scopes. */
  function Scopes(payload: JsValue): (r: seq<string>)
    ensures Get(payload, "scope").Str? ==> Join(r, ' ') == Get(payload, "scope").s && |r| >= 1
    ensures forall i | 0 <= i < |r| :: ' ' !in r[i]
    ensures !Get(payload, "scope").Str? ==> r == []
  {
    match Get(payload, "scope")
    case Str(s) => JoinSplit(s, ' '); Split(s, ' ')
    case _ => []
  }

  /** The checks `verifyAccessToken` applies to a payload whose signature, issuer and expiry passed. */
  function CheckClaims(expectedClientId: string, token: string, payload: JsValue): (r: Result<AuthInfo, ThrownError>)
    ensures Get(payload, "token_use") != Str("access") ==> r == Failure(PlainError(WrongTokenUseMessage))
    ensures r.Success? ==> r.value.token == token && r.value.expiresAt == Get(payload, "exp")
    ensures r.Success? ==> Truthy(r.value.clientId)
    ensures r.Success? && Get(payload, "scope").Str? ==> Join(r.value.scopes, ' ') == Get(payload, "scope").s
    ensures r.Success? ==> forall i | 0 <= i < |r.value.scopes| :: ' ' !in r.value.scopes[i]
    ensures r.Success? && Get(payload, "scope").Str? ==> |r.value.scopes| >= 1
    ensures r.Success? && !Get(payload, "scope").Str? ==> r.value.scopes == []
  {
    if Get(payload, "token_use") != Str("access") then
      Failure(PlainError(WrongTokenUseMessage))
    else
      var fromToken := TokenClientId(payload);
      if expectedClientId != "" && Truthy(fromToken) && fromToken != Str(expectedClientId) then
        Failure(PlainError(ClientMismatchMessage))
      else
        var clientId := Or(fromToken, Str(expectedClientId));
        if !Truthy(clientId) then
          Failure(PlainError(NoClientIdMessage))
        else
          var scope := Get(payload, "scope");
          JoinSplit(if scope.Str? then scope.s else "", ' ');
          Success(AuthInfo(token, clientId, Scopes(payload), Get(payload, "exp")))
  }

  /**
   * The client id decision for an access token: the token's id wins, the
   * configured id fills in for a token without one, and a token id that
   * differs from a configured id is refused.
   */
  lemma ClientIdResolution(expectedClientId: string, token: string, payload: JsValue)
    requires Get(payload, "token_use") == Str("access")
    ensures var tc := TokenClientId(payload);
      CheckClaims(expectedClientId, token, payload).Success? <==>
        (Truthy(tc) || expectedClientId != "") && !(expectedClientId != "" && Truthy(tc) && tc != Str(expectedClientId))
    ensures var tc := TokenClientId(payload);
      CheckClaims(expectedClientId, token, payload).Success? ==>
        CheckClaims(expectedClientId, token, payload).value.clientId == (if Truthy(tc) then tc else Str(expectedClientId))
    ensures var tc := TokenClientId(payload);
      expectedClientId != "" && Truthy(tc) && tc != Str(expectedClientId) ==>
        CheckClaims(expectedClientId, token, payload) == Failure(PlainError(ClientMismatchMessage))
  {
  }

  /**
   * `verifyAccessToken` as a function of its oracle: a missing pool id fails
   * first, any failure of `jwtVerify` becomes the 401 `invalid_token` error,
   * and a verified payload goes through `CheckClaims`.
   */
  function Verify(cfg: CognitoConfig, token: string, jwtVerify: JwtVerifier): (r: Result<AuthInfo, ThrownError>)
    ensures GetIssuer(cfg).Failure? ==> r == Failure(PlainError(PoolNotConfiguredMessage))
    ensures GetIssuer(cfg).Success? ==>
      var iss := GetIssuer(cfg).value;
      var verified := jwtVerify(token, RemoteKeySet(JwksUrl(iss)), iss);
      && (verified.Failure? ==> r == Failure(InvalidTokenError))
      && (verified.Success? ==> r == CheckClaims(cfg.appClientId, token, verified.value))
    ensures r.Success? ==> r.value.token == token
  {
    var issuer :- GetIssuer(cfg);
    match jwtVerify(token, RemoteKeySet(JwksUrl(issuer)), issuer)
    case Failure(_) => Failure(InvalidTokenError)
    case Success(payload) => CheckClaims(cfg.appClientId, token, payload)
  }

  /** A token whose `token_use` is not "access" is refused even when its signature verified. */
  lemma NonAccessTokenRejected(cfg: CognitoConfig, token: string, jwtVerify: JwtVerifier)
    requires GetIssuer(cfg).Success?
    requires var iss := GetIssuer(cfg).value;
      var verified := jwtVerify(token, RemoteKeySet(JwksUrl(iss)), iss);
      verified.Success? && Get(verified.value, "token_use") != Str("access")
    ensures Verify(cfg, token, jwtVerify) == Failure(PlainError(WrongTokenUseMessage))
  {
  }

  // ---------------------------------------------------------------- scopes

  /** `s.split(sep)` for a one-character separator: always at least one part, none containing `sep`. */
  function Split(s: string, sep: char): (parts: seq<string>)
    ensures |parts| >= 1
    ensures forall i | 0 <= i < |parts| :: sep !in parts[i]
  {
    if |s| == 0 then [""]
    else
      var rest := Split(s[1..], sep);
      if s[0] == sep then [""] + rest
      else [[s[0]] + rest[0]] + rest[1..]
  }

  /** `parts.join(sep)` */
  function Join(parts: seq<string>, sep: char): string {
    if |parts| == 0 then ""
    else if |parts| == 1 then parts[0]
    else parts[0] + [sep] + Join(parts[1..], sep)
  }

  /** Joining the split scope string gives the scope string back. */
  lemma {:induction false} JoinSplit(s: string, sep: char)
    ensures Join(Split(s, sep), sep) == s
  {
    if |s| > 0 {
      var rest := Split(s[1..], sep);
      JoinSplit(s[1..], sep);
      if s[0] == sep {
        assert Split(s, sep) == [""] + rest;
        assert ([""] + rest)[1..] == rest;
      } else {
        var parts := [[s[0]] + rest[0]] + rest[1..];
        assert Split(s, sep) == parts;
        if |rest| == 1 {
          assert Join(parts, sep) == [s[0]] + rest[0];
        } else {
          assert parts[1..] == rest[1..];
          assert Join(rest, sep) == rest[0] + [sep] + Join(rest[1..], sep);
          assert Join(parts, sep) == [s[0]] + rest[0] + [sep] + Join(rest[1..], sep);
        }
        assert s == [s[0]] + s[1..];
      }
    }
  }

  /** A string without the separator is one part. */
  lemma {:induction false} SplitWithoutSeparator(a: string, sep: char)
    requires sep !in a
    ensures Split(a, sep) == [a]
  {
    if |a| > 0 {
      SplitWithoutSeparator(a[1..], sep);
      assert [a[0]] + a[1..] == a;
    }
  }

  /** Splitting `a + sep + b`, where `a` has no separator, gives `a` then the parts of `b`. */
  lemma {:induction false} SplitAfterPart(a: string, b: string, sep: char)
    requires sep !in a
    ensures Split(a + [sep] + b, sep) == [a] + Split(b, sep)
  {
    var s := a + [sep] + b;
    if |a| == 0 {
      assert s == [sep] + b;
      assert s[1..] == b;
    } else {
      assert s[1..] == a[1..] + [sep] + b;
      SplitAfterPart(a[1..], b, sep);
      assert [a[0]] + a[1..] == a;
    }
  }

  /** Splitting the joined scope list gives the list back, when no scope contains the separator. */
  lemma {:induction false} SplitJoin(parts: seq<string>, sep: char)
    requires |parts| >= 1
    requires forall i | 0 <= i < |parts| :: sep !in parts[i]
    ensures Split(Join(parts, sep), sep) == parts
  {
    if |parts| == 1 {
      SplitWithoutSeparator(parts[0], sep);
    } else {
      SplitJoin(parts[1..], sep);
      SplitAfterPart(parts[0], Join(parts[1..], sep), sep);
      assert [parts[0]] + parts[1..] == parts;
    }
  }

  // -------------------------------------------------- Authorization header

  /** `\s` of JavaScript regular expressions. */
  predicate IsRegExpSpace(c: char) {
    var n := c as int;
    (9 <= n <= 13) || n == 0x20 || n == 0xA0 || n == 0x1680 || (0x2000 <= n <= 0x200A)
    || n == 0x2028 || n == 0x2029 || n == 0x202F || n == 0x205F || n == 0x3000 || n == 0xFEFF
  }

  /** The characters `.` does not match. */
  predicate IsLineTerminator(c: char) {
    var n := c as int;
    n == 10 || n == 13 || n == 0x2028 || n == 0x2029
  }

  predicate NoLineTerminator(s: string) {
    forall i | 0 <= i < |s| :: !IsLineTerminator(s[i])
  }

  function AsciiLower(c: char): char {
    if 'A' <= c <= 'Z' then (c as int + 32) as char else c
  }

  /** The header starts with "Bearer" in any letter case. */
  predicate HasBearerScheme(h: string) {
    |h| >= 6 && forall i | 0 <= i < 6 :: AsciiLower(h[i]) == "bearer"[i]
  }

  /** The length of the whitespace run that starts `s`. */
  function LeadingSpaces(s: string): (k: nat)
    ensures k <= |s|
    ensures forall i | 0 <= i < k :: IsRegExpSpace(s[i])
    ensures k < |s| ==> !IsRegExpSpace(s[k])
  {
    if |s| == 0 || !IsRegExpSpace(s[0]) then 0 else 1 + LeadingSpaces(s[1..])
  }

  /**
   * The token captured by /^Bearer\s+(.+)$/i. The `\s+` run is as long as
   * the match allows: all leading whitespace, or all but the last character
   * when nothing else follows.
   */
  function ParseBearer(h: string): (r: Result<string, ThrownError>)
    ensures r.Failure? ==> r.error == PlainError(MalformedAuthMessage)
    ensures r.Success? ==>
      && HasBearerScheme(h) && 1 <= |r.value| <= |h| - 7
      && IsRegExpSpace(h[6]) && r.value == h[|h| - |r.value|..]
      && NoLineTerminator(r.value)
  {
    if !HasBearerScheme(h) then Failure(PlainError(MalformedAuthMessage))
    else
      var rest := h[6..];
      var k := LeadingSpaces(rest);
      if k == 0 then Failure(PlainError(MalformedAuthMessage))
      else if k < |rest| then
        if NoLineTerminator(rest[k..]) then Success(rest[k..]) else Failure(PlainError(MalformedAuthMessage))
      else if k >= 2 && !IsLineTerminator(rest[k - 1]) then Success(rest[k - 1..])
      else Failure(PlainError(MalformedAuthMessage))
  }

  /** The regular expression matches `h` with `h[6..6 + j]` as the `\s+` run and `h[6 + j..]` as the group. */
  ghost predicate MatchAt(h: string, j: int) {
    && HasBearerScheme(h)
    && 1 <= j && 6 + j < |h|
    && (forall i | 6 <= i < 6 + j :: IsRegExpSpace(h[i]))
    && NoLineTerminator(h[6 + j..])
  }

  /**
   * ParseBearer is the regular expression: it succeeds exactly when some
   * split matches, and then returns the group of the match with the longest
   * whitespace run, the one a backtracking matcher finds first.
   */
  lemma ParseBearerIsRegExpMatch(h: string)
    ensures ParseBearer(h).Success? <==> exists j :: MatchAt(h, j)
    ensures ParseBearer(h).Success? ==>
      exists j :: MatchAt(h, j) && ParseBearer(h).value == h[6 + j..] && forall j' :: j < j' ==> !MatchAt(h, j')
    ensures ParseBearer(h).Failure? ==> ParseBearer(h).error == PlainError(MalformedAuthMessage)
  {
    if HasBearerScheme(h) {
      var rest := h[6..];
      var k := LeadingSpaces(rest);
      // A match never extends its whitespace run past the first non-space.
      forall j | MatchAt(h, j) ensures j <= k {
      }
      if k >= 1 && k < |rest| {
        if NoLineTerminator(rest[k..]) {
          assert h[6 + k..] == rest[k..];
          assert MatchAt(h, k);
        } else {
          var p :| 0 <= p < |rest[k..]| && IsLineTerminator(rest[k..][p]);
          forall j | MatchAt(h, j) ensures false {
          }
        }
      } else if k >= 1 {
        if k >= 2 && !IsLineTerminator(rest[k - 1]) {
          assert h[6 + (k - 1)..] == rest[k - 1..];
          assert MatchAt(h, k - 1);
        } else {
          forall j | MatchAt(h, j) ensures false {
          }
        }
      }
    }
  }

  /** The header a client sends for a token. */
  function BearerHeader(token: string): string {
    "Bearer " + token
  }

  /** A token that does not start with whitespace and spans one line survives the header round trip. */
  lemma BearerRoundTrip(token: string)
    requires token != [] && !IsRegExpSpace(token[0]) && NoLineTerminator(token)
    ensures ParseBearer(BearerHeader(token)) == Success(token)
  {
  }

  /** `req.headers[name]` */
  function HeaderValue(headers: map<string, string>, name: string): JsValue {
    if name in headers then Str(headers[name]) else Undefined
  }

  /** The bearer token of a request, or why there is none. */
  function BearerToken(headers: map<string, string>): (r: Result<string, ThrownError>)
    ensures (forall name | name in headers :: name !in {"authorization", "Authorization"} || headers[name] == "")
      ==> r == Failure(PlainError(MissingAuthMessage))
    ensures "authorization" in headers && headers["authorization"] != "" ==> r == ParseBearer(headers["authorization"])
    ensures (("authorization" !in headers || headers["authorization"] == "")
             && "Authorization" in headers && headers["Authorization"] != "")
      ==> r == ParseBearer(headers["Authorization"])
  {
    match Or(HeaderValue(headers, "authorization"), HeaderValue(headers, "Authorization"))
    case Str(v) => if v == "" then Failure(PlainError(MissingAuthMessage)) else ParseBearer(v)
    case _ => Failure(PlainError(MissingAuthMessage))
  }

  // -------------------------------------------------------------- username

  /** The claims consulted for the username, in priority order. */
  const UsernameClaims: seq<string> := ["username", "cognito:username", "sub"]

  /** `payload.username || payload['cognito:username'] || payload.sub` */
  function UsernameClaim(payload: JsValue): JsValue {
    Or(Or(Get(payload, "username"), Get(payload, "cognito:username")), Get(payload, "sub"))
  }

  /** The username of a verified payload: a non-empty string, or the `NoUsername` error. */
  function UsernameOf(payload: JsValue): (r: Result<string, ThrownError>)
    ensures r.Success? ==> r.value != ""
    ensures r.Failure? ==> r.error == PlainError(NoUsernameMessage)
  {
    match UsernameClaim(payload)
    case Str(u) => if u != "" then Success(u) else Failure(PlainError(NoUsernameMessage))
    case _ => Failure(PlainError(NoUsernameMessage))
  }

  /**
   * The first truthy claim of `UsernameClaims` decides: it is the username
   * when it is a string and resolution fails otherwise; later claims are
   * never consulted.
   */
  lemma UsernameIsFirstTruthyClaim(payload: JsValue, i: nat)
    requires i < |UsernameClaims|
    requires Truthy(Get(payload, UsernameClaims[i]))
    requires forall j | 0 <= j < i :: !Truthy(Get(payload, UsernameClaims[j]))
    ensures var c := Get(payload, UsernameClaims[i]);
      UsernameOf(payload) == if c.Str? then Success(c.s) else Failure(PlainError(NoUsernameMessage))
  {
    if i == 1 {
      assert !Truthy(Get(payload, UsernameClaims[0]));
    } else if i == 2 {
      assert !Truthy(Get(payload, UsernameClaims[0]));
      assert !Truthy(Get(payload, UsernameClaims[1]));
    }
  }

  /** With no truthy username claim, resolution fails. */
  lemma NoTruthyClaimNoUsername(payload: JsValue)
    requires forall j | 0 <= j < |UsernameClaims| :: !Truthy(Get(payload, UsernameClaims[j]))
    ensures UsernameOf(payload) == Failure(PlainError(NoUsernameMessage))
  {
    assert !Truthy(Get(payload, UsernameClaims[0]));
    assert !Truthy(Get(payload, UsernameClaims[1]));
    assert !Truthy(Get(payload, UsernameClaims[2]));
  }

  /**
   * `getUsernameFromRequest` as a function of its oracle: header, then
   * issuer, then signature (its error passed on as thrown), then the
   * username claims. Unlike `Verify`, `token_use` is not checked here.
   */
  function ResolveUsername(cfg: CognitoConfig, headers: map<string, string>, jwtVerify: JwtVerifier)
    : (r: Result<string, ThrownError>)
    ensures BearerToken(headers).Failure? ==> r == Failure(BearerToken(headers).error)
    ensures r.Success? ==>
      && BearerToken(headers).Success? && GetIssuer(cfg).Success?
      && var iss := GetIssuer(cfg).value;
         var verified := jwtVerify(BearerToken(headers).value, RemoteKeySet(JwksUrl(iss)), iss);
         verified.Success? && UsernameOf(verified.value) == r
    ensures r.Success? ==> r.value != ""
    ensures BearerToken(headers).Success? && GetIssuer(cfg).Failure? ==> r == Failure(GetIssuer(cfg).error)
    ensures BearerToken(headers).Success? && GetIssuer(cfg).Success? ==>
      var iss := GetIssuer(cfg).value;
      var verified := jwtVerify(BearerToken(headers).value, RemoteKeySet(JwksUrl(iss)), iss);
      && (verified.Failure? ==> r == Failure(verified.error))
      && (verified.Success? ==> r == UsernameOf(verified.value))
  {
    var token :- BearerToken(headers);
    var issuer :- GetIssuer(cfg);
    var payload :- jwtVerify(token, RemoteKeySet(JwksUrl(issuer)), issuer);
    UsernameOf(payload)
  }
}
