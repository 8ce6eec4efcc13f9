/**
 * The authorization server metadata the server publishes (section 2 of
 * RFC 8414): the user pool's issuer and the hosted-domain OAuth endpoints,
 * plus the static capability lists, PKCE with S256 only (section 4.2 of
 * RFC 7636).
 */
module OAuth {
  import opened Wrappers
  import opened Js
  import opened Cognito
  import TokenVerifier

  const HttpsScheme := "https://"
  const MissingPoolMessage := "Missing COGNITO_USER_POOL_ID in environment"

  datatype OAuthUrls = OAuthUrls(
    issuer: string,
    authorizationEndpoint: string,
    tokenEndpoint: string,
    userinfoEndpoint: string)

  datatype OAuthMetadata = OAuthMetadata(
    urls: OAuthUrls,
    responseTypesSupported: seq<string>,
    grantTypesSupported: seq<string>,
    scopesSupported: seq<string>,
    codeChallengeMethodsSupported: seq<string>)

  /** The hosted domain as an origin: prefixed with "https://" unless it already starts with it. */
  function Hosted(domain: string): (hosted: string)
    ensures StartsWith(hosted, HttpsScheme)
    ensures StartsWith(domain, HttpsScheme) ==> hosted == domain
    ensures !StartsWith(domain, HttpsScheme) ==> hosted[|HttpsScheme|..] == domain
  {
    if StartsWith(domain, HttpsScheme) then domain else HttpsScheme + domain
  }

  /** Prefixing a domain that is already an https origin changes nothing. */
  lemma HostedIdempotent(domain: string)
    ensures Hosted(Hosted(domain)) == Hosted(domain)
  {
  }

  /** `createOAuthUrls`: fails without a pool id; otherwise the issuer and three endpoints under one host. */
  function CreateOAuthUrls(cfg: CognitoConfig): (r: Result<OAuthUrls, ThrownError>)
    ensures r.Failure? <==> cfg.userPoolId == ""
    ensures r.Failure? ==> r.error == PlainError(MissingPoolMessage)
    ensures r.Success? ==>
      var hosted := Hosted(cfg.domain);
      && r.value.authorizationEndpoint == hosted + "/oauth2/authorize"
      && r.value.tokenEndpoint == hosted + "/oauth2/token"
      && r.value.userinfoEndpoint == hosted + "/oauth2/userInfo"
  {
    if cfg.userPoolId == "" then Failure(PlainError(MissingPoolMessage))
    else
      var issuer := "https://cognito-idp." + cfg.region + ".amazonaws.com/" + cfg.userPoolId;
      var hosted := Hosted(cfg.domain);
      Success(OAuthUrls(issuer, hosted + "/oauth2/authorize", hosted + "/oauth2/token", hosted + "/oauth2/userInfo"))
  }

  /**
   * The published issuer is the one tokens are verified against: both
   * modules fail on the same configurations and agree on the string
   * otherwise.
   */
  lemma IssuerAgreesWithVerifier(cfg: CognitoConfig)
    ensures CreateOAuthUrls(cfg).Success? <==> TokenVerifier.GetIssuer(cfg).Success?
    ensures CreateOAuthUrls(cfg).Success? ==> CreateOAuthUrls(cfg).value.issuer == TokenVerifier.GetIssuer(cfg).value
  {
  }

  /** Every advertised endpoint is an https URL on the hosted domain. */
  lemma EndpointsAreHttps(cfg: CognitoConfig)
    requires CreateOAuthUrls(cfg).Success?
    ensures var u := CreateOAuthUrls(cfg).value;
      && StartsWith(u.authorizationEndpoint, HttpsScheme)
      && StartsWith(u.tokenEndpoint, HttpsScheme)
      && StartsWith(u.userinfoEndpoint, HttpsScheme)
  {
  }

  /**
   * `oauthMetadata`, evaluated when the module loads: the URLs plus the
   * authorization-code flow with refresh tokens, OpenID scopes and PKCE S256.
   */
  function Metadata(cfg: CognitoConfig): (r: Result<OAuthMetadata, ThrownError>)
    ensures r.Failure? <==> cfg.userPoolId == ""
    ensures r.Success? ==> CreateOAuthUrls(cfg) == Success(r.value.urls)
    ensures r.Success? ==> r.value.responseTypesSupported == ["code"]
    ensures r.Success? ==> r.value.grantTypesSupported == ["authorization_code", "refresh_token"]
    ensures r.Success? ==> r.value.codeChallengeMethodsSupported == ["S256"]
    ensures r.Success? ==> r.value.scopesSupported == ["openid", "email", "profile"]
  {
    var urls :- CreateOAuthUrls(cfg);
    Success(OAuthMetadata(
      urls,
      ["code"],
      ["authorization_code", "refresh_token"],
      ["openid", "email", "profile"],
      ["S256"]))
  }
}
