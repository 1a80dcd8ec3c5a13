/**
 * The signing and token service (dev-portal.js): a registry of tools filled
 * at start-up, the deep-linking response signer, the OAuth token exchange,
 * and the per-tool key-set lookup. The registry is the only state; every
 * handler reads it and builds its reply as an expression.
 */
module DevPortal {
  import opened Js
  import opened Lti

  /** One entry of `registeredTools`. */
  datatype ToolRegistration = ToolRegistration(
    clientId: string, jwksUri: string, platformIssuer: string, deploymentId: string)

  const ToolJwksUri := "http://localhost:3001/.well-known/jwks.json"
  const NotRegisteredMessage := "Tool not registered in dev portal"
  const AuthorizationCodeGrant := "authorization_code"
  const AccessTokenPrefix := "dev_portal_access_"
  const DeepLinkNoncePrefix := "deep-link-"
  const TokenScope :=
    "https://purl.imsglobal.org/spec/lti-ags/scope/lineitem https://purl.imsglobal.org/spec/lti-nrps/scope/contextmembership.readonly"
  /** Lifetime of a signed deep-linking response, in seconds. */
  const ResponseLifetime := 600
  /** `expires_in` of an issued access token, in seconds. */
  const TokenLifetime := 3600

  /** The two `Date.now()` readings the signer takes, for `exp` and for `iat`. */
  datatype SignClock = SignClock(expMs: nat, iatMs: nat)

  datatype SignReply =
    | Signed(jwt: string, payload: Claims, returnUrl: Option<Json>)
    | SignError(status: nat, message: string)

  datatype TokenReply =
    | TokenIssued(accessToken: string, tokenType: string, expiresIn: nat, scope: string)
    | TokenError(status: nat, error: string)

  datatype JwksReply = Jwks(keys: Json) | JwksError(status: nat, error: string)

  /** The `LtiDeepLinkingResponse` payload built from a signing request: the
      requesting tool as issuer, the platform as audience, and the request's
      deployment id, content items and data as they came (undefined ones
      dropped by serialisation). */
  function DeepLinkPayload(body: Obj, clock: SignClock, nonceSuffix: string): Claims
  {
    PassThrough(FixedClaims(clock, nonceSuffix), body)
  }

  /** The claims the signer fills in itself. */
  function FixedClaims(clock: SignClock, nonceSuffix: string): (c: Claims)
    ensures c.Keys == {"exp", "iat", "nonce", MessageTypeClaim, VersionClaim}
  {
    map[
      "exp" := JNum(Seconds(clock.expMs) + ResponseLifetime),
      "iat" := JNum(Seconds(clock.iatMs)),
      "nonce" := JStr(DeepLinkNoncePrefix + nonceSuffix),
      MessageTypeClaim := JStr(DeepLinkingResponse),
      VersionClaim := JStr(Version)]
  }

  /** `fixed` with the request fields the signer copies. */
  function PassThrough(fixed: Claims, body: Obj): Claims
  {
    var withIss := WithField(fixed, "iss", Field(body, "clientId"));
    var withAud := WithField(withIss, "aud", Field(body, "platformIssuer"));
    var withDeployment := WithField(withAud, DeploymentIdClaim, Field(body, "deploymentId"));
    var withItems := WithField(withDeployment, ContentItemsClaim, Field(body, "contentItems"));
    WithField(withItems, DataClaim, Field(body, "data"))
  }

  /** The payload's fixed claims: a version 1.3.0 deep-linking response that
      expires 600 seconds after it was issued (when both clock readings fall
      in the same second). */
  lemma DeepLinkPayloadFixed(body: Obj, clock: SignClock, nonceSuffix: string)
    ensures var c := DeepLinkPayload(body, clock, nonceSuffix);
      && Field(c, MessageTypeClaim) == Some(JStr(DeepLinkingResponse))
      && Field(c, VersionClaim) == Some(JStr(Version))
      && Field(c, "nonce") == Some(JStr(DeepLinkNoncePrefix + nonceSuffix))
      && Field(c, "iat") == Some(JNum(Seconds(clock.iatMs)))
      && Field(c, "exp") == Some(JNum(Seconds(clock.expMs) + ResponseLifetime))
      && (Seconds(clock.expMs) == Seconds(clock.iatMs) ==> c["exp"].n == c["iat"].n + ResponseLifetime)
  {
    var fixed := FixedClaims(clock, nonceSuffix);
    PassThroughKeep(fixed, body, MessageTypeClaim);
    PassThroughKeep(fixed, body, VersionClaim);
    PassThroughKeep(fixed, body, "nonce");
    PassThroughKeep(fixed, body, "iat");
    PassThroughKeep(fixed, body, "exp");
  }

  /** The payload's copied claims: each one is the request's field, verbatim,
      and present exactly when the request had it. */
  lemma DeepLinkPayloadCopied(body: Obj, clock: SignClock, nonceSuffix: string)
    ensures var c := DeepLinkPayload(body, clock, nonceSuffix);
      && Field(c, "iss") == Field(body, "clientId")
      && Field(c, "aud") == Field(body, "platformIssuer")
      && Field(c, DeploymentIdClaim) == Field(body, "deploymentId")
      && Field(c, ContentItemsClaim) == Field(body, "contentItems")
      && Field(c, DataClaim) == Field(body, "data")
  {
    var fixed := FixedClaims(clock, nonceSuffix);
    FixedNotPassedThrough(fixed.Keys);
    PassThroughCopies(fixed, body);
  }

  /** None of the claims the signer fills in is one it copies. */
  lemma FixedNotPassedThrough(keys: set<string>)
    requires keys == {"exp", "iat", "nonce", MessageTypeClaim, VersionClaim}
    ensures "iss" !in keys && "aud" !in keys && DeploymentIdClaim !in keys
    ensures ContentItemsClaim !in keys && DataClaim !in keys
  {
  }

  /** Copying the request fields leaves a claim outside them as it was. */
  lemma PassThroughKeep(fixed: Obj, body: Obj, k: string)
    requires k in fixed
    requires k != "iss" && k != "aud" && k != DeploymentIdClaim && k != ContentItemsClaim && k != DataClaim
    ensures Field(PassThrough(fixed, body), k) == Some(fixed[k])
  {
  }

  /** Copying the request fields into claims absent from `fixed`. */
  lemma PassThroughCopies(fixed: Obj, body: Obj)
    requires "iss" !in fixed && "aud" !in fixed && DeploymentIdClaim !in fixed
    requires ContentItemsClaim !in fixed && DataClaim !in fixed
    ensures var c := PassThrough(fixed, body);
      && Field(c, "iss") == Field(body, "clientId")
      && Field(c, "aud") == Field(body, "platformIssuer")
      && Field(c, DeploymentIdClaim) == Field(body, "deploymentId")
      && Field(c, ContentItemsClaim) == Field(body, "contentItems")
      && Field(c, DataClaim) == Field(body, "data")
  {
  }

  /** The registry as start-up leaves it: the demo tool, registered under the
      platform's client id, with the Tool's key-set URL. */
  function StartupRegistry(cfg: Config): (m: map<string, ToolRegistration>)
    ensures m.Keys == {cfg.platformClientId}
    ensures m[cfg.platformClientId].jwksUri == ToolJwksUri
  {
    map[cfg.platformClientId := ToolRegistration(cfg.platformClientId, ToolJwksUri, cfg.issuer, cfg.deploymentId)]
  }

  /** The HTTP answer of the signing endpoint: the token, the exact payload
      that was signed and the return URL, or the error message. */
  function SignHttp(r: SignReply): (answer: (nat, Json))
    ensures r.Signed? ==>
      && answer.0 == 200
      && Prop(answer.1, "jwt") == Some(JStr(r.jwt))
      && Prop(answer.1, "payload") == Some(JObj(r.payload))
      && Prop(answer.1, "returnUrl") == r.returnUrl
    ensures r.SignError? ==> answer.0 == r.status && Prop(answer.1, "error") == Some(JStr(r.message))
  {
    match r
    case Signed(jwt, payload, returnUrl) =>
      (200, JObj(WithField(map["jwt" := JStr(jwt), "payload" := JObj(payload)], "returnUrl", returnUrl)))
    case SignError(status, message) => (status, JObj(map["error" := JStr(message)]))
  }

  class DevPortal {
    /** `registeredTools`, keyed by client id. */
    var registeredTools: map<string, ToolRegistration>

    /** Start-up registration of the demo tool. */
    constructor(cfg: Config)
      ensures registeredTools == StartupRegistry(cfg)
    {
      registeredTools := StartupRegistry(cfg);
    }

    /** `registeredTools.get(clientId)` finds an entry: only a string key can. */
    predicate Registered(clientId: Option<Json>)
      reads this
    {
      clientId.Some? && clientId.value.JStr? && clientId.value.s in registeredTools
    }

    /** POST /api/v1/deeplink/sign: an unregistered client is refused; a
        registered one gets its payload signed and returned together with
        the request's return URL. */
    function Sign(body: Obj, sign: Signer, clock: SignClock, nonceSuffix: string): (r: SignReply)
      reads this
      ensures r.SignError? <==> !Registered(Field(body, "clientId"))
      ensures r.SignError? ==> r.status == 500 && r.message == NotRegisteredMessage
      ensures r.Signed? ==>
        && r.payload == DeepLinkPayload(body, clock, nonceSuffix)
        && r.jwt == sign(r.payload)
        && r.returnUrl == Field(body, "returnUrl")
    {
      if !Registered(Field(body, "clientId")) then SignError(500, NotRegisteredMessage)
      else
        var payload := DeepLinkPayload(body, clock, nonceSuffix);
        Signed(sign(payload), payload, Field(body, "returnUrl"))
    }

    /** POST /api/v1/oauth/token: the grant type is checked before the
        client (400 `unsupported_grant_type`, then 401 `invalid_client`);
        a token is issued only when both pass. */
    function Token(body: Obj, tokenSuffix: string): (r: TokenReply)
      reads this
      ensures !StrictEqualsStr(Field(body, "grant_type"), Some(AuthorizationCodeGrant)) ==>
        r == TokenError(400, "unsupported_grant_type")
      ensures (StrictEqualsStr(Field(body, "grant_type"), Some(AuthorizationCodeGrant))
               && !Registered(Field(body, "client_id"))) ==> r == TokenError(401, "invalid_client")
      ensures r.TokenIssued? <==>
        StrictEqualsStr(Field(body, "grant_type"), Some(AuthorizationCodeGrant)) && Registered(Field(body, "client_id"))
      ensures r.TokenIssued? ==>
        && r.accessToken == AccessTokenPrefix + tokenSuffix
        && r.tokenType == "Bearer" && r.expiresIn == TokenLifetime && r.scope == TokenScope
    {
      if !StrictEqualsStr(Field(body, "grant_type"), Some(AuthorizationCodeGrant)) then
        TokenError(400, "unsupported_grant_type")
      else if !Registered(Field(body, "client_id")) then TokenError(401, "invalid_client")
      else TokenIssued(AccessTokenPrefix + tokenSuffix, "Bearer", TokenLifetime, TokenScope)
    }

    /** GET /api/v1/management/applications/:clientId/jwks.json: 404 for an
        unknown client; otherwise the key set fetched from the registered
        URL (`fetch` gives the parsed body, None when the fetch or the
        parse throws), or 500. */
    function ManagementJwks(clientId: string, fetch: string -> Option<Json>): (r: JwksReply)
      reads this
      ensures clientId !in registeredTools ==> r == JwksError(404, "Tool not registered")
      ensures clientId in registeredTools ==>
        match fetch(registeredTools[clientId].jwksUri)
        case Some(keys) => r == Jwks(keys)
        case None => r == JwksError(500, "Failed to fetch tool JWKS")
    {
      if clientId !in registeredTools then JwksError(404, "Tool not registered")
      else
        match fetch(registeredTools[clientId].jwksUri)
        case Some(keys) => Jwks(keys)
        case None => JwksError(500, "Failed to fetch tool JWKS")
    }
  }
}
