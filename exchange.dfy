/**
 * The three parties together: the OpenID Connect handshake between a
 * Platform and a Tool started from scratch, the deep-linking exchange
 * through the signing service back into the Platform's item store, and the
 * relaunch of a stored item. Signing and verification stay abstract; what
 * is assumed of them is that the verifier accepts what the signer produced.
 */
module Exchange {
  import opened Js
  import opened Lti
  import opened Query
  import opened PlatformClaims
  import P = Platform
  import T = ToolProvider
  import D = DevPortal
  import R = DeepLinkRoutes

  /** The session /lti/login records for a login form and nonce. */
  function SessionOf(form: P.LoginForm, nonce: string): AuthSession
  {
    AuthSession(nonce, form.loginHint, form.messageHint, form.clientId, form.targetLinkUri)
  }

  /** Every claim set the Platform signs carries the Tool's client id as
      audience and the session's nonce, and passes the Tool's claim checks
      unless the configured deployment id is empty; the Tool sends it to the
      OAuth flow exactly when the hint was not a deep-link relaunch. */
  lemma PlatformClaimsMeetToolChecks(cfg: Config, session: AuthSession, nonce: string, clock: AuthClock)
    ensures var c := AuthClaims(cfg, session, nonce, clock);
      && T.AudienceMatches(c, cfg.platformClientId)
      && StrictEqualsStr(Field(c, "nonce"), Some(nonce))
      && T.CheckClaims(c) == (if cfg.deploymentId == "" then Err(T.MissingDeploymentId) else Ok(c))
      && (T.IsDeepLinkingLaunch(c) <==> !IsDeepLinkHint(session.messageHint))
  {
    AuthClaimsIdentity(cfg, session, nonce, clock);
    AuthClaimsMessage(cfg, session, nonce, clock);
    ClaimsMeetToolChecks(AuthClaims(cfg, session, nonce, clock), cfg, nonce, IsDeepLinkHint(session.messageHint));
  }

  /** The Tool's checks on any claim set shaped like the Platform's. */
  lemma ClaimsMeetToolChecks(c: Claims, cfg: Config, nonce: string, deep: bool)
    requires "nonce" in c && c["nonce"] == JStr(nonce)
    requires "aud" in c && c["aud"] == JStr(cfg.platformClientId)
    requires MessageTypeClaim in c
    requires c[MessageTypeClaim] == JStr(ResourceLinkRequest) <==> deep
    requires c[MessageTypeClaim] == JStr(DeepLinkingRequest) <==> !deep
    requires VersionClaim in c && c[VersionClaim] == JStr(Version)
    requires DeploymentIdClaim in c && c[DeploymentIdClaim] == JStr(cfg.deploymentId)
    requires CustomClaim in c && Prop(c[CustomClaim], "route") == Some(JStr("deeplink"))
    ensures T.AudienceMatches(c, cfg.platformClientId)
    ensures StrictEqualsStr(Field(c, "nonce"), Some(nonce))
    ensures T.CheckClaims(c) == (if cfg.deploymentId == "" then Err(T.MissingDeploymentId) else Ok(c))
    ensures T.IsDeepLinkingLaunch(c) <==> !deep
  {
  }

  /** The Tool's launch with a token that verifies, for the Tool's audience,
      to a payload carrying the pending nonce: the outcome is decided by the
      claim checks alone, and a successful launch consumes the state. */
  method LaunchVerified(tool: T.Tool, jwt: string, state: string, verify: Verifier, c: Claims, nowMs: nat)
    returns (launch: T.LaunchReply)
    modifies tool
    requires jwt != "" && state != "" && Some(state) in tool.pendingStates
    requires verify(jwt) == Some(c) && T.AudienceMatches(c, tool.clientId)
    requires StrictEqualsStr(Field(c, "nonce"), tool.pendingStates[Some(state)].nonce)
    ensures launch == match T.CheckClaims(c)
      case Ok(c) => T.Route(c, state)
      case Err(f) => T.LaunchError(400, f)
    ensures T.CheckClaims(c).Ok? ==> Some(state) !in tool.pendingStates
  {
    assert T.ValidateLaunch(tool.clientId, tool.pendingStates, Some(jwt), Some(state), verify) == T.CheckClaims(c);
    launch := tool.Launch(Some(jwt), Some(state), verify, nowMs);
  }

  /** The Tool's launch with a state it no longer holds is refused. */
  method LaunchUnknownState(tool: T.Tool, jwt: string, state: string, verify: Verifier, nowMs: nat)
    returns (launch: T.LaunchReply)
    modifies tool
    requires jwt != "" && state != "" && Some(state) !in tool.pendingStates
    ensures launch == T.LaunchError(400, T.UnknownState)
  {
    launch := tool.Launch(Some(jwt), Some(state), verify, nowMs);
  }

  /** A stored item relaunched with the hint "deeplink-<id>" is signed as a
      resource-link request with resource-link, LIS and launch-presentation
      claims and no deep-linking settings. */
  lemma RelaunchIsResourceLinkRequest(cfg: Config, session: AuthSession, itemId: string, nonce: string, clock: AuthClock)
    requires session.messageHint == Some("deeplink-" + itemId)
    ensures var c := AuthClaims(cfg, session, nonce, clock);
      && MessageTypeClaim in c && c[MessageTypeClaim] == JStr(ResourceLinkRequest)
      && ResourceLinkClaim in c && LisClaim in c && LaunchPresentationClaim in c
      && DeepLinkingSettingsClaim !in c
  {
    DeepLinkHintOf(itemId);
    AuthClaimsMessage(cfg, session, nonce, clock);
    AuthClaimsBranch(cfg, session, nonce, clock);
  }

  /** A complete launch against a fresh Platform and Tool: /lti/login,
      the Tool's login initiation, /lti/auth on the forwarded query, and the
      launch with the posted id_token. With a deployment id configured, the
      launch succeeds and routes on the hint; replaying the authorization or
      the launch with the same state is refused. */
  method Handshake(cfg: Config, form: P.LoginForm, state: string, nonce: string,
                   sign: Signer, verify: Verifier, clock: AuthClock, initiatedMs: nat, launchedMs: nat)
    returns (launch: T.LaunchReply, replayedAuth: P.AuthReply, replayedLaunch: T.LaunchReply)
    requires state != "" && cfg.deploymentId != ""
    requires Accepts(verify, sign, AuthClaims(cfg, SessionOf(form, nonce), nonce, clock))
    requires sign(AuthClaims(cfg, SessionOf(form, nonce), nonce, clock)) != ""
    ensures launch == T.Route(AuthClaims(cfg, SessionOf(form, nonce), nonce, clock), state)
    ensures launch.OAuthRedirect? <==> !IsDeepLinkHint(form.messageHint)
    ensures replayedAuth == P.AuthError(400, "Invalid state parameter")
    ensures replayedLaunch == T.LaunchError(400, T.UnknownState)
  {
    PlatformClaimsMeetToolChecks(cfg, SessionOf(form, nonce), nonce, clock);
    launch, replayedAuth, replayedLaunch :=
      HandshakeSteps(cfg, form, state, nonce, sign, verify, clock, initiatedMs, launchedMs);
  }

  /** The handshake's steps, for a claim set already known to pass the
      Tool's checks. */
  method HandshakeSteps(cfg: Config, form: P.LoginForm, state: string, nonce: string,
                        sign: Signer, verify: Verifier, clock: AuthClock, initiatedMs: nat, launchedMs: nat)
    returns (launch: T.LaunchReply, replayedAuth: P.AuthReply, replayedLaunch: T.LaunchReply)
    requires state != ""
    requires var claims := AuthClaims(cfg, SessionOf(form, nonce), nonce, clock);
      && Accepts(verify, sign, claims) && sign(claims) != ""
      && T.AudienceMatches(claims, cfg.platformClientId) && StrictEqualsStr(Field(claims, "nonce"), Some(nonce))
      && T.CheckClaims(claims) == Ok(claims)
    ensures launch == T.Route(AuthClaims(cfg, SessionOf(form, nonce), nonce, clock), state)
    ensures replayedAuth == P.AuthError(400, "Invalid state parameter")
    ensures replayedLaunch == T.LaunchError(400, T.UnknownState)
  {
    var platform := new P.Platform(cfg);
    var tool := new T.Tool(cfg.platformClientId, cfg.issuer);
    var q := OpenSession(platform, tool, form, state, nonce, initiatedMs);
    var jwt;
    launch, jwt := AuthorizeAndLaunch(platform, tool, SessionOf(form, nonce), state, nonce,
                                      Get(q, "redirect_uri"), sign, verify, clock, launchedMs);
    replayedAuth, replayedLaunch := Replay(platform, tool, jwt, state, nonce, Get(q, "redirect_uri"), sign, verify, clock, launchedMs);
  }

  /** The authorization and the launch sent again once both sides have let
      go of the state: each is refused as an unknown state. */
  method Replay(platform: P.Platform, tool: T.Tool, jwt: string, state: string, nonce: string,
                redirectUri: Option<string>, sign: Signer, verify: Verifier, clock: AuthClock, nowMs: nat)
    returns (replayedAuth: P.AuthReply, replayedLaunch: T.LaunchReply)
    modifies platform, tool
    requires jwt != "" && state != ""
    requires state !in platform.authSessions && Some(state) !in tool.pendingStates
    ensures replayedAuth == P.AuthError(400, "Invalid state parameter")
    ensures replayedLaunch == T.LaunchError(400, T.UnknownState)
  {
    replayedAuth := platform.Authorize(Some(state), Some(nonce), redirectUri, sign, clock);
    replayedLaunch := LaunchUnknownState(tool, jwt, state, verify, nowMs);
  }

  /** /lti/auth for an open session, then the launch with the token it
      posts: the launch is routed on the signed claims, and both sides have
      let go of the state. */
  method AuthorizeAndLaunch(platform: P.Platform, tool: T.Tool, session: AuthSession, state: string, nonce: string,
                            redirectUri: Option<string>, sign: Signer, verify: Verifier, clock: AuthClock, nowMs: nat)
    returns (launch: T.LaunchReply, jwt: string)
    modifies platform, tool
    requires state != "" && session.nonce == nonce
    requires state in platform.authSessions && platform.authSessions[state] == session
    requires Some(state) in tool.pendingStates && tool.pendingStates[Some(state)].nonce == Some(nonce)
    requires var claims := AuthClaims(platform.cfg, session, nonce, clock);
      && Accepts(verify, sign, claims) && sign(claims) != ""
      && T.AudienceMatches(claims, tool.clientId) && StrictEqualsStr(Field(claims, "nonce"), Some(nonce))
      && T.CheckClaims(claims) == Ok(claims)
    ensures launch == T.Route(AuthClaims(platform.cfg, session, nonce, clock), state)
    ensures jwt == sign(AuthClaims(platform.cfg, session, nonce, clock))
    ensures state !in platform.authSessions && Some(state) !in tool.pendingStates
  {
    jwt := PostIdToken(platform, session, state, nonce, redirectUri, sign, clock);
    launch := LaunchVerified(tool, jwt, state, verify, AuthClaims(platform.cfg, session, nonce, clock), nowMs);
  }

  /** /lti/auth for an open session posts the token signed over the
      session's claims and closes the session. */
  method PostIdToken(platform: P.Platform, session: AuthSession, state: string, nonce: string,
                     redirectUri: Option<string>, sign: Signer, clock: AuthClock)
    returns (jwt: string)
    modifies platform
    requires session.nonce == nonce
    requires state in platform.authSessions && platform.authSessions[state] == session
    ensures jwt == sign(AuthClaims(platform.cfg, session, nonce, clock))
    ensures platform.authSessions == old(platform.authSessions) - {state}
  {
    var posted := platform.Authorize(Some(state), Some(nonce), redirectUri, sign, clock);
    jwt := posted.idToken;
  }

  /** /lti/login followed by the Tool's login initiation: both sides now
      hold the state, with the same nonce, and the query forwarded back to
      the Platform carries them. */
  method OpenSession(platform: P.Platform, tool: T.Tool, form: P.LoginForm, state: string, nonce: string, nowMs: nat)
    returns (q: Params)
    modifies platform, tool
    ensures state in platform.authSessions && platform.authSessions[state] == SessionOf(form, nonce)
    ensures Some(state) in tool.pendingStates && tool.pendingStates[Some(state)].nonce == Some(nonce)
    ensures Get(q, "state") == Some(state) && Get(q, "nonce") == Some(nonce)
  {
    var toTool := platform.Login(form, state, nonce);
    P.LoginParamsSpec(platform.cfg, form, state, nonce);
    var toPlatform := tool.LoginInitiation(toTool.query, nowMs);
    q := toPlatform.query;
  }

  /** A freshly started signing service signs the Tool's deep-link request
      exactly when the Tool's configured client id is the Platform's: the
      registry holds the latter, the request sends the former. */
  method SignOnFreshPortal(cfg: Config, body: Obj, sign: Signer, clock: D.SignClock, nonceSuffix: string)
    returns (signed: D.SignReply)
    requires R.SignRequest(cfg, body).Ok?
    ensures signed.SignError? <==> cfg.toolClientId != cfg.platformClientId
    ensures signed.Signed? ==> signed.payload == D.DeepLinkPayload(R.SignRequest(cfg, body).value, clock, nonceSuffix)
  {
    var portal := new D.DevPortal(cfg);
    signed := portal.Sign(R.SignRequest(cfg, body).value, sign, clock, nonceSuffix);
  }

  /** The payload the signing service builds from the Tool's request for a
      chosen resource: a deep-linking response from the Tool to the
      Platform holding that one resource, as the Tool copied it. */
  lemma ToolRequestPayload(cfg: Config, body: Obj, clock: D.SignClock, nonceSuffix: string)
    requires Field(body, "deepLinkData").Some? && Field(body, "deepLinkData") != Some(JNull)
    ensures var payload := D.DeepLinkPayload(R.SignRequest(cfg, body).value, clock, nonceSuffix);
      && Field(payload, MessageTypeClaim) == Some(JStr(DeepLinkingResponse))
      && Field(payload, ContentItemsClaim) == Some(JArr([JObj(R.ContentItem(body["deepLinkData"]))]))
      && Field(payload, "iss") == Some(JStr(cfg.toolClientId))
      && Field(payload, "aud") == Some(JStr(cfg.issuer))
      && Field(payload, DeploymentIdClaim) == Field(body, "deploymentId")
  {
    var request := R.SignRequest(cfg, body).value;
    D.DeepLinkPayloadFixed(request, clock, nonceSuffix);
    D.DeepLinkPayloadCopied(request, clock, nonceSuffix);
  }

  /** The Tool's deep-link endpoint answered by a freshly started signing
      service: with the Tool's client id registered, the browser gets the
      token signed over the payload, and the Platform's return URL. */
  method CreateSignedDeepLink(cfg: Config, body: Obj, sign: Signer, clock: D.SignClock, nonceSuffix: string)
    returns (created: R.Reply)
    requires Field(body, "deepLinkData").Some? && Field(body, "deepLinkData") != Some(JNull)
    requires cfg.toolClientId == cfg.platformClientId
    ensures created.Created?
    ensures Field(created.body, "jwt") == Some(JStr(sign(D.DeepLinkPayload(R.SignRequest(cfg, body).value, clock, nonceSuffix))))
    ensures Field(created.body, "returnUrl") == Some(JStr(R.ReturnUrl))
  {
    var request := R.SignRequest(cfg, body).value;
    var portal := new D.DevPortal(cfg);
    var signed := portal.Sign(request, sign, clock, nonceSuffix);
    var answer := D.SignHttp(signed);
    created := R.HandleSignerReply(R.Answered(true, answer.0, Some(answer.1)));
  }

  /** A fresh Platform's return endpoint given a token that verifies to a
      deep-linking response with one content item: the store holds exactly
      that item, unchanged, under the first generated id, and its relaunch
      page is a deep-link relaunch of the item's URL. */
  method ReceiveOneItem(cfg: Config, jwt: string, verify: Verifier, itemClock: nat -> nat, payload: Claims, item: Obj)
    returns (received: P.DeepLinkReply, stored: map<string, Json>, page: P.ItemPage)
    requires jwt != "" && verify(jwt) == Some(payload)
    requires Field(payload, MessageTypeClaim) == Some(JStr(DeepLinkingResponse))
    requires Field(payload, ContentItemsClaim) == Some(JArr([JObj(item)]))
    ensures received == P.ItemsReceived([P.DeepLinkItemId(itemClock(0), 0)])
    ensures stored == map[P.DeepLinkItemId(itemClock(0), 0) := JObj(item)]
    ensures page.LaunchItemForm?
    ensures page.form.messageHint == Some("deeplink-" + P.DeepLinkItemId(itemClock(0), 0))
    ensures page.form.targetLinkUri == Some(OptString(Field(item, "url")))
  {
    var platform := new P.Platform(cfg);
    var id := P.DeepLinkItemId(itemClock(0), 0);
    assert P.ItemIds(1, itemClock) == [id];
    assert P.StoreItems(map[], [JObj(item)], itemClock, 0) == map[id := JObj(item)] by {
      assert P.StoreItems(map[id := JObj(item)], [JObj(item)], itemClock, 1) == map[id := JObj(item)];
    }
    received := platform.ReceiveDeepLink(Some(jwt), verify, itemClock);
    stored := platform.deepLinkItems;
    page := platform.DeepLinkLaunchPage(id);
  }

  /** The deep-linking exchange end to end: the Tool builds the request, the
      signing service signs it, the Tool hands the token to the browser,
      which posts it to a fresh Platform's return endpoint. The chosen
      resource, as the Tool's content item, is the only entry of the store,
      under the first generated id, and its relaunch page asks for a
      deep-link relaunch of the resource's URL. */
  method DeepLinkRoundTrip(cfg: Config, body: Obj, sign: Signer, verify: Verifier,
                           signClock: D.SignClock, nonceSuffix: string, itemClock: nat -> nat)
    returns (created: R.Reply, received: P.DeepLinkReply, stored: map<string, Json>, page: P.ItemPage)
    requires Field(body, "deepLinkData").Some? && Field(body, "deepLinkData") != Some(JNull)
    requires cfg.toolClientId == cfg.platformClientId
    requires Accepts(verify, sign, D.DeepLinkPayload(R.SignRequest(cfg, body).value, signClock, nonceSuffix))
    requires sign(D.DeepLinkPayload(R.SignRequest(cfg, body).value, signClock, nonceSuffix)) != ""
    ensures created.Created? && Field(created.body, "returnUrl") == Some(JStr(R.ReturnUrl))
    ensures received == P.ItemsReceived([P.DeepLinkItemId(itemClock(0), 0)])
    ensures stored == map[P.DeepLinkItemId(itemClock(0), 0) := JObj(R.ContentItem(body["deepLinkData"]))]
    ensures page.LaunchItemForm?
    ensures page.form.messageHint == Some("deeplink-" + P.DeepLinkItemId(itemClock(0), 0))
    ensures page.form.targetLinkUri == Some(OptString(Prop(body["deepLinkData"], "url")))
  {
    var payload := D.DeepLinkPayload(R.SignRequest(cfg, body).value, signClock, nonceSuffix);
    ToolRequestPayload(cfg, body, signClock, nonceSuffix);
    created := CreateSignedDeepLink(cfg, body, sign, signClock, nonceSuffix);
    received, stored, page := ReceiveOneItem(cfg, sign(payload), verify, itemClock, payload, R.ContentItem(body["deepLinkData"]));
  }
}
