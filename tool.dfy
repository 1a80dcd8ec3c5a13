/**
 * The Tool's side of the launch (routes/tool-routes.js): the OpenID Connect
 * login initiation, which records a pending state and bounces the browser
 * back to the Platform, and the launch endpoint, which validates the
 * id_token through a fixed sequence of guards, moves the state from the
 * pending map to the session map, and picks the route.
 */
module ToolProvider {
  import opened Js
  import opened Lti
  import opened Query

  /** What the login initiation remembers under a state. */
  datatype PendingState = PendingState(nonce: Option<string>, timestamp: nat)

  /** What a successful launch remembers under its state. */
  datatype LtiSession = LtiSession(claims: Claims, timestamp: nat)

  /** The launch endpoint's guards, in the order they run; each failure is
      answered with 400 and its own message. */
  datatype LaunchFailure =
    | MissingParameters   // no id_token or no state in the form
    | UnknownState        // state not pending
    | VerificationFailed  // signature, validity period or audience rejected
    | NonceMismatch       // token nonce differs from the pending one
    | InvalidMessageType  // neither a resource-link nor a deep-linking request
    | InvalidVersion      // version other than 1.3.0
    | MissingDeploymentId // deployment_id absent or falsy

  datatype LaunchReply =
    | OAuthRedirect(url: Url)
    | LaunchPage(claims: Claims, state: string)
    | LaunchError(status: nat, failure: LaunchFailure)

  /** jose's audience check: `aud` is the expected audience or an array
      holding it. */
  predicate AudienceMatches(c: Claims, audience: string)
  {
    "aud" in c && (c["aud"] == JStr(audience) || (c["aud"].JArr? && JStr(audience) in c["aud"].items))
  }

  /** `['LtiResourceLinkRequest', 'LtiDeepLinkingRequest'].includes(messageType)` */
  predicate KnownMessageType(c: Claims)
  {
    StrictEqualsStr(Field(c, MessageTypeClaim), Some(ResourceLinkRequest))
    || StrictEqualsStr(Field(c, MessageTypeClaim), Some(DeepLinkingRequest))
  }

  /** The claim checks after the nonce: message type, version, deployment. */
  function CheckClaims(c: Claims): (r: Result<Claims, LaunchFailure>)
    ensures r.Ok? <==> KnownMessageType(c) && StrictEqualsStr(Field(c, VersionClaim), Some(Version))
                       && Truthy(Field(c, DeploymentIdClaim))
    ensures r.Ok? ==> r.value == c
    ensures r == Err(InvalidMessageType) <==> !KnownMessageType(c)
    ensures r == Err(InvalidVersion) <==>
      KnownMessageType(c) && !StrictEqualsStr(Field(c, VersionClaim), Some(Version))
    ensures r == Err(MissingDeploymentId) <==>
      KnownMessageType(c) && StrictEqualsStr(Field(c, VersionClaim), Some(Version)) && !Truthy(Field(c, DeploymentIdClaim))
  {
    if !KnownMessageType(c) then Err(InvalidMessageType)
    else if !StrictEqualsStr(Field(c, VersionClaim), Some(Version)) then Err(InvalidVersion)
    else if !Truthy(Field(c, DeploymentIdClaim)) then Err(MissingDeploymentId)
    else Ok(c)
  }

  /** The launch endpoint's validation: parameters, pending state, token
      verification (with the configured client id as audience), nonce, and
      the claim checks, in that order; the verified payload on success. */
  function ValidateLaunch(clientId: string, pending: map<Option<string>, PendingState>,
                          idToken: Option<string>, state: Option<string>, verify: Verifier): (r: Result<Claims, LaunchFailure>)
  {
    if !TruthyStr(idToken) || !TruthyStr(state) then Err(MissingParameters)
    else if state !in pending then Err(UnknownState)
    else
      var verified := verify(idToken.value);
      if verified.None? || !AudienceMatches(verified.value, clientId) then Err(VerificationFailed)
      else if !StrictEqualsStr(Field(verified.value, "nonce"), pending[state].nonce) then Err(NonceMismatch)
      else CheckClaims(verified.value)
  }

  /** The guards of the launch endpoint, tried in order: each failure is
      reported exactly when every earlier guard passed and its own did not,
      and the claim checks see only a token that passed the first four. */
  lemma ValidateLaunchGuards(clientId: string, pending: map<Option<string>, PendingState>,
                             idToken: Option<string>, state: Option<string>, verify: Verifier)
    // the form is checked before anything is looked up
    ensures ValidateLaunch(clientId, pending, idToken, state, verify) == Err(MissingParameters) <==>
      !TruthyStr(idToken) || !TruthyStr(state)
    ensures ValidateLaunch(clientId, pending, idToken, state, verify) == Err(UnknownState) <==>
      TruthyStr(idToken) && TruthyStr(state) && state !in pending
    // the token is verified before its nonce is compared
    ensures ValidateLaunch(clientId, pending, idToken, state, verify) == Err(VerificationFailed) <==>
      TruthyStr(idToken) && TruthyStr(state) && state in pending
      && (verify(idToken.value).None? || !AudienceMatches(verify(idToken.value).value, clientId))
    ensures ValidateLaunch(clientId, pending, idToken, state, verify) == Err(NonceMismatch) <==>
      TruthyStr(idToken) && TruthyStr(state) && state in pending
      && verify(idToken.value).Some? && AudienceMatches(verify(idToken.value).value, clientId)
      && !StrictEqualsStr(Field(verify(idToken.value).value, "nonce"), pending[state].nonce)
    // the claim checks run on a token that passed all of the above
    ensures var r := ValidateLaunch(clientId, pending, idToken, state, verify);
      r.Ok? || r == Err(InvalidMessageType) || r == Err(InvalidVersion) || r == Err(MissingDeploymentId) ==>
        && TruthyStr(idToken) && TruthyStr(state) && state in pending
        && verify(idToken.value).Some? && AudienceMatches(verify(idToken.value).value, clientId)
        && StrictEqualsStr(Field(verify(idToken.value).value, "nonce"), pending[state].nonce)
        && r == CheckClaims(verify(idToken.value).value)
  {
  }

  const DefaultPlatformUrl := "http://localhost:3000/"

  /** `http://localhost:3001/tlocode?...&state=${state}`: the Tool's OAuth
      callback, carrying the launch state. */
  function TloCallback(state: string): string
  {
    "http://localhost:3001/tlocode?scope=*&response_type=code&client_id=mock-client&state=" + state
  }

  /** The authorization-code request a deep-linking launch redirects to, on
      the Platform's front end (`tool_platform.url`, or the default). */
  function OAuthRedirectUrl(claims: Claims, state: string): (u: Url)
    ensures Get(u.query, "redirect_uri") == Some(TloCallback(state))
    ensures Get(u.query, "one_time_session_token") == Some(OptString(Field(claims, SessionTokenClaim)))
  {
    var frontEnd := JsString(OrElse(OptProp(Field(claims, ToolPlatformClaim), "url"), JStr(DefaultPlatformUrl)));
    Url(frontEnd + "learn/api/public/v1/oauth2/authorizationcode",
        [("redirect_uri", TloCallback(state)),
         ("one_time_session_token", OptString(Field(claims, SessionTokenClaim)))])
  }

  /** Whether a validated launch goes on to the OAuth flow. */
  predicate IsDeepLinkingLaunch(claims: Claims)
  {
    StrictEqualsStr(Field(claims, MessageTypeClaim), Some(DeepLinkingRequest))
    && StrictEqualsStr(OptProp(Field(claims, CustomClaim), "route"), Some("deeplink"))
  }

  /** The reply to a validated launch. */
  function Route(claims: Claims, state: string): (reply: LaunchReply)
    ensures reply.OAuthRedirect? <==> IsDeepLinkingLaunch(claims)
    ensures reply.OAuthRedirect? ==> reply.url == OAuthRedirectUrl(claims, state)
    ensures reply.LaunchPage? ==> reply.claims == claims && reply.state == state
  {
    if IsDeepLinkingLaunch(claims) then OAuthRedirect(OAuthRedirectUrl(claims, state))
    else LaunchPage(claims, state)
  }

  /** The front end the OAuth redirect is built on: the platform's URL when it
      is a non-empty string, otherwise the default. */
  lemma OAuthRedirectFrontEnd(claims: Claims, state: string)
    ensures var u := OAuthRedirectUrl(claims, state);
      var url := OptProp(Field(claims, ToolPlatformClaim), "url");
      && (url.Some? && url.value.JStr? && url.value.s != "" ==>
            u.base == url.value.s + "learn/api/public/v1/oauth2/authorizationcode")
      && (!Truthy(url) ==> u.base == DefaultPlatformUrl + "learn/api/public/v1/oauth2/authorizationcode")
  {
  }

  class Tool {
    const clientId: string
    const platformIssuer: string
    /** `pendingStates`: states awaiting a launch; the key is undefined when
        the login initiation carried no state. */
    var pendingStates: map<Option<string>, PendingState>
    /** `ltiSessions`: validated launches, keyed by state. */
    var ltiSessions: map<string, LtiSession>

    constructor(clientId: string, platformIssuer: string)
      ensures this.clientId == clientId && this.platformIssuer == platformIssuer
      ensures pendingStates == map[] && ltiSessions == map[]
    {
      this.clientId := clientId;
      this.platformIssuer := platformIssuer;
      pendingStates := map[];
      ltiSessions := map[];
    }

    /** GET /oidc/login_initiations: records the nonce under the state and
        forwards every query parameter, unchanged, to the Platform's
        authorization endpoint. */
    method LoginInitiation(query: Params, nowMs: nat) returns (redirect: Url)
      modifies this`pendingStates
      ensures pendingStates == old(pendingStates)[Get(query, "state") := PendingState(Get(query, "nonce"), nowMs)]
      ensures redirect == Url(platformIssuer + "/lti/auth", query)
    {
      pendingStates := pendingStates[Get(query, "state") := PendingState(Get(query, "nonce"), nowMs)];
      redirect := Url(platformIssuer + "/lti/auth", query);
    }

    /** POST /lti13: on a failed guard nothing changes; on success the
        verified claims are stored under the state, the state stops being
        pending, and the launch is routed. */
    method Launch(idToken: Option<string>, state: Option<string>, verify: Verifier, nowMs: nat)
      returns (reply: LaunchReply)
      modifies this`pendingStates, this`ltiSessions
      ensures match ValidateLaunch(clientId, old(pendingStates), idToken, state, verify)
        case Err(f) =>
          reply == LaunchError(400, f)
          && pendingStates == old(pendingStates) && ltiSessions == old(ltiSessions)
        case Ok(claims) =>
          && ltiSessions == old(ltiSessions)[state.value := LtiSession(claims, nowMs)]
          && pendingStates == old(pendingStates) - {state}
          && reply == Route(claims, state.value)
    {
      match ValidateLaunch(clientId, pendingStates, idToken, state, verify)
      case Err(f) =>
        reply := LaunchError(400, f);
      case Ok(claims) =>
        ltiSessions := ltiSessions[state.value := LtiSession(claims, nowMs)];
        pendingStates := pendingStates - {state};
        reply := Route(claims, state.value);
    }
  }
}
