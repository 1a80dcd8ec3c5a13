/**
 * The claim set the Platform's authorization endpoint signs into the
 * id_token (routes/platform-routes.js, GET /lti/auth). It is one expression
 * whose shape depends only on whether the message hint recorded at login
 * starts with "deeplink-".
 */
module PlatformClaims {
  import opened Js
  import opened Lti

  /** What POST /lti/login records under a fresh `state`. */
  datatype AuthSession = AuthSession(
    nonce: string,
    loginHint: Option<string>,
    messageHint: Option<string>,
    clientId: Option<string>,
    targetLinkUri: Option<string>)

  /** The three `Date.now()` readings the claim set is built from: one for
      `exp`, one for `iat`, and one for the launch-presentation return URL. */
  datatype AuthClock = AuthClock(expMs: nat, iatMs: nat, launchMs: nat)

  /** `lti_message_hint?.startsWith('deeplink-')` */
  predicate IsDeepLinkHint(hint: Option<string>)
  {
    hint.Some? && StartsWith(hint.value, "deeplink-")
  }

  /** A hint built as "deeplink-<item id>" always selects the deep-link branch. */
  lemma DeepLinkHintOf(itemId: string)
    ensures IsDeepLinkHint(Some("deeplink-" + itemId))
  {
    StartsWithAppend("deeplink-", itemId);
  }

  // Long literals of the payload, named so the verifier treats them as values.
  const CaliperSessionId := "https://caliper-mapping.cloudbb.blackboard.com/v1/sites/9970f70e-7ebb-4f87-b372-06d5c2d26cbd/sessions/02ABAC7AC7E7B601BFC8B5D09D99E9CA"
  const CaliperProfilePath := "/learn/api/v1/telemetry/caliper/profile"
  const LaunchReturnPath := "/webapps/blackboard/execute/blti/launchReturn?course_id=_612_1&content_id=_3760_1&toGC=false&nonce=9b65f483a1e84253a583b495ffc55317&launch_id=5f6d7da9-bc00-47ca-a060-a3593aaa8b49&link_id=_3760_1&launch_time="
  const DeepLinkingData := "_612_1::_1827_1::0::false::true::_366_1::99bfaa1f39fd4dd299033c0c6125c7c8::false::false"
  const LearnerRole := "http://purl.imsglobal.org/vocab/lis/v2/membership#Learner"
  const AdministratorRole := "http://purl.imsglobal.org/vocab/lis/v2/system/person#Administrator"
  const CourseOffering := "http://purl.imsglobal.org/vocab/lis/v2/course#CourseOffering"
  const MembershipScope := "https://purl.imsglobal.org/spec/lti-nrps/scope/contextmembership.readonly"
  const LineItemScope := "https://purl.imsglobal.org/spec/lti-ags/scope/lineitem"
  const ResultScope := "https://purl.imsglobal.org/spec/lti-ags/scope/result.readonly"
  const ScoreScope := "https://purl.imsglobal.org/spec/lti-ags/scope/score"
  const LineItemReadScope := "https://purl.imsglobal.org/spec/lti-ags/scope/lineitem.readonly"
  const GroupScope := "https://purl.imsglobal.org/spec/lti-gs/scope/contextgroup.readonly"
  const DeepLinkReturnUrl := "http://localhost:3000/webapps/blackboard/controller/lti/v2/deeplinking"
  const CourseId := "3d536dd2cf504f31b94d3670706a98a4"
  const LearnCourse := "/learn/api/v1/lti/courses/_612_1"

  function Custom(cfg: Config, deep: bool): Json
  {
    if deep then
      JObj(map[
        "route" := JStr("deeplink"),
        "caliper_profile_url" := JStr(cfg.issuer + CaliperProfilePath),
        "caliper_federated_session_id" := JStr(CaliperSessionId),
        "demo" := JStr("true"),
        "contentType" := JStr("ltiResourceLink")])
    else
      JObj(map["route" := JStr("deeplink")])
  }

  /** Both variants route the Tool to its deep-linking flow. */
  lemma CustomRoute(cfg: Config, deep: bool)
    ensures Prop(Custom(cfg, deep), "route") == Some(JStr("deeplink"))
  {
  }

  const Roles: Json := JArr([JStr(LearnerRole), JStr(AdministratorRole)])

  const Context: Json :=
    JObj(map[
      "id" := JStr(CourseId),
      "title" := JStr("Demo Sandbox Course"),
      "label" := JStr("sandbox-U0018885"),
      "type" := JArr([JStr(CourseOffering)])])

  function NamesRoleService(cfg: Config, deep: bool): Json
  {
    var base := map[
      "context_memberships_url" :=
        JStr(if deep then cfg.issuer + "/learn/api/v1/lti/external/namesandroles/_612_1"
             else cfg.issuer + "/lti/nrps/" + CourseId + "/memberships"),
      "service_versions" := JArr([JStr("2.0")])];
    if deep then JObj(base["scope" := JArr([JStr(MembershipScope)])]) else JObj(base)
  }

  function AgsEndpoint(cfg: Config, deep: bool): Json
  {
    var scopes := [JStr(LineItemScope), JStr(ResultScope), JStr(ScoreScope)];
    JObj(map[
      "scope" := JArr(if deep then scopes + [JStr(LineItemReadScope)] else scopes),
      "lineitems" :=
        JStr(if deep then cfg.issuer + LearnCourse + "/lineItems"
             else cfg.issuer + "/lti/ags/" + CourseId + "/lineitems"),
      "lineitem" :=
        JStr(if deep then cfg.issuer + LearnCourse + "/lineItems/_1980_1"
             else cfg.issuer + "/lti/ags/" + CourseId + "/lineitems/1")])
  }

  const PlatformUrl := "http://localhost:3000/"

  const ToolPlatform: Json :=
    JObj(map[
      "contact_email" := JStr("admin@localhost"),
      "description" := JStr("Mock LMS Platform"),
      "guid" := JStr("d944e265183b40e088e21a4df2eb3765"),
      "name" := JStr("Mock LMS"),
      "url" := JStr(PlatformUrl),
      "product_family_code" := JStr("MockLMS"),
      "version" := JStr("1.0.0")])

  lemma ToolPlatformUrl()
    ensures Prop(ToolPlatform, "url") == Some(JStr(PlatformUrl))
  {
  }

  const ResourceLink: Json := JObj(map["id" := JStr("_3760_1"), "title" := JStr("LTI")])

  const Lis: Json :=
    JObj(map[
      "person_sourcedid" := JStr("dan.schumm"),
      "course_section_sourcedid" := JStr("sandbox-U0018885")])

  /** The launch presentation; its return URL records the launch time. */
  function LaunchPresentation(cfg: Config, launchMs: nat): Json
  {
    JObj(map[
      "return_url" := JStr(cfg.issuer + LaunchReturnPath + NatToDecimal(launchMs)),
      "locale" := JStr("en-US")])
  }

  function GroupsService(cfg: Config): Json
  {
    JObj(map[
      "context_groups_url" := JStr(cfg.issuer + LearnCourse + "/groups"),
      "context_group_sets_url" := JStr(cfg.issuer + LearnCourse + "/groupsets"),
      "service_versions" := JArr([JStr("1.0")]),
      "scope" := JArr([JStr(GroupScope)])])
  }

  const FoundationsIds: Json :=
    JObj(map[
      "tenant-id" := JStr("a53bf317-5ee5-4582-9892-899980467ff4"),
      "user-id" := JStr("47dbdd14-89b4-11ec-9b19-b102fa07cb7e"),
      "course-id" := JStr("4d04027f-cd62-11ed-af4a-41f4b888e126"),
      "site-id" := JStr("9970f70e-7ebb-4f87-b372-06d5c2d26cbd"),
      "region" := JStr("us-east-1")])

  const DeepLinkingSettings: Json :=
    JObj(map[
      "accept_media_types" := JStr("*/*"),
      "accept_presentation_document_targets" := JArr([JStr("iframe"), JStr("window")]),
      "accept_types" := JArr([JStr("ltiResourceLink"), JStr("link")]),
      "accept_multiple" := JBool(true),
      "auto_create" := JBool(true),
      "accept_copy_advice" := JBool(false),
      "deep_link_return_url" := JStr(DeepLinkReturnUrl),
      "data" := JStr(DeepLinkingData)])

  const IdentityKeys: set<string> :=
    {"iss", "aud", "sub", "exp", "iat", "nonce", "email", "given_name", "family_name", "name", "locale"}

  /** The OpenID Connect part of the payload: issuer, audience, subject,
      validity window and nonce. */
  function IdentityClaims(cfg: Config, nonce: string, clock: AuthClock): (c: Claims)
    ensures c.Keys == IdentityKeys
    ensures c["nonce"] == JStr(nonce)
    ensures c["aud"] == JStr(cfg.platformClientId) && c["iss"] == JStr(cfg.issuer)
    ensures c["exp"] == JNum(Seconds(clock.expMs) + 3600) && c["iat"] == JNum(Seconds(clock.iatMs))
  {
    map[
      "iss" := JStr(cfg.issuer),
      "aud" := JStr(cfg.platformClientId),
      "sub" := JStr("bd3b4befae4e45f28ba652395e43d354"),
      "exp" := JNum(Seconds(clock.expMs) + 3600),
      "iat" := JNum(Seconds(clock.iatMs)),
      "nonce" := JStr(nonce),
      "email" := JStr("dan.schumm@anthology.com"),
      "given_name" := JStr("Dan"),
      "family_name" := JStr("Schumm"),
      "name" := JStr("Dan Schumm"),
      "locale" := JStr("en-US")]
  }

  const LaunchKeys: set<string> :=
    {MessageTypeClaim, VersionClaim, DeploymentIdClaim, RolesClaim, CustomClaim, ContextClaim,
     NamesRoleServiceClaim, AgsEndpointClaim, ToolPlatformClaim, SessionTokenClaim}

  /** The LTI part every launch carries; `deep` selects the variant. */
  function LaunchClaims(cfg: Config, deep: bool): (c: Claims)
    ensures c.Keys == LaunchKeys
    ensures c[MessageTypeClaim] == JStr(if deep then ResourceLinkRequest else DeepLinkingRequest)
    ensures c[VersionClaim] == JStr(Version)
    ensures c[DeploymentIdClaim] == JStr(cfg.deploymentId)
    ensures c[CustomClaim] == Custom(cfg, deep)
    ensures c[ToolPlatformClaim] == ToolPlatform
  {
    map[
      RolesClaim := Roles,
      ContextClaim := Context,
      NamesRoleServiceClaim := NamesRoleService(cfg, deep),
      AgsEndpointClaim := AgsEndpoint(cfg, deep),
      SessionTokenClaim := JStr("8764e66e730f481fbb95011675041a6"),
      ToolPlatformClaim := ToolPlatform,
      CustomClaim := Custom(cfg, deep),
      DeploymentIdClaim := JStr(cfg.deploymentId),
      VersionClaim := JStr(Version),
      MessageTypeClaim := JStr(if deep then ResourceLinkRequest else DeepLinkingRequest)]
  }

  const ResourceLinkKeys: set<string> :=
    {ResourceLinkClaim, LisClaim, LaunchPresentationClaim, GroupsServiceClaim, FoundationsIdsClaim}

  /** The claims that depend on the branch beyond the LTI part: a launch of a
      stored deep-link item carries the resource link and its services, every
      other launch the deep-linking settings. */
  function BranchClaims(cfg: Config, deep: bool, launchMs: nat): (c: Claims)
    ensures c.Keys == if deep then ResourceLinkKeys else {DeepLinkingSettingsClaim}
  {
    if deep then
      map[
        ResourceLinkClaim := ResourceLink,
        LisClaim := Lis,
        LaunchPresentationClaim := LaunchPresentation(cfg, launchMs),
        GroupsServiceClaim := GroupsService(cfg),
        FoundationsIdsClaim := FoundationsIds]
    else
      map[DeepLinkingSettingsClaim := DeepLinkingSettings]
  }

  lemma KeysDisjoint()
    ensures IdentityKeys !! LaunchKeys
    ensures (IdentityKeys + LaunchKeys + {TargetLinkUriClaim}) !! ResourceLinkKeys
    ensures DeepLinkingSettingsClaim !in IdentityKeys + LaunchKeys + {TargetLinkUriClaim} + ResourceLinkKeys
    ensures TargetLinkUriClaim !in IdentityKeys + LaunchKeys
  {
  }

  /** The id_token payload for a validated session and the nonce the request
      carried (equal to the session's, since the endpoint has checked it). */
  function AuthClaims(cfg: Config, session: AuthSession, nonce: string, clock: AuthClock): Claims
  {
    var deep := IsDeepLinkHint(session.messageHint);
    var target := if session.targetLinkUri.Some? then Some(JStr(session.targetLinkUri.value)) else None;
    var common := WithField(IdentityClaims(cfg, nonce, clock) + LaunchClaims(cfg, deep), TargetLinkUriClaim, target);
    common + BranchClaims(cfg, deep, clock.launchMs)
  }

  /** Merging the three parts with the optional target link URI: every key of
      the identity and LTI parts keeps its value, and the branch part decides
      which branch claims are present. */
  lemma MergeParts(id: Claims, launch: Claims, branch: Claims, target: Option<Json>)
    requires id.Keys == IdentityKeys && launch.Keys == LaunchKeys
    requires branch.Keys == ResourceLinkKeys || branch.Keys == {DeepLinkingSettingsClaim}
    ensures var c := WithField(id + launch, TargetLinkUriClaim, target) + branch;
      forall k :: k in IdentityKeys ==> k in c && c[k] == id[k]
    ensures var c := WithField(id + launch, TargetLinkUriClaim, target) + branch;
      forall k :: k in LaunchKeys ==> k in c && c[k] == launch[k]
    ensures var c := WithField(id + launch, TargetLinkUriClaim, target) + branch;
      && (TargetLinkUriClaim in c <==> target.Some?)
      && (target.Some? ==> c[TargetLinkUriClaim] == target.value)
    ensures var c := WithField(id + launch, TargetLinkUriClaim, target) + branch;
      forall k :: k in ResourceLinkKeys || k == DeepLinkingSettingsClaim ==> (k in c <==> k in branch)
  {
    KeysDisjoint();
  }

  /** Who issued the payload to whom, for which nonce, and for how long: the
      expiry is one hour after the issue time when both clock readings fall in
      the same second, and never later than that when the expiry was read first. */
  lemma AuthClaimsIdentity(cfg: Config, session: AuthSession, nonce: string, clock: AuthClock)
    ensures var c := AuthClaims(cfg, session, nonce, clock);
      && "nonce" in c && c["nonce"] == JStr(nonce)
      && "aud" in c && c["aud"] == JStr(cfg.platformClientId)
      && "iss" in c && c["iss"] == JStr(cfg.issuer)
      && "exp" in c && "iat" in c && c["exp"].JNum? && c["iat"].JNum?
      && (Seconds(clock.expMs) == Seconds(clock.iatMs) ==> c["exp"].n == c["iat"].n + 3600)
      && (clock.expMs <= clock.iatMs ==> c["exp"].n <= c["iat"].n + 3600)
  {
    var deep := IsDeepLinkHint(session.messageHint);
    var target := if session.targetLinkUri.Some? then Some(JStr(session.targetLinkUri.value)) else None;
    var id := IdentityClaims(cfg, nonce, clock);
    MergeParts(id, LaunchClaims(cfg, deep), BranchClaims(cfg, deep, clock.launchMs), target);
    assert "nonce" in IdentityKeys && "aud" in IdentityKeys && "iss" in IdentityKeys;
    assert "exp" in IdentityKeys && "iat" in IdentityKeys;
    if clock.expMs <= clock.iatMs {
      assert Seconds(clock.expMs) <= Seconds(clock.iatMs);
    }
  }

  /** Which message the payload carries: a resource-link launch exactly when
      the login's message hint names a stored deep-link item, otherwise a
      deep-linking request; both carry the LTI version, the deployment, the
      "deeplink" route and the platform's URL. */
  lemma AuthClaimsMessage(cfg: Config, session: AuthSession, nonce: string, clock: AuthClock)
    ensures var c := AuthClaims(cfg, session, nonce, clock);
      && MessageTypeClaim in c
      && (c[MessageTypeClaim] == JStr(ResourceLinkRequest) <==> IsDeepLinkHint(session.messageHint))
      && (c[MessageTypeClaim] == JStr(DeepLinkingRequest) <==> !IsDeepLinkHint(session.messageHint))
      && VersionClaim in c && c[VersionClaim] == JStr(Version)
      && DeploymentIdClaim in c && c[DeploymentIdClaim] == JStr(cfg.deploymentId)
      && CustomClaim in c && Prop(c[CustomClaim], "route") == Some(JStr("deeplink"))
      && ToolPlatformClaim in c && Prop(c[ToolPlatformClaim], "url") == Some(JStr(PlatformUrl))
      && SessionTokenClaim in c
  {
    var deep := IsDeepLinkHint(session.messageHint);
    var target := if session.targetLinkUri.Some? then Some(JStr(session.targetLinkUri.value)) else None;
    MergeParts(IdentityClaims(cfg, nonce, clock), LaunchClaims(cfg, deep), BranchClaims(cfg, deep, clock.launchMs), target);
    assert MessageTypeClaim in LaunchKeys && VersionClaim in LaunchKeys && DeploymentIdClaim in LaunchKeys;
    assert CustomClaim in LaunchKeys && ToolPlatformClaim in LaunchKeys && SessionTokenClaim in LaunchKeys;
    CustomRoute(cfg, deep);
    ToolPlatformUrl();
  }

  /** Which optional claims the payload carries: the resource link, the LIS
      person and the launch presentation exactly for a deep-link item launch,
      and the deep-linking settings exactly otherwise. */
  lemma AuthClaimsBranch(cfg: Config, session: AuthSession, nonce: string, clock: AuthClock)
    ensures var c := AuthClaims(cfg, session, nonce, clock);
      && (ResourceLinkClaim in c <==> IsDeepLinkHint(session.messageHint))
      && (LisClaim in c <==> IsDeepLinkHint(session.messageHint))
      && (LaunchPresentationClaim in c <==> IsDeepLinkHint(session.messageHint))
      && (DeepLinkingSettingsClaim in c <==> !IsDeepLinkHint(session.messageHint))
  {
    var deep := IsDeepLinkHint(session.messageHint);
    var target := if session.targetLinkUri.Some? then Some(JStr(session.targetLinkUri.value)) else None;
    var branch := BranchClaims(cfg, deep, clock.launchMs);
    MergeParts(IdentityClaims(cfg, nonce, clock), LaunchClaims(cfg, deep), branch, target);
    var c := AuthClaims(cfg, session, nonce, clock);
    KeysDisjoint();
    assert ResourceLinkClaim in ResourceLinkKeys && LisClaim in ResourceLinkKeys;
    assert LaunchPresentationClaim in ResourceLinkKeys;
    assert ResourceLinkClaim in c <==> ResourceLinkClaim in branch;
    assert LisClaim in c <==> LisClaim in branch;
    assert LaunchPresentationClaim in c <==> LaunchPresentationClaim in branch;
    assert DeepLinkingSettingsClaim in c <==> DeepLinkingSettingsClaim in branch;
  }

  /** The target link URI is present exactly when the login supplied one, and
      is that one. */
  lemma AuthClaimsTarget(cfg: Config, session: AuthSession, nonce: string, clock: AuthClock)
    ensures var c := AuthClaims(cfg, session, nonce, clock);
      && (TargetLinkUriClaim in c <==> session.targetLinkUri.Some?)
      && (session.targetLinkUri.Some? ==> c[TargetLinkUriClaim] == JStr(session.targetLinkUri.value))
  {
    var deep := IsDeepLinkHint(session.messageHint);
    var target := if session.targetLinkUri.Some? then Some(JStr(session.targetLinkUri.value)) else None;
    MergeParts(IdentityClaims(cfg, nonce, clock), LaunchClaims(cfg, deep), BranchClaims(cfg, deep, clock.launchMs), target);
  }
}
