/**
 * What the three services share: the deployment configuration, the LTI 1.3
 * claim names (literal parts of the wire format), and the signing and
 * verification primitives, which stay abstract.
 */
module Lti {
  import opened Js

  /** A token payload: the JSON object a JWT carries. */
  type Claims = map<string, Json>

  /** Producing a compact RS256 JWT over a payload with a party's private key. */
  type Signer = Claims -> string

  /** `jwtVerify` against one party's key set (and, for the Tool, its expected
      audience): the payload when the token checks out, None when it throws. */
  type Verifier = string -> Option<Claims>

  /** A verifier accepts exactly what the matching signer produced, unchanged. */
  predicate Accepts(verify: Verifier, sign: Signer, c: Claims)
  {
    verify(sign(c)) == Some(c)
  }

  /** The deployment configuration file the services read at start-up. */
  datatype Config = Config(
    issuer: string,           // platform.issuer
    platformClientId: string, // platform.client_id
    deploymentId: string,     // platform.deployment_id
    targetLinkUri: string,    // platform.target_link_uri
    toolLoginUrl: string,     // tool.login_url
    toolRedirectUri: string,  // tool.redirect_uris[0]
    toolClientId: string)     // tool.client_id

  const Version := "1.3.0"

  const ResourceLinkRequest := "LtiResourceLinkRequest"
  const DeepLinkingRequest := "LtiDeepLinkingRequest"
  const DeepLinkingResponse := "LtiDeepLinkingResponse"

  const MessageTypeClaim := "https://purl.imsglobal.org/spec/lti/claim/message_type"
  const VersionClaim := "https://purl.imsglobal.org/spec/lti/claim/version"
  const DeploymentIdClaim := "https://purl.imsglobal.org/spec/lti/claim/deployment_id"
  const TargetLinkUriClaim := "https://purl.imsglobal.org/spec/lti/claim/target_link_uri"
  const RolesClaim := "https://purl.imsglobal.org/spec/lti/claim/roles"
  const CustomClaim := "https://purl.imsglobal.org/spec/lti/claim/custom"
  const ContextClaim := "https://purl.imsglobal.org/spec/lti/claim/context"
  const ToolPlatformClaim := "https://purl.imsglobal.org/spec/lti/claim/tool_platform"
  const ResourceLinkClaim := "https://purl.imsglobal.org/spec/lti/claim/resource_link"
  const LisClaim := "https://purl.imsglobal.org/spec/lti/claim/lis"
  const LaunchPresentationClaim := "https://purl.imsglobal.org/spec/lti/claim/launch_presentation"
  const NamesRoleServiceClaim := "https://purl.imsglobal.org/spec/lti-nrps/claim/namesroleservice"
  const AgsEndpointClaim := "https://purl.imsglobal.org/spec/lti-ags/claim/endpoint"
  const GroupsServiceClaim := "https://purl.imsglobal.org/spec/lti-gs/claim/groupsservice"
  const FoundationsIdsClaim := "https://blackboard.com/webapps/foundations-connector/foundations-ids"
  const DeepLinkingSettingsClaim := "https://purl.imsglobal.org/spec/lti-dl/claim/deep_linking_settings"
  const ContentItemsClaim := "https://purl.imsglobal.org/spec/lti-dl/claim/content_items"
  const DataClaim := "https://purl.imsglobal.org/spec/lti-dl/claim/data"
  const SessionTokenClaim := "https://blackboard.com/lti/claim/one_time_session_token"

  /** `Math.floor(ms / 1000)`: the seconds of a `Date.now()` reading. */
  function Seconds(ms: nat): nat
  {
    ms / 1000
  }
}
