# LTI 1.3 emulator: launch, deep linking and grade store

The emulator plays three parties of an LTI 1.3 launch, each with its own small state:

- **Platform** (`routes/platform-routes.js`).
  - OpenID Connect login (`/lti/login`) records an `authSessions` entry under a fresh `state`.
  - Authorization (`/lti/auth`) consumes that entry and signs an id_token. Its claims branch on whether the login's `lti_message_hint` starts with `deeplink-`.
  - The deep-link return endpoint stores received content items in `deepLinkItems` under generated ids.
  - A relaunch page turns a stored item into a new login with hint `deeplink-<id>`.
  - A mock OAuth authorization-code redirect.
  - A mock Assignment and Grade Services store: an array of line items and a map of scores.
- **Tool** (`routes/tool-routes.js`).
  - The login initiation records a pending `{nonce}` under `state` and forwards every query parameter to the Platform.
  - The launch endpoint runs a fixed sequence of guards on the id_token: parameters, pending state, signature and audience, nonce, message type, version, deployment id.
  - It then moves `state` from `pendingStates` to `ltiSessions` and picks a route (OAuth redirect or launch page).
  - The deep-link endpoint (`routes/deeplink-routes.js`) builds a one-item signing request and returns only the signed token and the return URL.
- **Signing and token service** (`dev-portal.js`).
  - A registry of tools, filled at start-up.
  - A deep-linking-response signer.
  - The OAuth token exchange, with the error codes of section 5.2 of RFC 6749.
  - The per-tool key-set lookup.

State the handlers update in place is a Dafny `class` whose methods carry `modifies` clauses:

| Class | Fields |
|---|---|
| `Platform.Platform` | `authSessions`, `deepLinkItems` |
| `Ags.AgsStore` | `lineItems`, `scores` (a `Map` as its entries in insertion order) |
| `ToolProvider.Tool` | `pendingStates`, `ltiSessions` |
| `DevPortal.DevPortal` | `registeredTools` |

Claim sets, payloads, requests and redirect URLs are pure functions over a `Json` datatype (`Js`). Query strings are sequences of pairs (`Query`).

Signing and verification are opaque function parameters, `Signer` and `Verifier` (`Lti`). Where a property spans parties, the only thing assumed of the pair is `Accepts`: the verifier returns exactly the payload the signer was given.

Some inputs become parameters:

- `uuid()` values are given `state`/`nonce` strings.
- `Math.random()` suffixes are given strings.
- `Date.now()` readings are clock parameters (one per reading in the source).
- `fetch` results are given replies.

The `Exchange` module puts the parties together:

- A complete launch from a fresh Platform and Tool succeeds. Replaying its authorization, or its launch, with the same state afterwards is refused. This holds for requests handled one after another; see "Left out" on overlapping requests.
- A resource chosen in the Tool, signed by a fresh signing service and posted to a fresh Platform, is stored and relaunched as a resource-link request.

## Model

| member | source | states |
|---|---|---|
| `Platform.Platform.constructor` | routes/platform-routes.js:86 | a fresh Platform holds no login sessions and no deep-link items |
| `Platform.Platform.Login` | routes/platform-routes.js:77-111 | records `{nonce, login_hint, lti_message_hint, client_id, target_link_uri}` under the new state, changes no other session, and redirects to the Tool's login URL with the login query |
| `Platform.LoginParamsSpec` | routes/platform-routes.js:94-105 | the login redirect carries the same state and nonce that were stored, `response_mode=form_post`, `response_type=id_token`, the Platform's client id, the Tool's redirect URI and both hints as the browser sent them |
| `Platform.Platform.Authorize` | routes/platform-routes.js:115-133 | an unknown or missing state gives 400 "Invalid state parameter"; a nonce other than the session's gives 400 "Invalid nonce parameter"; in both cases no session changes. Otherwise the id_token is the signature over the claim set of that session, it is posted with the state to the redirect URI, and only that session is deleted |
| `PlatformClaims.AuthClaimsIdentity` | routes/platform-routes.js:137-143 | the payload's nonce is the checked nonce, its audience is the Platform's client id and its issuer the Platform's issuer; `exp == iat + 3600` when both clock readings fall in the same second, and `exp <= iat + 3600` whenever the expiry was read first |
| `PlatformClaims.AuthClaimsMessage` | routes/platform-routes.js:149-165 | message type is `LtiResourceLinkRequest` exactly when the hint starts with `deeplink-` and `LtiDeepLinkingRequest` exactly otherwise (a missing hint included); version is 1.3.0, the deployment id is the configured one, custom `route` is `deeplink` in both branches |
| `PlatformClaims.AuthClaimsBranch` | routes/platform-routes.js:201-238 | `resource_link`, `lis` and `launch_presentation` are present exactly for a `deeplink-` hint, and `deep_linking_settings` exactly otherwise |
| `PlatformClaims.AuthClaimsTarget` | routes/platform-routes.js:152 | the target link URI claim is present exactly when the login supplied one, and equals it |
| `PlatformClaims.DeepLinkHintOf` | routes/platform-routes.js:37 | a hint written as `deeplink-<item id>` always selects the deep-link branch |
| `PlatformClaims.MergeParts` | routes/platform-routes.js:137-240 | assembling the claim set from its identity, LTI and branch parts keeps every part's values and lets the branch part alone decide which branch claims are present |
| `Platform.Platform.ReceiveDeepLink` | routes/platform-routes.js:506-548 | a missing or empty JWT, a token that does not verify, or a message type other than `LtiDeepLinkingResponse` gives 400 and stores nothing. No content items gives an empty list; non-array content items give 400 and store nothing. Otherwise the store becomes `StoreItems` of the items with the per-item ids; the reply is those ids, or 400 after storing when an item is null (the page reads its title) |
| `Platform.StoreItemsSpec` | routes/platform-routes.js:544-548 | after the loop every content item i is stored unchanged under `dl_<t_i>_<i>`, and every other key keeps its entry |
| `Platform.Platform.StoreContentItems` | routes/platform-routes.js:543-548 | the loop leaves the store as `StoreItems` of the items and returns one id `dl_<t_i>_<i>` per item |
| `Platform.DeepLinkItemIdInjective` | routes/platform-routes.js:545 | two item ids are equal exactly when both the clock reading and the index are equal |
| `Platform.ItemIdsDistinct` | routes/platform-routes.js:543-548 | n received items get n pairwise distinct ids, whatever the clock readings |
| `Platform.ItemIds` | routes/platform-routes.js:543-548 | the id list holds one id per item, the i-th being `dl_<t_i>_<i>` |
| `Platform.Platform.DeepLinkLaunchPage` | routes/platform-routes.js:10-51 | 404 exactly when the item is missing or falsy; otherwise a login form with hint `deeplink-<id>`, the item's `url` as target link URI, the Platform's client id and issuer, login hint `user123` and the item id as resource link id |
| `Platform.CourseLaunchForm` | routes/platform-routes.js:54-74 | the course page's login form has hint `course-<course>-tool-<tool>` (tool defaulting to `demo`), the configured target link URI and no resource link id |
| `Platform.CourseLaunchIsNotDeepLink` | routes/platform-routes.js:69 | a course launch hint never starts with `deeplink-`, so it always leads to a deep-linking request |
| `Platform.AuthorizationCodeRedirectSpec` | routes/platform-routes.js:272-285 | the redirect goes to the callback's address before the first `?`; it sets `code`, sets `scope` (default `*`), overwrites `state` only with a non-empty one and otherwise keeps the callback's own, and keeps every other parameter of the callback |
| `Platform.SplitFirst` | routes/platform-routes.js:273 | the first part of `split('?')` is the prefix of the URI before its first `?` |
| `Query.SetGet` | routes/platform-routes.js:277-282 | `URLSearchParams.set` makes the key read back the new value and leaves every other key's value unchanged |
| `Query.SetKeepsOthers` | routes/platform-routes.js:277-282 | apart from the key set, the parameters are exactly the ones before, in order |
| `Query.ParseSerialize` | routes/tool-routes.js:21 | parsing a serialised query gives back the same parameters, in order, when every name is non-empty and free of `=` and `&` and every value is free of `&` (a value may hold `=`) |
| `Ags.AgsStore.constructor` | routes/platform-routes.js:348-369 | the store starts with the two mock line items and no scores |
| `Ags.InitialLineItems` | routes/platform-routes.js:348-367 | two line items, the i-th (from 1) with id `<issuer>/lti/ags/<mock course>/lineitems/<i>`, the URL a create would give it |
| `Ags.AgsStore.ListLineItems` | routes/platform-routes.js:372-394 | the list is the items passing every truthy filter, in store order, cut to `slice(0, parseInt(limit))` with limit 10 by default |
| `Ags.FiltersCompose` | routes/platform-routes.js:380-390 | applying the three filters one after another is the same as filtering by all three at once |
| `Ags.MatchingMembers` | routes/platform-routes.js:380-390 | an item is listed (before the limit) exactly when it is in the store and passes every filter |
| `Ags.FilterField` | routes/platform-routes.js:382-390 | a filter never lengthens the list |
| `Ags.Matching` | routes/platform-routes.js:380-390 | filtering never lengthens the list |
| `Js.Take` | routes/platform-routes.js:393 | `slice(0, end)` is a prefix of the list, of the length `SliceEnd` gives |
| `Js.SliceEnd` | routes/platform-routes.js:393 | a NaN limit gives nothing; a limit within the length is the length of the result; a larger one keeps everything; a negative one counts from the end, down to zero |
| `Js.LimitArg` | routes/platform-routes.js:373-393 | an absent `limit` gives `parseInt(10)`, which is 10; a given one is `parseInt` of its text |
| `Js.ParseIntOfDecimal` | routes/platform-routes.js:373 | `parseInt` of a printed non-negative integer gives that integer back |
| `Js.DecimalRoundTrip` | routes/platform-routes.js:405 | the decimal numeral of a number reads back as that number |
| `Js.DecimalInjective` | routes/platform-routes.js:405 | distinct numbers print as distinct numerals |
| `Ags.NewLineItem` | routes/platform-routes.js:404-407 | the created item has the body's properties, which win over the generated id, plus an `id` that is `.../lineitems/<length+1>` unless the body sets one |
| `Ags.AgsStore.CreateLineItem` | routes/platform-routes.js:397-412 | the new item is appended after all the old ones and returned with 201 |
| `Ags.CreateAfterDeleteRepeatsId` | routes/platform-routes.js:405-448 | when the last of n items has the id `<issuer>/lti/ags/<context>/lineitems/<n>` that a create in the same context hands out, and the new body sets no id, then after deleting any item but the last a create hands out that same id again |
| `Ags.FindBySuffix` | routes/platform-routes.js:420-443 | Found(i) only for an item whose id ends with the key and all earlier ids do not; Missing only when no id ends with it; a TypeError only when an item without a string id is reached first |
| `Ags.FindFrom` | routes/platform-routes.js:420-443 | the same scan from a given index |
| `Ags.FindBySuffixFirst` | routes/platform-routes.js:420-443 | the lookup answers Found at the first matching item |
| `Ags.AgsStore.GetLineItem` | routes/platform-routes.js:415-428 | the first item whose id ends with the key, with 200; 404 "Line item not found" when none does; 500 when the scan meets an id that is not a string |
| `Ags.AgsStore.UpdateLineItem` | routes/platform-routes.js:431-439 | the body is merged into exactly the first matching item, which is returned; no other item changes; 404 or 500 change nothing |
| `Ags.AgsStore.DeleteLineItem` | routes/platform-routes.js:442-450 | exactly the first matching item is spliced out, the others keep their order, and the reply is 204; 404 or 500 change nothing |
| `Ags.RemoveAt` | routes/platform-routes.js:448 | `splice(i, 1)` keeps the items before i in place and shifts the ones after it down by one |
| `Ags.ScoreOf` | routes/platform-routes.js:466-474 | the stored score copies userId, scoreGiven, scoreMaximum and comment; timestamp, activityProgress and gradingProgress default to the submission time, `Completed` and `FullyGraded` when falsy |
| `Ags.MapSet` | routes/platform-routes.js:476 | `Map.set` keeps the entry count for an existing key and adds one for a new key |
| `Ags.MapSetSpec` | routes/platform-routes.js:476 | after `set` the key holds the new score exactly once, every other entry is kept, and keys stay distinct |
| `Ags.AgsStore.SubmitScore` | routes/platform-routes.js:453-479 | the score is set under `<lineItemId>-<userId>`, replacing an earlier one in its place, and keys stay distinct |
| `Ags.ResultOf` | routes/platform-routes.js:489-497 | a result is `result-<key>` with the score's user, score given as resultScore and maximum as resultMaximum |
| `Ags.AgsStore.Results` | routes/platform-routes.js:482-503 | the loop returns the results of the scores stored under this line item and user, in insertion order, cut to `limit` (intended match, see Findings) |
| `Ags.AgsStore.ScanScores` | routes/platform-routes.js:486-500 | the scan over the score map collects exactly `ResultsFor` of its entries, in insertion order |
| `Ags.ResultsFor` | routes/platform-routes.js:486-500 | a line item has no more results than there are scores |
| `Ags.ResultsForMembers` | routes/platform-routes.js:486-500 | every score stored under the line item that matches the user filter is reported |
| `Ags.ResultsForSound` | routes/platform-routes.js:486-500 | every reported result comes from a score stored under the line item that matches the user filter |
| `Ags.StoredUnderScoreKey` | routes/platform-routes.js:465-487 | a score submitted to line item L' is stored under L exactly when L' is L |
| `Ags.ResultsAsWritten` | routes/platform-routes.js:486-500 | the scan as written (key prefix test) reports at most one result per score |
| `Ags.PrefixMatchesOtherLineItem` | routes/platform-routes.js:487 | as written, a score submitted to line item `10` is reported among the results of line item `1`; with the intended match it is not |
| `ToolProvider.Tool.constructor` | routes/tool-routes.js:18-95 | a fresh Tool has no pending states and no sessions, the two maps the handlers write |
| `ToolProvider.Tool.LoginInitiation` | routes/tool-routes.js:9-27 | `pendingStates[state] = {nonce, timestamp}`, no other pending state changes, and the redirect is the Platform's `/lti/auth` with every received query parameter unchanged |
| `ToolProvider.ValidateLaunchGuards` | routes/tool-routes.js:38-86 | the guards run in order, each failure is its own error, and each is reported exactly when every earlier guard passed and its own did not: missing id_token or state; state not pending; token not verified or the audience is not the client id; token nonce differs from the pending one; then the claim checks on the verified payload |
| `ToolProvider.CheckClaims` | routes/tool-routes.js:76-86 | passes exactly when the message type is one of the two requests, the version is 1.3.0 and deployment_id is truthy; otherwise it gives the first failing check's error |
| `ToolProvider.Tool.Launch` | routes/tool-routes.js:30-166 | on any failed guard the reply is 400 with that failure and neither map changes; on success `ltiSessions[state]` holds the full verified claims, `state` leaves `pendingStates`, no other key changes, and the launch is routed |
| `ToolProvider.Route` | routes/tool-routes.js:104-123 | OAuth redirect exactly for an `LtiDeepLinkingRequest` whose custom route is `deeplink`; otherwise the launch page for those claims and state |
| `ToolProvider.OAuthRedirectUrl` | routes/tool-routes.js:107-110 | the redirect carries the Tool's `tlocode` callback for this state as `redirect_uri` and the payload's one-time session token |
| `ToolProvider.OAuthRedirectFrontEnd` | routes/tool-routes.js:109 | the redirect is built on `tool_platform.url` when it is a non-empty string, and on `http://localhost:3000/` when it is falsy |
| `DevPortal.DevPortal.constructor` | dev-portal.js:19-24 | start-up leaves the registry as `StartupRegistry` |
| `DevPortal.StartupRegistry` | dev-portal.js:19-24 | exactly one tool is registered, under the Platform's client id, with the Tool's key-set URL |
| `DevPortal.DevPortal.Sign` | dev-portal.js:58-103 | a client id that is not a registered string gives 500 "Tool not registered in dev portal"; a registered one gets `DeepLinkPayload` of the request, the token is the signature over exactly that payload, and the request's `returnUrl` is returned unchanged |
| `DevPortal.FixedClaims` | dev-portal.js:76-80 | the signer fills in exactly exp, iat, nonce, message type and version |
| `DevPortal.DeepLinkPayloadFixed` | dev-portal.js:76-80 | the payload is an `LtiDeepLinkingResponse` of version 1.3.0 with a `deep-link-` nonce; `exp == iat + 600` when both clock readings fall in the same second |
| `DevPortal.DeepLinkPayloadCopied` | dev-portal.js:74-83 | `iss`, `aud`, deployment id, content items and data are the request's clientId, platformIssuer, deploymentId, contentItems and data, verbatim, and present exactly when the request had them |
| `DevPortal.PassThroughKeep` | dev-portal.js:73-84 | copying the request fields leaves the signer's own claims as they were |
| `DevPortal.PassThroughCopies` | dev-portal.js:74-83 | copying the request fields into claims the signer does not fill in gives the request's values |
| `DevPortal.FixedNotPassedThrough` | dev-portal.js:73-84 | none of the claims the signer fills in is one it copies |
| `DevPortal.SignHttp` | dev-portal.js:93-101 | the 200 answer holds the token, the exact payload that was signed and the return URL; an error answer holds the status and the message |
| `DevPortal.DevPortal.Token` | dev-portal.js:106-134 | a grant type other than `authorization_code` gives 400 `unsupported_grant_type` before the client is looked up; then an unregistered client gives 401 `invalid_client`; a token is issued exactly when both pass, as a Bearer token with `expires_in` 3600 and the fixed scope |
| `DevPortal.DevPortal.ManagementJwks` | dev-portal.js:34-55 | an unregistered client gives 404 "Tool not registered"; otherwise the key set fetched from the registered URL, or 500 "Failed to fetch tool JWKS" when the fetch or parse fails |
| `DeepLinkRoutes.ContentItem` | routes/deeplink-routes.js:18-24 | the content item has at most `type`, `title`, `text`, `url` and `custom`, each copied from the chosen resource (an undefined one dropped) |
| `DeepLinkRoutes.SignRequest` | routes/deeplink-routes.js:11-30 | an absent or null `deepLinkData` fails before anything is sent; otherwise the request has exactly one content item built from it, the Tool's client id, the body's deployment id unchanged, the Platform's issuer, the Platform's return URL and the opaque data |
| `DeepLinkRoutes.HandleSignerReply` | routes/deeplink-routes.js:40-57 | an unreachable signer or a non-ok status gives 500 (with `Dev Portal error: <status>`); a reply is created exactly for an ok, parseable, non-null body, and then holds only `jwt` and `returnUrl` from it |
| `DeepLinkRoutes.SignerStatusInMessage` | routes/deeplink-routes.js:40-42 | the error message for a non-ok signing status is `Dev Portal error: ` followed by text that `parseInt` reads back as that status |
| `DeepLinkRoutes.CreateDeepLink` | routes/deeplink-routes.js:9-58 | a failed request gives 500 with that failure; otherwise the endpoint answers with the handled reply of the signer to that request |
| `Exchange.PlatformClaimsMeetToolChecks` | routes/platform-routes.js:137-151 | every claim set the Platform signs has the client id as audience and the session's nonce, and passes the Tool's claim checks (routes/tool-routes.js:76-86) unless the configured deployment id is empty; the Tool takes it to the OAuth flow exactly when the hint was not `deeplink-` |
| `Exchange.ClaimsMeetToolChecks` | routes/tool-routes.js:51-86 | the Tool's audience, nonce and claim checks on any claim set shaped like the Platform's |
| `Exchange.RelaunchIsResourceLinkRequest` | routes/platform-routes.js:149-238 | a stored item relaunched with its `deeplink-<id>` hint (built at line 37) is signed as a resource-link request with resource-link, LIS and launch-presentation claims and no deep-linking settings |
| `Exchange.Handshake` | routes/tool-routes.js:9-101 | login, login initiation, authorization and launch on a fresh Platform and Tool route the Platform's claim set; the OAuth redirect is taken exactly when the hint is not `deeplink-`; replaying the authorization afterwards gives 400 "Invalid state parameter" and replaying the launch gives `UnknownState` (for requests handled one after another) |
| `Exchange.HandshakeSteps` | routes/platform-routes.js:115-249 | the handshake's steps for a claim set already known to pass the Tool's checks |
| `Exchange.AuthorizeAndLaunch` | routes/platform-routes.js:115-249 | authorizing an open session and launching with the posted token routes the session's claim set, and afterwards neither side holds the state |
| `Exchange.PostIdToken` | routes/platform-routes.js:115-249 | authorizing an open session with its own nonce posts the token signed over that session's claims and deletes only that session |
| `Exchange.Replay` | routes/platform-routes.js:123-126 | once both sides have let go of the state, the authorization is refused with 400 "Invalid state parameter" and the launch (routes/tool-routes.js:43-46) with `UnknownState` |
| `Exchange.OpenSession` | routes/platform-routes.js:86-105 | after login and login initiation, both sides hold the state with the same nonce, and the query forwarded back to the Platform carries both |
| `Exchange.LaunchVerified` | routes/tool-routes.js:51-101 | with a verified token, the right audience and the pending nonce, the claim checks alone decide the launch, and success consumes the state |
| `Exchange.LaunchUnknownState` | routes/tool-routes.js:43-46 | a launch with a state that is no longer pending is refused with `UnknownState` |
| `Exchange.SignOnFreshPortal` | dev-portal.js:19-67 | a freshly started signing service refuses the Tool's request exactly when the Tool's client id differs from the Platform's (see "Left out") |
| `Exchange.ToolRequestPayload` | routes/deeplink-routes.js:17-30 | the payload signed for the Tool's request is a deep-linking response from the Tool's client id to the Platform's issuer, holding exactly the one chosen resource |
| `Exchange.CreateSignedDeepLink` | routes/deeplink-routes.js:34-52 | when the Tool's client id is registered, the browser gets the token signed over that payload and the Platform's return URL |
| `Exchange.ReceiveOneItem` | routes/platform-routes.js:539-548 | a fresh Platform given one verified content item stores exactly that item, unchanged, under the first generated id and nothing else, replies with that id, and its relaunch page asks for a `deeplink-` relaunch of the item's URL |
| `Exchange.DeepLinkRoundTrip` | routes/platform-routes.js:506-548 | a resource chosen in the Tool, signed and posted to a fresh Platform, leaves the Platform's store holding exactly the Tool's content item for it (type, title, text, url and custom as chosen) under the first generated id; its relaunch uses hint `deeplink-<id>` and the resource's URL as target |

## Left out

- JWT signing and verification (`SignJWT`, `jwtVerify`, `createRemoteJWKSet`, `generateKeyPair`) are opaque function parameters. The signature algorithm, key rotation and the `exp`/`nbf` checks of `jwtVerify` are inside the verifier. The Tool's audience check is stated explicitly.
- `uuid()`, `Math.random()` and `Date.now()` are parameters. Uniqueness of uuids is not assumed. Where a property needs it, the method starts from a fresh Platform or Tool instead.
- `fetch` to peer services: the reply is a parameter (`SignerCall`, the JWKS fetch result).
- HTML pages: only the data they carry is modelled (the posted id_token form, the relaunch login form, the launch page's claims and state). Which items the deep-link page renders is left out, apart from the 400 it causes on a null item.
- The logger and console output.
- Platform.Platform.Authorize and ToolProvider.Tool.Launch are each one atomic step. In the source, each handler awaits between looking up the state and deleting it: `/lti/auth` awaits the signing (routes/platform-routes.js:123, 242, 249) and `/lti13` awaits verification (routes/tool-routes.js:43, 51, 101). Two overlapping requests with the same state can both pass the lookup, and then two id_tokens are issued or two sessions opened. The single-use results (`Exchange.Replay`, `Exchange.Handshake`) hold for requests handled one after another.
- Percent-encoding (`encodeURIComponent`, `decodeURIComponent`, `URLSearchParams` escaping) is not modelled. Query strings are pairs of raw strings, and `Query.ParseSerialize` is stated for non-empty names free of `=` and `&` and values free of `&`.
- Repeated query keys and non-string query or form values (Express can deliver arrays and objects) are left out. A field is a string or absent.
- The order of query parameters that `new URLSearchParams(req.query)` rebuilds from Express's query object: JavaScript lists integer-like property names first, in numeric order. `ToolProvider.Tool.LoginInitiation` forwards the pairs in the order received.
- `ToolProvider.OAuthRedirectUrl` is a base URL plus parameters. The exact string concatenation, with its encoded `redirect_uri`, is not modelled.
- JSON numbers are integers. Floating point is left out.
- `parseInt`: leading whitespace, hexadecimal prefixes and radix handling are left out. Decimal digits with an optional sign are modelled.
- The start-up race: requests served before the signing service's key pair and registry exist (`dev-portal.js:14-25`).
- The shadowing of the filtered list handler by the GET line-items route registered earlier in `lms-platform.js:29-36`. `Ags.AgsStore.ListLineItems` models the router's handler on its own.
- `routes/oauth-routes.js`, `routes/nrps-routes.js` and `routes/ags-routes.js` (peer `fetch` calls and HTML), `lms-platform.js`, `tool-provider.js` and `test-launch.js` are not part of this model.
- The NRPS memberships handler of `routes/platform-routes.js:294-345` returns a fixed roster. It is not part of this model.
- The dev portal's own key-set endpoint (`dev-portal.js:28-31`) exports a key. It belongs to the opaque signing primitives.
- The deployment configuration file is not part of this model. `Lti.Config` holds the fields the handlers read.
- Exchange.Handshake: requires a non-empty configured deployment id. With an empty one the Tool refuses every launch (`MissingDeploymentId`), as `Exchange.PlatformClaimsMeetToolChecks` states.
- Exchange.SignOnFreshPortal: the Tool's deep-link request sends `tool.client_id`, but the registry holds `platform.client_id`. Signing therefore succeeds only when the two configured ids are equal, and the round-trip members require that. Because the configuration file is not available, whether they are equal in the deployed setup is not known.
- Ags.AgsStore.Results: uses the intended match (the key is the line item id, `-`, and the score's user id) instead of the prefix test as written. The as-written scan is `Ags.ResultsAsWritten`; see Findings.
- The `timestamp` recorded with pending states and sessions is stored but never checked by the source, so no expiry is modelled.

## Findings

| source | as written | input that shows it | evidently intended | confidence | as-written member | corrected member |
|---|---|---|---|---|---|---|
| routes/platform-routes.js:487 | the results of line item L are the scores whose key starts with L | a score for user `u` submitted to line item `10` is stored under `10-u`, which starts with `1`, so it appears among the results of line item `1` | only scores submitted to line item L, i.e. stored under `L-<userId>` | high (derived from the code; not executed) | `Ags.PrefixMatchesOtherLineItem` | `Ags.AgsStore.Results` |
