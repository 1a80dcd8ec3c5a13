/**
 * The Tool's deep-link creation endpoint (routes/deeplink-routes.js): it turns
 * the chosen resource into a one-item signing request for the signing
 * service, posts it, and hands back only the signed token and the return
 * URL. The HTTP call is a parameter: what the signing service answered.
 */
module DeepLinkRoutes {
  import opened Js
  import opened Lti

  /** Where the Platform takes deep-linking responses back. */
  const ReturnUrl := "http://localhost:3000/webapps/blackboard/controller/lti/v2/deeplinking"
  /** The opaque `data` value the request always carries. */
  const OpaqueData := "_612_1::_1827_1::0::false::true::_366_1::99bfaa1f39fd4dd299033c0c6125c7c8::false::false"

  /** What the signing service answered: nothing (the fetch threw), or a
      status with its body parsed as JSON (None when the parse threw). */
  datatype SignerCall =
    | Unreachable
    | Answered(ok: bool, status: nat, body: Option<Json>)

  /** Why the endpoint answered 500. */
  datatype Failure =
    | NoDeepLinkData     // `deepLinkData.title` read on null or undefined
    | SignerUnreachable  // the fetch threw
    | SignerStatus(status: nat) // "Dev Portal error: <status>"
    | MalformedReply     // the reply was not JSON, or was null

  datatype Reply = Created(body: Obj) | Failed(status: nat, failure: Failure)

  /** The message a non-ok signing status is reported with. */
  function SignerStatusMessage(status: nat): string
  {
    "Dev Portal error: " + NatToDecimal(status)
  }

  /** The 500 body's message names the signing service's status: after its
      fixed prefix, `parseInt` reads that status back. */
  lemma SignerStatusInMessage(status: nat)
    ensures var m := SignerStatusMessage(status);
      |m| > 18 && m[..18] == "Dev Portal error: " && ParseInt(m[18..]) == Int(status)
  {
    var m := SignerStatusMessage(status);
    assert m[18..] == NatToDecimal(status);
    ParseIntOfDecimal(status);
  }

  /** The content item: `type`, `title`, `text`, `url` and `custom` of the
      resource, each copied as it is (an undefined one is dropped). */
  function ContentItem(data: Json): (item: Obj)
    ensures item.Keys <= {"type", "title", "text", "url", "custom"}
    ensures Field(item, "type") == Prop(data, "type")
    ensures Field(item, "title") == Prop(data, "title")
    ensures Field(item, "text") == Prop(data, "text")
    ensures Field(item, "url") == Prop(data, "url")
    ensures Field(item, "custom") == Prop(data, "custom")
  {
    var withType := WithField(map[], "type", Prop(data, "type"));
    var withTitle := WithField(withType, "title", Prop(data, "title"));
    var withText := WithField(withTitle, "text", Prop(data, "text"));
    var withUrl := WithField(withText, "url", Prop(data, "url"));
    WithField(withUrl, "custom", Prop(data, "custom"))
  }

  /** The signing request built from the endpoint's body: exactly one
      content item, the Tool's client id, the body's deployment id and the
      Platform's issuer; an absent or null `deepLinkData` makes the handler
      throw before anything is sent. */
  function SignRequest(cfg: Config, body: Obj): (r: Result<Obj, Failure>)
    ensures r.Err? <==> Field(body, "deepLinkData") == None || Field(body, "deepLinkData") == Some(JNull)
    ensures r.Err? ==> r.error == NoDeepLinkData
    ensures r.Ok? ==>
      && Field(r.value, "contentItems") == Some(JArr([JObj(ContentItem(body["deepLinkData"]))]))
      && Field(r.value, "clientId") == Some(JStr(cfg.toolClientId))
      && Field(r.value, "deploymentId") == Field(body, "deploymentId")
      && Field(r.value, "platformIssuer") == Some(JStr(cfg.issuer))
      && Field(r.value, "returnUrl") == Some(JStr(ReturnUrl))
      && Field(r.value, "data") == Some(JStr(OpaqueData))
  {
    var data := Field(body, "deepLinkData");
    if data == None || data == Some(JNull) then Err(NoDeepLinkData)
    else
      var fixed := map[
        "contentItems" := JArr([JObj(ContentItem(data.value))]),
        "clientId" := JStr(cfg.toolClientId),
        "platformIssuer" := JStr(cfg.issuer),
        "returnUrl" := JStr(ReturnUrl),
        "data" := JStr(OpaqueData)];
      Ok(WithField(fixed, "deploymentId", Field(body, "deploymentId")))
  }

  /** The reply to the browser once the signing service has answered: any
      failure is a 500; otherwise `jwt` and `returnUrl` of its body and
      nothing else (in particular not the signed payload). */
  function HandleSignerReply(call: SignerCall): (r: Reply)
    ensures call.Unreachable? ==> r == Failed(500, SignerUnreachable)
    ensures call.Answered? && !call.ok ==> r == Failed(500, SignerStatus(call.status))
    ensures r.Created? <==> call.Answered? && call.ok && call.body.Some? && call.body.value != JNull
    ensures r.Created? ==>
      && r.body.Keys <= {"jwt", "returnUrl"}
      && Field(r.body, "jwt") == Prop(call.body.value, "jwt")
      && Field(r.body, "returnUrl") == Prop(call.body.value, "returnUrl")
  {
    match call
    case Unreachable => Failed(500, SignerUnreachable)
    case Answered(ok, status, body) =>
      if !ok then Failed(500, SignerStatus(status))
      else if body.None? || body.value == JNull then Failed(500, MalformedReply)
      else
        var withJwt := WithField(map[], "jwt", Prop(body.value, "jwt"));
        Created(WithField(withJwt, "returnUrl", Prop(body.value, "returnUrl")))
  }

  /** POST /deep-link: `post` is the signing service's answer to a request. */
  function CreateDeepLink(cfg: Config, body: Obj, post: Obj -> SignerCall): (r: Reply)
    ensures match SignRequest(cfg, body)
      case Err(f) => r == Failed(500, f)
      case Ok(request) => r == HandleSignerReply(post(request))
  {
    match SignRequest(cfg, body)
    case Err(f) => Failed(500, f)
    case Ok(request) => HandleSignerReply(post(request))
  }
}
