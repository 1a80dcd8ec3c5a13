/**
 * The Platform's OpenID Connect login and authorization endpoints, its
 * deep-link return endpoint with the store of received content items, the
 * page that relaunches a stored item, and the mock OAuth authorization-code
 * redirect (routes/platform-routes.js). The sessions map and the item store
 * are the fields of one Platform object, updated in place by the handlers.
 */
module Platform {
  import opened Js
  import opened Lti
  import opened Query
  import opened PlatformClaims

  /** The form fields a browser posts to /lti/login; the launch pages fill
      all six, /lti/login reads four of them. */
  datatype LoginForm = LoginForm(
    iss: Option<string>,
    loginHint: Option<string>,
    targetLinkUri: Option<string>,
    messageHint: Option<string>,
    clientId: Option<string>,
    resourceLinkId: Option<string>)

  /** The query /lti/login sends to the Tool's login initiation URL, in the
      order of the object it is built from; an undefined field prints as
      "undefined". */
  function LoginParams(cfg: Config, form: LoginForm, state: string, nonce: string): Params
  {
    [("response_type", "id_token"),
     ("scope", "openid"),
     ("client_id", cfg.platformClientId),
     ("redirect_uri", cfg.toolRedirectUri),
     ("login_hint", OptStr(form.loginHint)),
     ("lti_message_hint", OptStr(form.messageHint)),
     ("state", state),
     ("nonce", nonce),
     ("response_mode", "form_post"),
     ("prompt", "none")]
  }

  /** The login redirect carries the new session's state and nonce, asks for
      the id_token by form post, and passes the hints the browser sent on. */
  lemma LoginParamsSpec(cfg: Config, form: LoginForm, state: string, nonce: string)
    ensures var p := LoginParams(cfg, form, state, nonce);
      && Get(p, "state") == Some(state) && Get(p, "nonce") == Some(nonce)
      && Get(p, "response_mode") == Some("form_post")
      && Get(p, "response_type") == Some("id_token")
      && Get(p, "client_id") == Some(cfg.platformClientId)
      && Get(p, "redirect_uri") == Some(cfg.toolRedirectUri)
      && Get(p, "login_hint") == Some(OptStr(form.loginHint))
      && Get(p, "lti_message_hint") == Some(OptStr(form.messageHint))
  {
    LoginParamsHead(cfg, form, state, nonce);
    LoginParamsHints(cfg, form, state, nonce);
    LoginParamsTail(cfg, form, state, nonce);
    LoginParamsMode(cfg, form, state, nonce);
  }

  /** The parameters naming the client. */
  lemma LoginParamsHead(cfg: Config, form: LoginForm, state: string, nonce: string)
    ensures var p := LoginParams(cfg, form, state, nonce);
      && Get(p, "response_type") == Some("id_token")
      && Get(p, "client_id") == Some(cfg.platformClientId)
      && Get(p, "redirect_uri") == Some(cfg.toolRedirectUri)
  {
    var p := LoginParams(cfg, form, state, nonce);
    GetAt(p, 0, "response_type");
    GetAt(p, 2, "client_id");
    GetAt(p, 3, "redirect_uri");
  }

  /** The parameters passing the browser's hints on. */
  lemma LoginParamsHints(cfg: Config, form: LoginForm, state: string, nonce: string)
    ensures var p := LoginParams(cfg, form, state, nonce);
      && Get(p, "login_hint") == Some(OptStr(form.loginHint))
      && Get(p, "lti_message_hint") == Some(OptStr(form.messageHint))
  {
    var p := LoginParams(cfg, form, state, nonce);
    GetAt(p, 4, "login_hint");
    GetAt(p, 5, "lti_message_hint");
  }

  /** The parameters carrying the session. */
  lemma LoginParamsTail(cfg: Config, form: LoginForm, state: string, nonce: string)
    ensures var p := LoginParams(cfg, form, state, nonce);
      Get(p, "state") == Some(state) && Get(p, "nonce") == Some(nonce)
  {
    var p := LoginParams(cfg, form, state, nonce);
    // "scope", "state" and "nonce" have the same length and differ early
    assert p[1].0[1] != "state"[1] && p[1].0[0] != "nonce"[0] && p[6].0[0] != "nonce"[0];
    assert |p[0].0| != 5 && |p[2].0| != 5 && |p[3].0| != 5 && |p[4].0| != 5 && |p[5].0| != 5;
    GetAt(p, 6, "state");
    GetAt(p, 7, "nonce");
  }

  /** The parameter asking for the form post. */
  lemma LoginParamsMode(cfg: Config, form: LoginForm, state: string, nonce: string)
    ensures Get(LoginParams(cfg, form, state, nonce), "response_mode") == Some("form_post")
  {
    var p := LoginParams(cfg, form, state, nonce);
    // the only earlier name of the same length differs at position 9
    assert p[0].0[9] != "response_mode"[9];
    assert |p[1].0| != 13 && |p[2].0| != 13 && |p[3].0| != 13;
    assert |p[4].0| != 13 && |p[5].0| != 13 && |p[6].0| != 13 && |p[7].0| != 13;
    GetAt(p, 8, "response_mode");
  }

  /** The reply of GET /lti/auth: a self-submitting form posting the signed
      id_token and the state to the redirect URI, or a 400 error. */
  datatype AuthReply =
    | IdTokenForm(action: string, idToken: string, state: string)
    | AuthError(status: nat, message: string)

  /** Why the deep-link return endpoint answers 400. */
  datatype DeepLinkFailure =
    | MissingJwt              // no JWT field, or an empty one
    | JwtRejected             // the token does not verify against the signing service's keys
    | WrongMessageType        // message type other than LtiDeepLinkingResponse
    | ItemsNotIterable        // content_items is present but not an array
    | NullItemInPage          // rendering reads `.title` of a null item, after the items are stored

  datatype DeepLinkReply =
    | ItemsReceived(itemIds: seq<string>)
    | DeepLinkError(status: nat, failure: DeepLinkFailure)

  /** The reply of the relaunch page of a stored item. */
  datatype ItemPage =
    | LaunchItemForm(form: LoginForm)
    | ItemNotFound(status: nat)

  /** `dl_${Date.now()}_${index}`: the id a received content item is stored under. */
  function DeepLinkItemId(t: nat, i: nat): string
  {
    "dl_" + NatToDecimal(t) + "_" + NatToDecimal(i)
  }

  /** Two numerals joined by `_` determine both numerals. */
  lemma DigitsJoinInjective(a: string, b: string, c: string, d: string)
    requires AllDigits(a) && AllDigits(c)
    requires a + "_" + b == c + "_" + d
    ensures a == c && b == d
  {
    var s := a + "_" + b;
    var s' := c + "_" + d;
    FirstUnderscore(a, b);
    FirstUnderscore(c, d);
    assert |a| == |c|;
    assert a == s[..|a|] && c == s'[..|c|];
    assert b == s[|a| + 1..] && d == s'[|c| + 1..];
  }

  /** In a numeral followed by `_`, that `_` is the first one. */
  lemma FirstUnderscore(a: string, b: string)
    requires AllDigits(a)
    ensures (a + "_" + b)[|a|] == '_'
    ensures forall j :: 0 <= j < |a| ==> (a + "_" + b)[j] != '_'
  {
    forall j | 0 <= j < |a|
      ensures (a + "_" + b)[j] != '_'
    {
      assert (a + "_" + b)[j] == a[j] && IsDigit(a[j]);
    }
  }

  /** Distinct (reading, index) pairs give distinct item ids. */
  lemma DeepLinkItemIdInjective(t: nat, i: nat, t': nat, i': nat)
    ensures DeepLinkItemId(t, i) == DeepLinkItemId(t', i') <==> t == t' && i == i'
  {
    if DeepLinkItemId(t, i) == DeepLinkItemId(t', i') {
      var s := NatToDecimal(t) + "_" + NatToDecimal(i);
      var s' := NatToDecimal(t') + "_" + NatToDecimal(i');
      assert DeepLinkItemId(t, i) == "dl_" + s;
      assert DeepLinkItemId(t', i') == "dl_" + s';
      assert s == DeepLinkItemId(t, i)[3..] && s' == DeepLinkItemId(t', i')[3..];
      DigitsJoinInjective(NatToDecimal(t), NatToDecimal(i), NatToDecimal(t'), NatToDecimal(i'));
      DecimalInjective(t, t');
      DecimalInjective(i, i');
    }
  }

  /** The item store after the `forEach` over `items` has run from index `i`
      on, reading the clock once per item. */
  function StoreItems(store: map<string, Json>, items: seq<Json>, clock: nat -> nat, i: nat): map<string, Json>
    requires i <= |items|
    decreases |items| - i
  {
    if i == |items| then store
    else StoreItems(store[DeepLinkItemId(clock(i), i) := items[i]], items, clock, i + 1)
  }

  /** The ids the `forEach` hands out, in item order. */
  function ItemIds(n: nat, clock: nat -> nat): (ids: seq<string>)
    ensures |ids| == n
    ensures forall i :: 0 <= i < n ==> ids[i] == DeepLinkItemId(clock(i), i)
  {
    if n == 0 then [] else ItemIds(n - 1, clock) + [DeepLinkItemId(clock(n - 1), n - 1)]
  }

  /** n items get n distinct ids, whatever the clock readings. */
  lemma ItemIdsDistinct(n: nat, clock: nat -> nat)
    ensures forall i, j :: 0 <= i < j < n ==> ItemIds(n, clock)[i] != ItemIds(n, clock)[j]
  {
    forall i, j | 0 <= i < j < n
      ensures ItemIds(n, clock)[i] != ItemIds(n, clock)[j]
    {
      DeepLinkItemIdInjective(clock(i), i, clock(j), j);
    }
  }

  /** Storing items from index `i` on: every such item is stored unchanged
      under its id, and every other key keeps its entry. */
  lemma {:induction false} StoreItemsSpec(store: map<string, Json>, items: seq<Json>, clock: nat -> nat, i: nat)
    requires i <= |items|
    ensures var r := StoreItems(store, items, clock, i);
      forall j :: i <= j < |items| ==>
        DeepLinkItemId(clock(j), j) in r && r[DeepLinkItemId(clock(j), j)] == items[j]
    ensures var r := StoreItems(store, items, clock, i);
      forall k :: (forall j :: i <= j < |items| ==> k != DeepLinkItemId(clock(j), j)) ==>
        (k in r <==> k in store) && (k in store ==> r[k] == store[k])
    decreases |items| - i
  {
    if i < |items| {
      var store' := store[DeepLinkItemId(clock(i), i) := items[i]];
      StoreItemsSpec(store', items, clock, i + 1);
      forall j | i < j < |items|
        ensures DeepLinkItemId(clock(j), j) != DeepLinkItemId(clock(i), i)
      {
        DeepLinkItemIdInjective(clock(j), j, clock(i), i);
      }
    }
  }

  class Platform {
    const cfg: Config
    /** `authSessions`: login sessions awaiting authorization, keyed by state. */
    var authSessions: map<string, AuthSession>
    /** `deepLinkItems`: content items received from the Tool, keyed by item id. */
    var deepLinkItems: map<string, Json>

    constructor(cfg: Config)
      ensures this.cfg == cfg
      ensures authSessions == map[] && deepLinkItems == map[]
    {
      this.cfg := cfg;
      authSessions := map[];
      deepLinkItems := map[];
    }

    /** POST /lti/login with fresh `state` and `nonce`: records the session
        under `state` and redirects to the Tool's login initiation URL. */
    method Login(form: LoginForm, state: string, nonce: string) returns (redirect: Url)
      modifies this`authSessions
      ensures authSessions == old(authSessions)[state :=
        AuthSession(nonce, form.loginHint, form.messageHint, form.clientId, form.targetLinkUri)]
      ensures redirect == Url(cfg.toolLoginUrl, LoginParams(cfg, form, state, nonce))
    {
      authSessions := authSessions[state :=
        AuthSession(nonce, form.loginHint, form.messageHint, form.clientId, form.targetLinkUri)];
      redirect := Url(cfg.toolLoginUrl, LoginParams(cfg, form, state, nonce));
    }

    /** GET /lti/auth: an unknown state or a nonce other than the session's is
        refused and changes nothing; otherwise the session is consumed and the
        signed claim set is posted to the redirect URI. */
    method Authorize(state: Option<string>, nonce: Option<string>, redirectUri: Option<string>,
                     sign: Signer, clock: AuthClock) returns (reply: AuthReply)
      modifies this`authSessions
      ensures state.None? || state.value !in old(authSessions) ==>
        reply == AuthError(400, "Invalid state parameter") && authSessions == old(authSessions)
      ensures state.Some? && state.value in old(authSessions) && nonce != Some(old(authSessions)[state.value].nonce) ==>
        reply == AuthError(400, "Invalid nonce parameter") && authSessions == old(authSessions)
      ensures state.Some? && state.value in old(authSessions) && nonce == Some(old(authSessions)[state.value].nonce) ==>
        && reply == IdTokenForm(OptStr(redirectUri),
                                sign(AuthClaims(cfg, old(authSessions)[state.value], nonce.value, clock)),
                                state.value)
        && authSessions == old(authSessions) - {state.value}
    {
      if state.None? || state.value !in authSessions {
        return AuthError(400, "Invalid state parameter");
      }
      var session := authSessions[state.value];
      if nonce != Some(session.nonce) {
        return AuthError(400, "Invalid nonce parameter");
      }
      var idToken := sign(AuthClaims(cfg, session, nonce.value, clock));
      authSessions := authSessions - {state.value};
      reply := IdTokenForm(OptStr(redirectUri), idToken, state.value);
    }

    /** POST to the deep-link return URL: verifies the token against the
        signing service's keys, checks the message type, and stores each
        content item under `dl_<reading>_<index>`. */
    method ReceiveDeepLink(jwt: Option<string>, verify: Verifier, clock: nat -> nat) returns (reply: DeepLinkReply)
      modifies this`deepLinkItems
      ensures !TruthyStr(jwt) ==> reply == DeepLinkError(400, MissingJwt) && deepLinkItems == old(deepLinkItems)
      ensures TruthyStr(jwt) && verify(jwt.value).None? ==>
        reply == DeepLinkError(400, JwtRejected) && deepLinkItems == old(deepLinkItems)
      ensures TruthyStr(jwt) && verify(jwt.value).Some? ==>
        var payload := verify(jwt.value).value;
        var items := Field(payload, ContentItemsClaim);
        if !StrictEqualsStr(Field(payload, MessageTypeClaim), Some(DeepLinkingResponse)) then
          reply == DeepLinkError(400, WrongMessageType) && deepLinkItems == old(deepLinkItems)
        else if items.None? || items.value.JNull? then
          reply == ItemsReceived([]) && deepLinkItems == old(deepLinkItems)
        else if !items.value.JArr? then
          reply == DeepLinkError(400, ItemsNotIterable) && deepLinkItems == old(deepLinkItems)
        else
          && deepLinkItems == StoreItems(old(deepLinkItems), items.value.items, clock, 0)
          && reply == (if JNull in items.value.items then DeepLinkError(400, NullItemInPage)
                       else ItemsReceived(ItemIds(|items.value.items|, clock)))
    {
      if !TruthyStr(jwt) {
        return DeepLinkError(400, MissingJwt);
      }
      var verified := verify(jwt.value);
      if verified.None? {
        return DeepLinkError(400, JwtRejected);
      }
      var payload := verified.value;
      if !StrictEqualsStr(Field(payload, MessageTypeClaim), Some(DeepLinkingResponse)) {
        return DeepLinkError(400, WrongMessageType);
      }
      var contentItems := Field(payload, ContentItemsClaim);
      if contentItems.None? || contentItems.value.JNull? {
        return ItemsReceived([]);
      }
      if !contentItems.value.JArr? {
        return DeepLinkError(400, ItemsNotIterable);
      }
      var items := contentItems.value.items;
      var ids := StoreContentItems(items, clock);
      if JNull in items {
        return DeepLinkError(400, NullItemInPage);
      }
      reply := ItemsReceived(ids);
    }

    /** The `forEach` over the content items: item i is stored under the id
        built from the i-th clock reading and i, and the ids are collected. */
    method StoreContentItems(items: seq<Json>, clock: nat -> nat) returns (ids: seq<string>)
      modifies this`deepLinkItems
      ensures deepLinkItems == StoreItems(old(deepLinkItems), items, clock, 0)
      ensures ids == ItemIds(|items|, clock)
    {
      ids := [];
      var i := 0;
      while i < |items|
        invariant 0 <= i <= |items|
        invariant StoreItems(deepLinkItems, items, clock, i) == StoreItems(old(deepLinkItems), items, clock, 0)
        invariant ids == ItemIds(i, clock)
      {
        var itemId := DeepLinkItemId(clock(i), i);
        deepLinkItems := deepLinkItems[itemId := items[i]];
        ids := ids + [itemId];
        i := i + 1;
      }
    }

    /** GET /lms/course/:courseId/launch/deeplink/:itemId: a stored, truthy
        item yields the login form that relaunches it with the hint
        "deeplink-<item id>"; anything else is 404. */
    function DeepLinkLaunchPage(itemId: string): (page: ItemPage)
      reads this
      ensures !(itemId in deepLinkItems && Truthy(Some(deepLinkItems[itemId]))) <==> page == ItemNotFound(404)
      ensures page.LaunchItemForm? ==>
        && page.form.messageHint == Some("deeplink-" + itemId)
        && page.form.targetLinkUri == Some(OptString(Prop(deepLinkItems[itemId], "url")))
        && page.form.clientId == Some(cfg.platformClientId)
        && page.form.iss == Some(cfg.issuer)
        && page.form.loginHint == Some("user123")
        && page.form.resourceLinkId == Some(itemId)
    {
      var item := Field(deepLinkItems, itemId);
      if !Truthy(item) then ItemNotFound(404)
      else
        LaunchItemForm(LoginForm(
          Some(cfg.issuer), Some("user123"), Some(OptString(Prop(item.value, "url"))),
          Some("deeplink-" + itemId), Some(cfg.platformClientId), Some(itemId)))
    }
  }

  /** GET /lms/course/:courseId/launch (tool defaulting to "demo"): the login
      form of an ordinary course launch. */
  function CourseLaunchForm(cfg: Config, courseId: string, tool: Option<string>): (form: LoginForm)
    ensures form.messageHint == Some("course-" + courseId + "-tool-" + (if tool.Some? then tool.value else "demo"))
    ensures form.targetLinkUri == Some(cfg.targetLinkUri) && form.resourceLinkId.None?
  {
    var t := if tool.Some? then tool.value else "demo";
    LoginForm(Some(cfg.issuer), Some("user123"), Some(cfg.targetLinkUri),
              Some("course-" + courseId + "-tool-" + t), Some(cfg.platformClientId), None)
  }

  /** A course launch never selects the deep-link item branch. */
  lemma CourseLaunchIsNotDeepLink(cfg: Config, courseId: string, tool: Option<string>)
    ensures !IsDeepLinkHint(CourseLaunchForm(cfg, courseId, tool).messageHint)
  {
    var h := CourseLaunchForm(cfg, courseId, tool).messageHint.value;
    assert h[0] == 'c';
  }

  /** GET /learn/api/public/v1/oauth2/authorizationcode: the redirect to the
      callback named by `redirect_uri`, with `code`, `scope` and (when given)
      `state` set on the callback's own query. `codeSuffix` stands for the
      random part of the code. Percent-decoding is not modelled. */
  function AuthorizationCodeRedirect(redirectUri: Option<string>, scope: Option<string>,
                                     state: Option<string>, codeSuffix: string): Url
  {
    var parts := Split(OptStr(redirectUri), '?');
    var existing := if |parts| > 1 then Parse(parts[1]) else [];
    var withCode := Set(existing, "code", "mock_auth_code_" + codeSuffix);
    var withScope := Set(withCode, "scope", if TruthyStr(scope) then scope.value else "*");
    Url(parts[0], if TruthyStr(state) then Set(withScope, "state", state.value) else withScope)
  }

  /** The query the callback already had, as `new URLSearchParams(existing || '')` reads it. */
  function CallbackQuery(redirectUri: Option<string>): Params
  {
    var parts := Split(OptStr(redirectUri), '?');
    if |parts| > 1 then Parse(parts[1]) else []
  }

  /** The redirect goes to the callback's address (everything before the
      first `?`), carries the code and the scope (default "*"), overrides the
      callback's `state` only with a non-empty one, and keeps every other
      parameter of the callback. */
  lemma AuthorizationCodeRedirectSpec(redirectUri: Option<string>, scope: Option<string>,
                                      state: Option<string>, codeSuffix: string, k: string)
    ensures var r := AuthorizationCodeRedirect(redirectUri, scope, state, codeSuffix);
      && '?' !in r.base
      && StartsWith(OptStr(redirectUri), r.base)
      && (|r.base| == |OptStr(redirectUri)| || OptStr(redirectUri)[|r.base|] == '?')
      && Get(r.query, "code") == Some("mock_auth_code_" + codeSuffix)
      && Get(r.query, "scope") == Some(if TruthyStr(scope) then scope.value else "*")
      && Get(r.query, "state") == (if TruthyStr(state) then state else Get(CallbackQuery(redirectUri), "state"))
      && (k != "code" && k != "scope" && k != "state" ==> Get(r.query, k) == Get(CallbackQuery(redirectUri), k))
  {
    var s := OptStr(redirectUri);
    var parts := Split(s, '?');
    var existing := CallbackQuery(redirectUri);
    var code := "mock_auth_code_" + codeSuffix;
    var sc := if TruthyStr(scope) then scope.value else "*";
    SetGet(existing, "code", code, k);
    SetGet(existing, "code", code, "scope");
    SetGet(existing, "code", code, "state");
    var withCode := Set(existing, "code", code);
    SetGet(withCode, "scope", sc, k);
    SetGet(withCode, "scope", sc, "code");
    SetGet(withCode, "scope", sc, "state");
    var withScope := Set(withCode, "scope", sc);
    if TruthyStr(state) {
      SetGet(withScope, "state", state.value, k);
      SetGet(withScope, "state", state.value, "code");
      SetGet(withScope, "state", state.value, "scope");
    }
    SplitFirst(s, '?');
  }

  /** The first part of `s.split(c)` is the prefix of `s` before the first `c`. */
  lemma SplitFirst(s: string, c: char)
    ensures c !in Split(s, c)[0] && StartsWith(s, Split(s, c)[0])
    ensures |Split(s, c)[0]| == |s| || s[|Split(s, c)[0]|] == c
  {
    if c in s {
      var i := IndexOf(s, c);
      assert Split(s, c)[0] == s[..i];
    }
  }
}
