/**
 * The multi-tenant installer (`handlers/install.ts`): the webhook overview,
 * selective registration and deletion, the `"ALL"`/array topic selector, and
 * the `onRequest` decision table (parameter validation, access-token check,
 * first-install credential storage, then GET/POST/DELETE/PUT dispatch).
 */
module Install {
  import opened Wrappers
  import opened Js
  import opened Text
  import opened Remote
  import opened Webhooks

  /** `AVAILABLE_WEBHOOKS`: fulfillment creation, delivered to the `update_payment_terms` Pub/Sub topic. */
  function AvailableWebhooks(project: string): (r: seq<WebhookInput>)
    ensures |r| == 1 && r[0].topic == "FULFILLMENTS_CREATE"
    ensures forall w :: w in r ==> w.pubSubProject == project && w.pubSubTopic == "update_payment_terms" && w.format == "JSON"
  {
    [WebhookInput("FULFILLMENTS_CREATE", project, "update_payment_terms", "JSON")]
  }

  /** `AVAILABLE_WH_PUBSUB_TOPICS`: the Pub/Sub topic of each available webhook. */
  function AvailableTopics(project: string): (r: seq<string>)
    ensures |r| == |AvailableWebhooks(project)|
    ensures forall k :: 0 <= k < |r| ==> r[k] == AvailableWebhooks(project)[k].pubSubTopic
  {
    var ws := AvailableWebhooks(project);
    seq(|ws|, k requires 0 <= k < |ws| => ws[k].pubSubTopic)
  }

  /** `WebhooksOverview`. */
  datatype Overview = Overview(available: seq<string>, installed: seq<Subscription>, missing: seq<WebhookInput>)

  function OverviewOf(project: string, installed: seq<Subscription>): Overview
  {
    Overview(AvailableTopics(project), installed, Missing(AvailableWebhooks(project), installed))
  }

  /** `getAllWebhooks`: one list query, then the diff against the available webhooks. */
  method GetAllWebhooks(admin: Admin, project: string) returns (overview: Overview)
    modifies admin
    ensures overview == OverviewOf(project, old(admin.subscriptions))
    ensures admin.calls == old(admin.calls) + [Call.ListWebhooks]
    ensures admin.subscriptions == old(admin.subscriptions) && admin.nextId == old(admin.nextId)
    ensures admin.orders == old(admin.orders) && admin.draftOrders == old(admin.draftOrders)
  {
    var installed := admin.ListWebhooks();
    overview := Overview(AvailableTopics(project), installed, Missing(AvailableWebhooks(project), installed));
  }

  /** The calls `registerWebhooks` issues: a list, one create per selected missing entry, and a second list only if something was created. */
  function RegisterCalls(toInstall: seq<WebhookInput>): seq<Call>
  {
    [Call.ListWebhooks] + CreateCalls(toInstall) + (if toInstall == [] then [] else [Call.ListWebhooks])
  }

  /** `registerWebhooks`: creates the missing available webhooks the predicate selects (none without one). */
  method RegisterWebhooks(admin: Admin, project: string, select: Option<WebhookInput -> bool>) returns (overview: Overview)
    requires admin.Valid()
    modifies admin
    ensures admin.Valid()
    ensures var toInstall := ToInstall(Missing(AvailableWebhooks(project), old(admin.subscriptions)), select);
      && admin.subscriptions == old(admin.subscriptions) + Created(old(admin.nextId), toInstall)
      && admin.calls == old(admin.calls) + RegisterCalls(toInstall)
      && (forall w :: w in toInstall ==> w !in overview.missing)
    ensures overview == OverviewOf(project, admin.subscriptions)
    ensures admin.orders == old(admin.orders) && admin.draftOrders == old(admin.draftOrders)
  {
    ghost var subs0, next0, calls0 := admin.subscriptions, admin.nextId, admin.calls;
    overview := GetAllWebhooks(admin, project);
    var toInstall := if select.Some? then Filter(overview.missing, select.value) else [];
    assert toInstall == ToInstall(Missing(AvailableWebhooks(project), subs0), select);
    if |toInstall| > 0 {
      CreateAll(admin, toInstall);
      overview := GetAllWebhooks(admin, project);
      assert admin.calls == calls0 + RegisterCalls(toInstall) by {
        assert RegisterCalls(toInstall) == [Call.ListWebhooks] + CreateCalls(toInstall) + [Call.ListWebhooks];
      }
      CreatedNoLongerMissing(AvailableWebhooks(project), subs0, next0, toInstall);
    } else {
      assert Created(next0, toInstall) == [] && CreateCalls(toInstall) == [];
      assert admin.subscriptions == subs0 + [];
      assert RegisterCalls(toInstall) == [Call.ListWebhooks];
    }
  }

  /** The subscriptions `deleteWebhooks` deletes: all of them without a predicate. */
  function Victims(installed: seq<Subscription>, select: Option<Subscription -> bool>): seq<Subscription>
  {
    if select.None? then installed else Filter(installed, select.value)
  }

  /** `deleteWebhooks`: deletes the selected installed subscriptions, or all of them, and leaves the rest in order. */
  method DeleteWebhooks(admin: Admin, select: Option<Subscription -> bool>) returns (done: bool)
    requires admin.Valid()
    modifies admin
    ensures admin.Valid() && done
    ensures admin.subscriptions == (if select.None? then [] else Reject(old(admin.subscriptions), select.value))
    ensures admin.calls == old(admin.calls) + [Call.ListWebhooks] + DeleteCalls(Victims(old(admin.subscriptions), select))
    ensures admin.nextId == old(admin.nextId)
    ensures admin.orders == old(admin.orders) && admin.draftOrders == old(admin.draftOrders)
  {
    var installed := admin.ListWebhooks();
    var victims := if select.Some? then Filter(installed, select.value) else installed;
    DeleteEach(admin, victims);
    if select.Some? {
      RemovingSelectedKeepsRest(installed, select.value);
    } else {
      RemovingAllLeavesNone(installed, IdsOf(installed));
    }
    done := true;
  }

  /** A selector element is kept when it is a non-empty string naming an available Pub/Sub topic. */
  predicate IsKnownTopic(x: Json, project: string)
  {
    Truthy(x) && x.Str? && exists w :: w in AvailableWebhooks(project) && w.pubSubTopic == x.s
  }

  /** The kept elements of an array selector, as strings, in their order. */
  function KnownTopics(xs: seq<Json>, project: string): (r: seq<string>)
    ensures forall t :: t in r <==> Str(t) in xs && IsKnownTopic(Str(t), project)
    ensures |r| <= |xs|
  {
    if xs == [] then []
    else (if IsKnownTopic(xs[0], project) then [xs[0].s] else []) + KnownTopics(xs[1..], project)
  }

  /** `getWebhooksToConfigure`: `"ALL"` selects every available topic, an array its known topics, anything else nothing. */
  function WebhooksToConfigure(x: Json, project: string): (r: Option<seq<string>>)
    ensures x == Str("ALL") ==> r == Some(AvailableTopics(project))
    ensures x.Arr? ==> r.Some? && forall t :: t in r.value <==> Str(t) in x.items && t != [] && t in AvailableTopics(project)
    ensures !x.Arr? && x != Str("ALL") ==> r.None?
  {
    if x == Str("ALL") then Some(AvailableTopics(project))
    else if x.Arr? then Some(KnownTopics(x.items, project))
    else None
  }

  /** Strings wrapped back as JSON, to compare a topic list with the array it came from. */
  function AsJson(ts: seq<string>): (r: seq<Json>)
    ensures |r| == |ts| && forall k :: 0 <= k < |ts| ==> r[k] == Str(ts[k])
  {
    seq(|ts|, k requires 0 <= k < |ts| => Str(ts[k]))
  }

  /** The topics an array selects keep the array's order. */
  lemma {:induction false} KnownTopicsKeepOrder(xs: seq<Json>, project: string)
    ensures IsSubsequence(AsJson(KnownTopics(xs, project)), xs)
  {
    if xs != [] {
      KnownTopicsKeepOrder(xs[1..], project);
      var rest := AsJson(KnownTopics(xs[1..], project));
      if IsKnownTopic(xs[0], project) {
        assert AsJson(KnownTopics(xs, project)) == [xs[0]] + rest;
        assert ([xs[0]] + rest)[1..] == rest;
      } else {
        assert AsJson(KnownTopics(xs, project)) == rest;
      }
    }
  }

  /** The registration predicate built from a topic list: `toAdd.includes(whInput.input.pubSubTopic)`. */
  function WebhookTopicIn(topics: seq<string>): WebhookInput -> bool
  {
    (w: WebhookInput) => w.pubSubTopic in topics
  }

  /** The deletion predicate built from a topic list: `toRemove.includes(wh.endpoint.pubSubTopic)`. */
  function SubscriptionTopicIn(topics: seq<string>): Subscription -> bool
  {
    (s: Subscription) => s.endpoint.PubSubEndpoint? && s.endpoint.pubSubTopic in topics
  }

  // ------------------------------------------------------------- onRequest

  /** The request-body fields the validation reports. */
  datatype Param = ShopParam | MethodParam | AccessTokenParam

  /** `_METHODS`. */
  const Methods: seq<string> := ["GET", "POST", "DELETE", "PUT"]

  /** The body's `accessToken` when it is a string. */
  function BodyToken(body: Json): Option<string>
  {
    var t := Get(body, "accessToken");
    if t.Str? then Some(t.s) else None
  }

  /** A token was presented: a non-empty string. */
  predicate HasToken(token: Option<string>)
  {
    token.Some? && token.value != []
  }

  /**
   * The keys of `_request_invalid_params`, for a string `method`: the shop must be a
   * non-empty string, the method one of `_METHODS` in any case, and every method but
   * GET needs a token.
   */
  function InvalidParams(shop: Json, requested: string, token: Option<string>): (r: set<Param>)
    ensures ShopParam in r <==> !shop.Str? || shop.s == []
    ensures MethodParam in r <==> Upper(requested) !in Methods
    ensures AccessTokenParam in r <==> Upper(requested) != "GET" && !HasToken(token)
  {
    var r0: set<Param> := {};
    var r1 := if !Truthy(shop) || !shop.Str? then r0 + {ShopParam} else r0;
    var r2 := if requested == [] || Upper(requested) !in Methods then r1 + {MethodParam} else r1;
    if Upper(requested) != "GET" && !HasToken(token) then r2 + {AccessTokenParam} else r2
  }

  datatype Verb = GET | POST | DELETE | PUT

  function Name(v: Verb): string
  {
    match v
    case GET => "GET"
    case POST => "POST"
    case DELETE => "DELETE"
    case PUT => "PUT"
  }

  /** The verb of an upper-cased method name that passed validation. */
  function ParseVerb(m: string): (v: Verb)
    requires m in Methods
    ensures Name(v) == m
  {
    if m == "GET" then GET else if m == "POST" then POST else if m == "DELETE" then DELETE else PUT
  }

  /** How far a request gets before any webhook call. */
  datatype Admission =
    | ServePage                      // HTTP GET: the install page
    | NotPost                        // any HTTP method but GET and POST
    | Throws                         // destructuring a null body, or `toUpperCase` of a non-string `method`
    | Invalid(params: set<Param>)    // some required parameter missing
    | TokenRejected                  // the presented token does not belong to the shop
    | NotInstalled(forGet: bool)     // no stored token and none presented
    | Admitted(verb: Verb, shop: string, auth: StoredAuth, stores: bool, previous: Option<StoredAuth>)

  /**
   * The decision `onRequest` takes before dispatching: `shopInfo` is the shop domain the
   * platform reports for the presented token (`None` when that query fails), `docs` the
   * credential store. An admitted request carries the credentials it will use, whether
   * they are written to the store first, and the stored credentials it found.
   */
  function Admit(httpMethod: string, body: Json, shopInfo: Option<string>, docs: map<string, StoredAuth>): (a: Admission)
    ensures a.Admitted? && a.previous.Some? ==> a.previous.value.accessToken == a.auth.accessToken && !a.stores
    ensures a.Admitted? && a.stores ==> !(a.shop in docs && Truthy(docs[a.shop].accessToken))
    ensures a.Admitted? ==> Truthy(a.auth.accessToken)
    ensures a.Admitted? && a.shop in docs && Truthy(docs[a.shop].accessToken) ==> a.auth == docs[a.shop]
    ensures a.Invalid? ==> a.params != {}
  {
    var reqMethod := Upper(httpMethod);
    if reqMethod == "GET" then ServePage
    else if reqMethod != "POST" then NotPost
    else if body.Null? || body.Undefined? then Throws
    else
      var shop := Get(body, "shop");
      var requested := Get(body, "method");
      if !requested.Str? then Throws
      else
        var token := BodyToken(body);
        var invalid := InvalidParams(shop, requested.s, token);
        if invalid != {} then Invalid(invalid)
        else if HasToken(token) && (shopInfo.None? || shopInfo.value != shop.s) then TokenRejected
        else
          var verb := ParseVerb(Upper(requested.s));
          var auth := if shop.s in docs then docs[shop.s] else StoredAuth(Str(shop.s), Str(""));
          if Truthy(auth.accessToken) then Admitted(verb, shop.s, auth, false, Some(auth))
          else if !HasToken(token) then NotInstalled(verb == GET)
          else Admitted(verb, shop.s, auth.(accessToken := Str(token.value)), true, None)
  }

  /** A POST whose string `method` leaves a parameter invalid is refused with exactly those parameters, before the token, the store or the platform is consulted. */
  lemma InvalidRequestRefused(httpMethod: string, body: Json, shopInfo: Option<string>, docs: map<string, StoredAuth>)
    requires Upper(httpMethod) == "POST" && body.Obj? && Get(body, "method").Str?
    requires InvalidParams(Get(body, "shop"), Get(body, "method").s, BodyToken(body)) != {}
    ensures Admit(httpMethod, body, shopInfo, docs) == Invalid(InvalidParams(Get(body, "shop"), Get(body, "method").s, BodyToken(body)))
    ensures forall otherInfo, otherDocs :: Admit(httpMethod, body, otherInfo, otherDocs) == Admit(httpMethod, body, shopInfo, docs)
  {
  }

  /** A shop with a stored token keeps it: the request is served with the stored credentials and nothing is written. */
  lemma StoredTokenKept(httpMethod: string, body: Json, shopInfo: Option<string>, docs: map<string, StoredAuth>)
    requires var a := Admit(httpMethod, body, shopInfo, docs);
      a.Admitted? && a.shop in docs && Truthy(docs[a.shop].accessToken)
    ensures var a := Admit(httpMethod, body, shopInfo, docs);
      !a.stores && a.auth == docs[a.shop] && a.previous == Some(docs[a.shop])
  {
  }

  /** The reply `onRequest` sends. */
  datatype Reply =
    | InstallPage                        // 200, HTML
    | BadRequest                         // 400 "Bad request."
    | Crashed                            // the handler throws before replying
    | MissingParams(params: set<Param>)  // 400 with the invalid parameters
    | BadAccessToken                     // 401
    | ShopNotInstalled(forGet: bool)     // 400, "Shop is not installed." for GET, else "Missing required params"
    | Webhooks(overview: Overview)       // 200 with the webhook overview
    | Uninstalled                        // 200
    | Unauthorized                       // 401, the fall-through

  function Status(r: Reply): Option<int>
  {
    match r
    case InstallPage => Some(200)
    case BadRequest => Some(400)
    case Crashed => None
    case MissingParams(_) => Some(400)
    case BadAccessToken => Some(401)
    case ShopNotInstalled(_) => Some(400)
    case Webhooks(_) => Some(200)
    case Uninstalled => Some(200)
    case Unauthorized => Some(401)
  }

  /** The reply to a request that is not admitted. */
  function Refusal(a: Admission): Reply
    requires !a.Admitted?
  {
    match a
    case ServePage => InstallPage
    case NotPost => BadRequest
    case Throws => Crashed
    case Invalid(ps) => MissingParams(ps)
    case TokenRejected => BadAccessToken
    case NotInstalled(forGet) => ShopNotInstalled(forGet)
  }

  /** `request.body.webhooks?.add` (or `remove`) read as a topic selector. */
  function Selector(body: Json, key: string, project: string): Option<seq<string>>
  {
    WebhooksToConfigure(Get(Get(body, "webhooks"), key), project)
  }

  function RegisterSelect(toAdd: Option<seq<string>>): Option<WebhookInput -> bool>
  {
    if toAdd.Some? then Some(WebhookTopicIn(toAdd.value)) else None
  }

  /** The subscriptions PUT keeps before adding: those whose topic is not in `remove`. */
  function AfterRemove(installed: seq<Subscription>, toRemove: Option<seq<string>>): seq<Subscription>
  {
    if toRemove.Some? then Reject(installed, SubscriptionTopicIn(toRemove.value)) else installed
  }

  /** GET: the overview of the installed subscriptions, nothing changed. */
  ghost predicate Listed(project: string, subs0: seq<Subscription>, calls0: seq<Call>,
                         subs1: seq<Subscription>, calls1: seq<Call>, reply: Reply)
  {
    && reply == Webhooks(OverviewOf(project, subs0))
    && subs1 == subs0
    && calls1 == calls0 + [Call.ListWebhooks]
  }

  /** POST: the selected missing webhooks are created, then the overview is returned. */
  ghost predicate Registered(project: string, body: Json, subs0: seq<Subscription>, next0: nat, calls0: seq<Call>,
                             subs1: seq<Subscription>, calls1: seq<Call>, reply: Reply)
  {
    var toAdd := Selector(body, "add", project);
    var toInstall := ToInstall(Missing(AvailableWebhooks(project), subs0), RegisterSelect(toAdd));
    && subs1 == subs0 + Created(next0, toInstall)
    && calls1 == calls0 + (if toAdd.Some? then RegisterCalls(toInstall) else [Call.ListWebhooks])
    && reply == Webhooks(OverviewOf(project, subs1))
  }

  /** DELETE: every subscription is deleted. */
  ghost predicate Uninstalled(subs0: seq<Subscription>, calls0: seq<Call>,
                              subs1: seq<Subscription>, calls1: seq<Call>, reply: Reply)
  {
    && subs1 == []
    && calls1 == calls0 + [Call.ListWebhooks] + DeleteCalls(subs0)
    && reply == Reply.Uninstalled
  }

  /** The calls deleting the `remove` topics make: a list and one delete per selected subscription, or none without a selector. */
  function RemovalCalls(installed: seq<Subscription>, toRemove: Option<seq<string>>): seq<Call>
  {
    if toRemove.Some? then [Call.ListWebhooks] + DeleteCalls(Filter(installed, SubscriptionTopicIn(toRemove.value))) else []
  }

  /** PUT: the `remove` topics are deleted first; then what is left is registered exactly as POST would. */
  ghost predicate Reconfigured(project: string, body: Json, subs0: seq<Subscription>, next0: nat, calls0: seq<Call>,
                               subs1: seq<Subscription>, calls1: seq<Call>, reply: Reply)
  {
    var toRemove := Selector(body, "remove", project);
    Registered(project, body, AfterRemove(subs0, toRemove), next0, calls0 + RemovalCalls(subs0, toRemove),
               subs1, calls1, reply)
  }

  /** What dispatching `verb` does to the platform, from the state before to the state and reply after. */
  ghost predicate Dispatched(verb: Verb, project: string, body: Json,
                             subs0: seq<Subscription>, next0: nat, calls0: seq<Call>,
                             subs1: seq<Subscription>, calls1: seq<Call>, reply: Reply)
  {
    match verb
    case GET => Listed(project, subs0, calls0, subs1, calls1, reply)
    case POST => Registered(project, body, subs0, next0, calls0, subs1, calls1, reply)
    case DELETE => Uninstalled(subs0, calls0, subs1, calls1, reply)
    case PUT => Reconfigured(project, body, subs0, next0, calls0, subs1, calls1, reply)
  }

  method DispatchPost(admin: Admin, project: string, body: Json) returns (reply: Reply)
    requires admin.Valid()
    modifies admin
    ensures admin.Valid()
    ensures admin.orders == old(admin.orders) && admin.draftOrders == old(admin.draftOrders)
    ensures Registered(project, body, old(admin.subscriptions), old(admin.nextId), old(admin.calls),
                       admin.subscriptions, admin.calls, reply)
  {
    var toAdd := Selector(body, "add", project);
    var overview;
    if toAdd.Some? {
      overview := RegisterWebhooks(admin, project, RegisterSelect(toAdd));
    } else {
      overview := GetAllWebhooks(admin, project);
      assert admin.subscriptions == old(admin.subscriptions) + [];
    }
    return Webhooks(overview);
  }

  method DispatchPut(admin: Admin, project: string, body: Json) returns (reply: Reply)
    requires admin.Valid()
    modifies admin
    ensures admin.Valid()
    ensures admin.orders == old(admin.orders) && admin.draftOrders == old(admin.draftOrders)
    ensures Reconfigured(project, body, old(admin.subscriptions), old(admin.nextId), old(admin.calls),
                         admin.subscriptions, admin.calls, reply)
  {
    var toRemove := Selector(body, "remove", project);
    RemoveTopics(admin, toRemove);
    reply := DispatchPost(admin, project, body);
  }

  /** The deletions of a PUT: the subscriptions on the `remove` topics, if there is a selector. */
  method RemoveTopics(admin: Admin, toRemove: Option<seq<string>>)
    requires admin.Valid()
    modifies admin
    ensures admin.Valid()
    ensures admin.subscriptions == AfterRemove(old(admin.subscriptions), toRemove)
    ensures admin.calls == old(admin.calls) + RemovalCalls(old(admin.subscriptions), toRemove)
    ensures admin.nextId == old(admin.nextId)
    ensures admin.orders == old(admin.orders) && admin.draftOrders == old(admin.draftOrders)
  {
    if toRemove.Some? {
      var _ := DeleteWebhooks(admin, Some(SubscriptionTopicIn(toRemove.value)));
    } else {
      assert old(admin.calls) + [] == old(admin.calls);
    }
  }

  /**
   * The `try` block of `onRequest` for an admitted request: `auth` holds the credentials
   * in use and `previous` the ones found in the store, whose token is never replaced.
   */
  method Dispatch(admin: Admin, store: CredentialStore, project: string, verb: Verb, shop: string, body: Json,
                  auth: StoredAuth, previous: Option<StoredAuth>)
    returns (reply: Reply)
    requires admin.Valid()
    requires previous.Some? ==> previous.value.accessToken == auth.accessToken
    modifies admin, store
    ensures admin.Valid()
    ensures admin.orders == old(admin.orders) && admin.draftOrders == old(admin.draftOrders)
    ensures store.docs == (if verb == DELETE then old(store.docs) - {shop} else old(store.docs))
    ensures Dispatched(verb, project, body, old(admin.subscriptions), old(admin.nextId), old(admin.calls),
                       admin.subscriptions, admin.calls, reply)
  {
    if verb == POST {
      if previous.Some? && previous.value.accessToken != auth.accessToken {
        // "new app? delete the previous one": unreachable
        assert false;
      }
      reply := DispatchPost(admin, project, body);
      return;
    }

    if verb == DELETE {
      var _ := DeleteWebhooks(admin, None);
      store.Delete(shop);
      return Reply.Uninstalled;
    }

    if verb == GET {
      var overview := GetAllWebhooks(admin, project);
      return Webhooks(overview);
    }

    if verb == PUT {
      reply := DispatchPut(admin, project, body);
      return;
    }

    // the validated method is one of the four above
    assert false;
    return Unauthorized;
  }

  /**
   * `onRequest`. `shopInfo` stands for the shop-info query made with the presented
   * token. A request that is not admitted touches neither the platform nor the store;
   * an admitted one stores the presented token only when no token was stored, and is
   * then dispatched.
   */
  method OnRequest(admin: Admin, store: CredentialStore, gcloudProject: Option<string>, httpMethod: string, body: Json, shopInfo: Option<string>)
    returns (reply: Reply)
    requires admin.Valid()
    modifies admin, store
    ensures admin.Valid()
    ensures admin.orders == old(admin.orders) && admin.draftOrders == old(admin.draftOrders)
    ensures var a := Admit(httpMethod, body, shopInfo, old(store.docs));
      !a.Admitted? ==>
        && reply == Refusal(a)
        && admin.calls == old(admin.calls) && admin.subscriptions == old(admin.subscriptions)
        && store.docs == old(store.docs)
    ensures var a := Admit(httpMethod, body, shopInfo, old(store.docs));
      a.Admitted? ==>
        var written := if a.stores then old(store.docs)[a.shop := a.auth] else old(store.docs);
        && store.docs == (if a.verb == DELETE then written - {a.shop} else written)
        && Dispatched(a.verb, Project(gcloudProject), body, old(admin.subscriptions), old(admin.nextId), old(admin.calls),
                      admin.subscriptions, admin.calls, reply)
  {
    var a := Screen(store, httpMethod, body, shopInfo);
    if !a.Admitted? {
      return Refusal(a);
    }
    if a.stores {
      // first install: the presented token is stored
      store.Set(a.shop, a.auth);
    }
    reply := Dispatch(admin, store, Project(gcloudProject), a.verb, a.shop, body, a.auth, a.previous);
  }

  /**
   * The checks of `onRequest` up to the dispatch, in the source's order: the HTTP
   * method, the body, the parameters, the presented token, then the stored one.
   */
  method Screen(store: CredentialStore, httpMethod: string, body: Json, shopInfo: Option<string>) returns (a: Admission)
    ensures a == Admit(httpMethod, body, shopInfo, store.docs)
  {
    var reqMethod := Upper(httpMethod);
    if reqMethod == "GET" {
      return ServePage;
    }
    if reqMethod != "POST" {
      return NotPost;
    }
    if body.Null? || body.Undefined? {
      // `let { shop, method } = request.body` throws
      return Throws;
    }

    var shop := Get(body, "shop");
    var rawMethod := Get(body, "method");
    var invalid: set<Param> := {};
    if !Truthy(shop) || !shop.Str? {
      invalid := invalid + {ShopParam};
    }
    if !Truthy(rawMethod) || !rawMethod.Str? || Upper(rawMethod.s) !in Methods {
      invalid := invalid + {MethodParam};
    }
    if !rawMethod.Str? {
      // `_method.toUpperCase()` throws before the 400 is sent
      return Throws;
    }
    var requested := Upper(rawMethod.s);
    var bodyToken := BodyToken(body);
    if requested != "GET" && !HasToken(bodyToken) {
      invalid := invalid + {AccessTokenParam};
    }
    assert invalid == InvalidParams(shop, rawMethod.s, bodyToken);
    if invalid != {} {
      return Invalid(invalid);
    }

    // validate the presented token
    if HasToken(bodyToken) {
      if shopInfo.None? || shopInfo.value != shop.s {
        return TokenRejected;
      }
    }

    var verb := ParseVerb(requested);
    var doc := store.Get(shop.s);
    var auth := if doc.Some? then doc.value else StoredAuth(Str(shop.s), Str(""));
    if Truthy(auth.accessToken) {
      return Admitted(verb, shop.s, auth, false, Some(auth));
    }
    if !HasToken(bodyToken) {
      return NotInstalled(verb == GET);
    }
    return Admitted(verb, shop.s, auth.(accessToken := Str(bodyToken.value)), true, None);
  }
}
