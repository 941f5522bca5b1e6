/**
 * The single-shop webhook registrar (`handlers/registerWebhooks.ts`): it keeps
 * the two fulfillment webhooks installed on the app's own shop, and answers a
 * POST whose body carries the shared secret and an inner method (POST
 * registers, DELETE deletes every subscription, GET lists).
 */
module Registrar {
  import opened Wrappers
  import opened Js
  import opened Text
  import opened Remote
  import opened Webhooks

  const PaymentTermsTopic := "update_payment_terms"

  /** `REQUIRED_WEBHOOKS`: fulfillment updates and creations, delivered to the `update_payment_terms` Pub/Sub topic. */
  function RequiredWebhooks(project: string): (r: seq<WebhookInput>)
    ensures |r| == 2 && r[0].topic == "FULFILLMENTS_UPDATE" && r[1].topic == "FULFILLMENTS_CREATE"
    ensures forall w :: w in r ==> w.pubSubProject == project && w.pubSubTopic == PaymentTermsTopic && w.format == "JSON"
  {
    [ WebhookInput("FULFILLMENTS_UPDATE", project, PaymentTermsTopic, "JSON"),
      WebhookInput("FULFILLMENTS_CREATE", project, PaymentTermsTopic, "JSON") ]
  }

  /** What `getAllWebhooks` reports: the installed list and the required entries it lacks. */
  datatype WebhookList = WebhookList(installed: seq<Subscription>, missing: seq<WebhookInput>)

  function ListOf(project: string, installed: seq<Subscription>): (r: WebhookList)
    ensures r.installed == installed
    ensures forall w :: w in r.missing <==> w in RequiredWebhooks(project) && !IsInstalled(w, installed)
  {
    WebhookList(installed, Missing(RequiredWebhooks(project), installed))
  }

  /** `getAllWebhooks`: one list query, then the diff against the required webhooks. */
  method GetAllWebhooks(admin: Admin, project: string) returns (list: WebhookList)
    modifies admin
    ensures list == ListOf(project, old(admin.subscriptions))
    ensures admin.calls == old(admin.calls) + [Call.ListWebhooks]
    ensures admin.subscriptions == old(admin.subscriptions) && admin.nextId == old(admin.nextId)
    ensures admin.orders == old(admin.orders) && admin.draftOrders == old(admin.draftOrders)
  {
    var installed := admin.ListWebhooks();
    list := ListOf(project, installed);
  }

  /** The calls `handler` issues: a list, one create per missing entry, and a second list only if something was created. */
  function HandlerCalls(missing: seq<WebhookInput>): seq<Call>
  {
    [Call.ListWebhooks] + CreateCalls(missing) + (if missing == [] then [] else [Call.ListWebhooks])
  }

  /**
   * `handler`: creates every missing required webhook, then reports the list,
   * re-fetched when something was created. Nothing is missing afterwards.
   */
  method Handler(admin: Admin, project: string) returns (list: WebhookList)
    requires admin.Valid()
    modifies admin
    ensures admin.Valid()
    ensures var missing := Missing(RequiredWebhooks(project), old(admin.subscriptions));
      && admin.subscriptions == old(admin.subscriptions) + Created(old(admin.nextId), missing)
      && admin.nextId == old(admin.nextId) + |missing|
      && admin.calls == old(admin.calls) + HandlerCalls(missing)
    ensures list == ListOf(project, admin.subscriptions)
    ensures list.missing == []
    ensures admin.orders == old(admin.orders) && admin.draftOrders == old(admin.draftOrders)
  {
    var installed := InstallMissing(admin, RequiredWebhooks(project));
    list := ListOf(project, installed);
  }

  /** The body of `handler` for any list of required webhooks: list, create the missing ones, list again if any. */
  method InstallMissing(admin: Admin, required: seq<WebhookInput>) returns (installed: seq<Subscription>)
    requires admin.Valid()
    modifies admin
    ensures admin.Valid()
    ensures var missing := Missing(required, old(admin.subscriptions));
      && admin.subscriptions == old(admin.subscriptions) + Created(old(admin.nextId), missing)
      && admin.nextId == old(admin.nextId) + |missing|
      && admin.calls == old(admin.calls) + HandlerCalls(missing)
    ensures installed == admin.subscriptions
    ensures Missing(required, installed) == []
    ensures admin.orders == old(admin.orders) && admin.draftOrders == old(admin.draftOrders)
  {
    ghost var before, start, calls0 := admin.subscriptions, admin.nextId, admin.calls;
    installed := admin.ListWebhooks();
    var missing := Missing(required, installed);
    if |missing| > 0 {
      CreateAll(admin, missing);
      installed := admin.ListWebhooks();
      assert admin.calls == calls0 + HandlerCalls(missing) by {
        assert HandlerCalls(missing) == [Call.ListWebhooks] + CreateCalls(missing) + [Call.ListWebhooks];
      }
    } else {
      assert Created(start, missing) == [] && CreateCalls(missing) == [];
      assert installed + Created(start, missing) == installed;
      assert HandlerCalls(missing) == [Call.ListWebhooks];
    }
    CreatingAllMissingConverges(required, before, start);
  }

  /** `deleteAll`: lists the subscriptions and deletes each of them; none is left. */
  method DeleteAll(admin: Admin) returns (done: bool)
    requires admin.Valid()
    modifies admin
    ensures admin.Valid() && done
    ensures admin.subscriptions == []
    ensures admin.calls == old(admin.calls) + [Call.ListWebhooks] + DeleteCalls(old(admin.subscriptions))
    ensures admin.nextId == old(admin.nextId)
    ensures admin.orders == old(admin.orders) && admin.draftOrders == old(admin.draftOrders)
  {
    var installed := admin.ListWebhooks();
    DeleteEach(admin, installed);
    RemovingAllLeavesNone(installed, IdsOf(installed));
    done := true;
  }

  // ----------------------------------------------------------------- routing

  /** The inner operations a request can ask for. */
  datatype Action = Register | DeleteEverything | List

  /** The request method is POST (in any case) and the body's `secret` is a string equal to the shared secret. */
  predicate Authorized(httpMethod: string, body: Json, secretSalt: string)
  {
    Upper(httpMethod) == "POST" && Get(body, "secret") == Str(secretSalt)
  }

  /** The operation a request selects: none unless authorized and the body's `method` names one, in any case. */
  function Route(httpMethod: string, body: Json, secretSalt: string): (r: Option<Action>)
    ensures r.Some? ==> Authorized(httpMethod, body, secretSalt) && Get(body, "method").Str?
    ensures r == Some(Register) <==>
      Authorized(httpMethod, body, secretSalt) && Get(body, "method").Str? && Upper(Get(body, "method").s) == "POST"
    ensures r == Some(DeleteEverything) <==>
      Authorized(httpMethod, body, secretSalt) && Get(body, "method").Str? && Upper(Get(body, "method").s) == "DELETE"
    ensures r == Some(List) <==>
      Authorized(httpMethod, body, secretSalt) && Get(body, "method").Str? && Upper(Get(body, "method").s) == "GET"
  {
    if !Authorized(httpMethod, body, secretSalt) then None
    else
      var inner := Get(body, "method");
      if !inner.Str? then None
      else
        var verb := Upper(inner.s);
        if verb == "POST" then Some(Register)
        else if verb == "DELETE" then Some(DeleteEverything)
        else if verb == "GET" then Some(List)
        else None
  }

  /** The replies of `onRequest`. */
  datatype Reply = Registered(registered: WebhookList) | AllDeleted | Listed(list: WebhookList) | BadRequest
  {
    function Status(): int
    {
      if BadRequest? then 401 else 200
    }
  }

  /** `onRequest`: runs the selected operation, or answers 401 Bad request. */
  method OnRequest(admin: Admin, gcloudProject: Option<string>, secretSalt: string, httpMethod: string, body: Json) returns (reply: Reply)
    requires admin.Valid()
    modifies admin
    ensures admin.Valid()
    ensures var route := Route(httpMethod, body, secretSalt);
      route.None? ==>
        && reply == BadRequest
        && admin.calls == old(admin.calls)
        && admin.subscriptions == old(admin.subscriptions) && admin.nextId == old(admin.nextId)
    ensures var route, project := Route(httpMethod, body, secretSalt), Project(gcloudProject);
      var missing := Missing(RequiredWebhooks(project), old(admin.subscriptions));
      route == Some(Register) ==>
        && reply.Registered? && reply.registered.missing == []
        && reply.registered == ListOf(project, admin.subscriptions)
        && admin.subscriptions == old(admin.subscriptions) + Created(old(admin.nextId), missing)
        && admin.nextId == old(admin.nextId) + |missing|
        && admin.calls == old(admin.calls) + HandlerCalls(missing)
    ensures var route := Route(httpMethod, body, secretSalt);
      route == Some(DeleteEverything) ==>
        && reply == AllDeleted
        && admin.subscriptions == []
        && admin.nextId == old(admin.nextId)
        && admin.calls == old(admin.calls) + [Call.ListWebhooks] + DeleteCalls(old(admin.subscriptions))
    ensures var route, project := Route(httpMethod, body, secretSalt), Project(gcloudProject);
      route == Some(List) ==>
        && reply == Listed(ListOf(project, old(admin.subscriptions)))
        && admin.subscriptions == old(admin.subscriptions) && admin.nextId == old(admin.nextId)
        && admin.calls == old(admin.calls) + [Call.ListWebhooks]
    ensures admin.orders == old(admin.orders) && admin.draftOrders == old(admin.draftOrders)
  {
    var project := Project(gcloudProject);
    var verbName := Upper(httpMethod);
    var secret := Get(body, "secret");
    if verbName == "POST" && secret == Str(secretSalt) {
      var inner := Get(body, "method");
      var innerName := if inner.Str? then Some(Upper(inner.s)) else None;
      if innerName == Some("POST") {
        var data := Handler(admin, project);
        return Registered(data);
      }
      if innerName == Some("DELETE") {
        var _ := DeleteAll(admin);
        return AllDeleted;
      }
      if innerName == Some("GET") {
        var list := GetAllWebhooks(admin, project);
        return Listed(list);
      }
    }
    return BadRequest;
  }

  // ------------------------------------------------------------- properties

  /** A request without the shared secret as a string never reaches the shop. */
  lemma WrongSecretRejected(httpMethod: string, body: Json, secretSalt: string)
    requires Get(body, "secret") != Str(secretSalt)
    ensures Route(httpMethod, body, secretSalt) == None
  {
  }

  /** Upper-casing the request method first changes nothing: the method is matched case-insensitively. */
  lemma RouteIgnoresMethodCase(httpMethod: string, body: Json, secretSalt: string)
    ensures Route(Upper(httpMethod), body, secretSalt) == Route(httpMethod, body, secretSalt)
  {
    UpperIdempotent(httpMethod);
  }

  /** A second registration finds nothing missing and only lists. */
  lemma SecondRegistrationOnlyLists(project: string, installed: seq<Subscription>, next: nat)
    ensures var after := installed + Created(next, Missing(RequiredWebhooks(project), installed));
      HandlerCalls(Missing(RequiredWebhooks(project), after)) == [Call.ListWebhooks]
  {
    CreatingAllMissingConverges(RequiredWebhooks(project), installed, next);
    var after := installed + Created(next, Missing(RequiredWebhooks(project), installed));
    assert CreateCalls(Missing(RequiredWebhooks(project), after)) == [];
  }

  /** With nothing installed, both required webhooks are created, update first. */
  lemma FreshShopGetsBoth(project: string)
    ensures Missing(RequiredWebhooks(project), []) == RequiredWebhooks(project)
  {
    var req := RequiredWebhooks(project);
    assert !IsInstalled(req[0], []) && !IsInstalled(req[1], []);
    assert req[1..][1..] == [];
  }
}
