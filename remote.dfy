/**
 * The remote state the handlers read and change: one shop's webhook
 * subscriptions, orders and draft orders on the e-commerce platform, and the
 * document store that keeps each shop's access token. Every platform query and
 * mutation is a method of `Admin` that appends a `Call` to the call log and
 * changes the collections the way the platform would.
 */
module Remote {
  import opened Wrappers
  import opened Js

  // ---------------------------------------------------------------- webhooks

  /** Where a subscription delivers; only Pub/Sub endpoints carry a project and topic. */
  datatype Endpoint =
    | PubSubEndpoint(pubSubProject: string, pubSubTopic: string)
    | OtherEndpoint

  /** The variables of a `pubSubWebhookSubscriptionCreate` mutation. */
  datatype WebhookInput = WebhookInput(topic: string, pubSubProject: string, pubSubTopic: string, format: string)

  /** An installed subscription; `id` is assigned by the platform. */
  datatype Subscription = Subscription(id: nat, topic: string, endpoint: Endpoint)

  /** The subscription the platform creates for `input`, with identifier `id`. */
  function SubscriptionFor(id: nat, input: WebhookInput): (s: Subscription)
    ensures s.id == id && s.topic == input.topic
    ensures s.endpoint == PubSubEndpoint(input.pubSubProject, input.pubSubTopic)
  {
    Subscription(id, input.topic, PubSubEndpoint(input.pubSubProject, input.pubSubTopic))
  }

  /** No two subscriptions share an identifier. */
  ghost predicate UniqueIds(subs: seq<Subscription>)
  {
    forall i, j :: 0 <= i < j < |subs| ==> subs[i].id != subs[j].id
  }

  /** Identifiers are unique and all below `next`, the one the platform assigns next. */
  ghost predicate IdsBelow(subs: seq<Subscription>, next: nat)
  {
    && (forall k :: 0 <= k < |subs| ==> subs[k].id < next)
    && UniqueIds(subs)
  }

  /** The subscriptions left after deleting every identifier in `ids`, in their order. */
  function RemoveIds(subs: seq<Subscription>, ids: set<nat>): (r: seq<Subscription>)
    ensures |r| <= |subs|
    ensures forall s :: s in r <==> s in subs && s.id !in ids
  {
    if subs == [] then []
    else if subs[0].id in ids then RemoveIds(subs[1..], ids)
    else [subs[0]] + RemoveIds(subs[1..], ids)
  }

  // ------------------------------------------------------------------ orders

  datatype PaymentTermsType = Receipt | Net | Fixed | Fulfillment | Unknown

  /** A payment schedule; `null` timestamps are `None`. */
  datatype Schedule = Schedule(issuedAt: Option<string>, completedAt: Option<string>)

  datatype PaymentTerms = PaymentTerms(id: string, paymentTermsType: PaymentTermsType, schedules: seq<Schedule>)

  /** The order snapshot the payment-terms rule reads; a field the query does not select is `None`. */
  datatype Order = Order(id: string, tags: seq<string>, displayFulfillmentStatus: Option<string>, paymentTerms: Option<PaymentTerms>)

  datatype ShippingLine = ShippingLine(title: string, custom: bool)

  /** The draft-order snapshot the shipping rule reads; prices are decimal strings. */
  datatype DraftOrder = DraftOrder(id: string, note: Option<string>, shippingLine: Option<ShippingLine>, totalShippingPrice: string)

  // ------------------------------------------------------------------- calls

  /** One request to the platform, in the order it was issued. */
  datatype Call =
    | ListWebhooks
    | CreateWebhook(input: WebhookInput)
    | DeleteWebhook(subscriptionId: nat)
    | FetchOrder(orderId: string)
    | TagsAdd(taggedId: string, tag: string)
    | TagsRemove(untaggedId: string, removedTag: string)
    | UpdatePaymentTerms(paymentTermsId: string, issuedAt: string)
    | FetchDraftOrder(draftOrderId: string)
    | UpdateShippingLine(shippedId: string, price: string, title: string)
  {
    /** Mutations change remote state; the other calls only read it. */
    predicate IsMutation()
    {
      !(ListWebhooks? || FetchOrder? || FetchDraftOrder?)
    }
  }

  /** How a mutation changes one order: tags are added once and removed entirely. */
  function ApplyToOrder(o: Order, c: Call): (r: Order)
    ensures r.id == o.id && r.displayFulfillmentStatus == o.displayFulfillmentStatus
    ensures !c.IsMutation() ==> r == o
  {
    match c
    case TagsAdd(id, tag) =>
      if id == o.id && tag !in o.tags then o.(tags := o.tags + [tag]) else o
    case TagsRemove(id, tag) =>
      if id == o.id then o.(tags := RemoveAll(o.tags, tag)) else o
    case UpdatePaymentTerms(termsId, issuedAt) =>
      if o.paymentTerms.Some? && o.paymentTerms.value.id == termsId then
        // the mutation sends a single schedule carrying the new issue date
        o.(paymentTerms := Some(o.paymentTerms.value.(schedules := [Schedule(Some(issuedAt), None)])))
      else o
    case _ => o
  }

  function RemoveAll(tags: seq<string>, tag: string): (r: seq<string>)
    ensures forall t :: t in r <==> t in tags && t != tag
  {
    if tags == [] then []
    else if tags[0] == tag then RemoveAll(tags[1..], tag)
    else [tags[0]] + RemoveAll(tags[1..], tag)
  }

  /** The order after a run of calls, applied first to last. */
  function ApplyAllToOrder(o: Order, cs: seq<Call>): Order
  {
    if cs == [] then o else ApplyToOrder(ApplyAllToOrder(o, cs[..|cs| - 1]), cs[|cs| - 1])
  }

  /** Every order whose id the call names is changed; the others stay as they are. */
  function ApplyToOrders(orders: map<string, Order>, c: Call): map<string, Order>
  {
    map k | k in orders :: ApplyToOrder(orders[k], c)
  }

  function ApplyAllToOrders(orders: map<string, Order>, cs: seq<Call>): (r: map<string, Order>)
    ensures r.Keys == orders.Keys
  {
    if cs == [] then orders else ApplyToOrders(ApplyAllToOrders(orders, cs[..|cs| - 1]), cs[|cs| - 1])
  }

  /** Queries leave every order as it is. */
  lemma QueryKeepsOrders(orders: map<string, Order>, c: Call)
    requires !c.IsMutation()
    ensures ApplyToOrders(orders, c) == orders
  {
  }

  /** Applying one more call at the end. */
  lemma ApplyAllToOrdersSnoc(orders: map<string, Order>, cs: seq<Call>, c: Call)
    ensures ApplyAllToOrders(orders, cs + [c]) == ApplyToOrders(ApplyAllToOrders(orders, cs), c)
  {
    assert (cs + [c])[..|cs|] == cs;
  }

  /** The store applies a run of calls to each order independently. */
  lemma {:induction false} ApplyAllToOrdersAt(orders: map<string, Order>, cs: seq<Call>, k: string)
    requires k in orders
    ensures ApplyAllToOrders(orders, cs)[k] == ApplyAllToOrder(orders[k], cs)
    decreases |cs|
  {
    if cs != [] {
      ApplyAllToOrdersAt(orders, cs[..|cs| - 1], k);
    }
  }

  /** How a mutation changes one draft order: a new shipping line is a custom line at the given price. */
  function ApplyToDraft(d: DraftOrder, c: Call): (r: DraftOrder)
    ensures r.id == d.id && r.note == d.note
    ensures !c.IsMutation() ==> r == d
  {
    match c
    case UpdateShippingLine(id, price, title) =>
      if id == d.id then d.(shippingLine := Some(ShippingLine(title, true)), totalShippingPrice := price) else d
    case _ => d
  }

  function ApplyToDrafts(drafts: map<string, DraftOrder>, c: Call): map<string, DraftOrder>
  {
    map k | k in drafts :: ApplyToDraft(drafts[k], c)
  }

  function ApplyAllToDrafts(drafts: map<string, DraftOrder>, cs: seq<Call>): (r: map<string, DraftOrder>)
    ensures r.Keys == drafts.Keys
  {
    if cs == [] then drafts else ApplyToDrafts(ApplyAllToDrafts(drafts, cs[..|cs| - 1]), cs[|cs| - 1])
  }

  lemma {:induction false} ApplyAllToDraftsAt(drafts: map<string, DraftOrder>, cs: seq<Call>, k: string)
    requires k in drafts
    ensures ApplyAllToDrafts(drafts, cs)[k] == ApplyAllToDraft(drafts[k], cs)
    decreases |cs|
  {
    if cs != [] {
      ApplyAllToDraftsAt(drafts, cs[..|cs| - 1], k);
    }
  }

  lemma QueryKeepsDrafts(drafts: map<string, DraftOrder>, c: Call)
    requires !c.IsMutation()
    ensures ApplyToDrafts(drafts, c) == drafts
  {
  }

  lemma ApplyAllToDraftsSnoc(drafts: map<string, DraftOrder>, cs: seq<Call>, c: Call)
    ensures ApplyAllToDrafts(drafts, cs + [c]) == ApplyToDrafts(ApplyAllToDrafts(drafts, cs), c)
  {
    assert (cs + [c])[..|cs|] == cs;
  }

  function ApplyAllToDraft(d: DraftOrder, cs: seq<Call>): DraftOrder
  {
    if cs == [] then d else ApplyToDraft(ApplyAllToDraft(d, cs[..|cs| - 1]), cs[|cs| - 1])
  }

  // ------------------------------------------------------------ remote shop

  /** One shop as the platform holds it, plus the log of calls made to it. */
  class Admin {
    var subscriptions: seq<Subscription>
    var nextId: nat
    var orders: map<string, Order>
    var draftOrders: map<string, DraftOrder>
    var calls: seq<Call>

    /** Subscription identifiers are unique and the next one is unused. */
    ghost predicate Valid()
      reads this
    {
      IdsBelow(subscriptions, nextId)
    }

    constructor (subscriptions: seq<Subscription>, orders: map<string, Order>, draftOrders: map<string, DraftOrder>)
      requires UniqueIds(subscriptions)
      ensures Valid()
      ensures this.subscriptions == subscriptions && this.orders == orders && this.draftOrders == draftOrders
      ensures calls == []
    {
      this.subscriptions := subscriptions;
      this.nextId := MaxId(subscriptions) + 1;
      this.orders := orders;
      this.draftOrders := draftOrders;
      this.calls := [];
    }

    /** `webhookSubscriptions` query. */
    method ListWebhooks() returns (list: seq<Subscription>)
      modifies this
      ensures list == subscriptions
      ensures calls == old(calls) + [Call.ListWebhooks]
      ensures subscriptions == old(subscriptions) && nextId == old(nextId)
      ensures orders == old(orders) && draftOrders == old(draftOrders)
    {
      list := subscriptions;
      calls := calls + [Call.ListWebhooks];
    }

    /** `pubSubWebhookSubscriptionCreate`: the platform adds a subscription with a fresh id. */
    method CreateWebhook(input: WebhookInput)
      requires Valid()
      modifies this
      ensures Valid()
      ensures subscriptions == old(subscriptions) + [SubscriptionFor(old(nextId), input)]
      ensures nextId == old(nextId) + 1
      ensures calls == old(calls) + [Call.CreateWebhook(input)]
      ensures orders == old(orders) && draftOrders == old(draftOrders)
    {
      subscriptions := subscriptions + [SubscriptionFor(nextId, input)];
      nextId := nextId + 1;
      calls := calls + [Call.CreateWebhook(input)];
    }

    /** `webhookSubscriptionDelete`. */
    method DeleteWebhook(id: nat)
      requires Valid()
      modifies this
      ensures Valid()
      ensures subscriptions == RemoveIds(old(subscriptions), {id})
      ensures nextId == old(nextId)
      ensures calls == old(calls) + [Call.DeleteWebhook(id)]
      ensures orders == old(orders) && draftOrders == old(draftOrders)
    {
      RemoveIdsKeepsIdsBelow(subscriptions, {id}, nextId);
      subscriptions := RemoveIds(subscriptions, {id});
      calls := calls + [Call.DeleteWebhook(id)];
    }

    /** `order(id:)` query: `None` when there is no such order. */
    method OrderById(id: string) returns (o: Option<Order>)
      modifies this
      ensures o == (if id in orders then Some(orders[id]) else None)
      ensures calls == old(calls) + [FetchOrder(id)]
      ensures subscriptions == old(subscriptions) && nextId == old(nextId)
      ensures orders == old(orders) && draftOrders == old(draftOrders)
    {
      o := if id in orders then Some(orders[id]) else None;
      calls := calls + [FetchOrder(id)];
    }

    /** `tagsAdd`, `tagsRemove` and `paymentTermsUpdate`. */
    method MutateOrders(c: Call)
      requires c.TagsAdd? || c.TagsRemove? || c.UpdatePaymentTerms?
      modifies this
      ensures orders == ApplyToOrders(old(orders), c)
      ensures calls == old(calls) + [c]
      ensures subscriptions == old(subscriptions) && nextId == old(nextId)
      ensures draftOrders == old(draftOrders)
    {
      orders := ApplyToOrders(orders, c);
      calls := calls + [c];
    }

    /** `draftOrder(id:)` query. */
    method DraftOrderById(id: string) returns (d: Option<DraftOrder>)
      modifies this
      ensures d == (if id in draftOrders then Some(draftOrders[id]) else None)
      ensures calls == old(calls) + [FetchDraftOrder(id)]
      ensures subscriptions == old(subscriptions) && nextId == old(nextId)
      ensures orders == old(orders) && draftOrders == old(draftOrders)
    {
      d := if id in draftOrders then Some(draftOrders[id]) else None;
      calls := calls + [FetchDraftOrder(id)];
    }

    /** `draftOrderUpdate` with a new shipping line. */
    method UpdateShippingLine(id: string, price: string, title: string)
      modifies this
      ensures draftOrders == ApplyToDrafts(old(draftOrders), Call.UpdateShippingLine(id, price, title))
      ensures calls == old(calls) + [Call.UpdateShippingLine(id, price, title)]
      ensures subscriptions == old(subscriptions) && nextId == old(nextId)
      ensures orders == old(orders)
    {
      draftOrders := ApplyToDrafts(draftOrders, Call.UpdateShippingLine(id, price, title));
      calls := calls + [Call.UpdateShippingLine(id, price, title)];
    }
  }

  /** The largest identifier in use, or 0. */
  function MaxId(subs: seq<Subscription>): (m: nat)
    ensures forall k :: 0 <= k < |subs| ==> subs[k].id <= m
  {
    if subs == [] then 0
    else var rest := MaxId(subs[1..]); if subs[0].id > rest then subs[0].id else rest
  }

  /** Deleting keeps identifiers unique and below the bound. */
  lemma {:induction false} RemoveIdsKeepsIdsBelow(subs: seq<Subscription>, ids: set<nat>, next: nat)
    requires IdsBelow(subs, next)
    ensures IdsBelow(RemoveIds(subs, ids), next)
    decreases |subs|
  {
    if subs != [] {
      var tail := subs[1..];
      assert IdsBelow(tail, next) by {
        assert forall k :: 0 <= k < |tail| ==> tail[k] == subs[k + 1];
      }
      RemoveIdsKeepsIdsBelow(tail, ids, next);
      var rest := RemoveIds(tail, ids);
      if subs[0].id !in ids {
        assert forall x :: x in tail ==> x.id != subs[0].id by {
          forall x | x in tail ensures x.id != subs[0].id {
            var k :| 0 <= k < |tail| && tail[k] == x;
            assert subs[k + 1] == x;
          }
        }
        UniqueCons(subs[0], rest, next);
      }
    }
  }

  /** A subscription whose id is below the bound and unused keeps a list with ids below the bound so. */
  lemma UniqueCons(s: Subscription, rest: seq<Subscription>, next: nat)
    requires IdsBelow(rest, next) && s.id < next
    requires forall x :: x in rest ==> x.id != s.id
    ensures IdsBelow([s] + rest, next)
  {
    var r := [s] + rest;
    forall i, j | 0 <= i < j < |r| ensures r[i].id != r[j].id {
      assert r[j] == rest[j - 1];
      if i > 0 {
        assert r[i] == rest[i - 1];
      } else {
        assert rest[j - 1] in rest;
      }
    }
    forall k | 0 <= k < |r| ensures r[k].id < next {
      if k > 0 {
        assert r[k] == rest[k - 1];
      }
    }
  }

  // -------------------------------------------------------- credential store

  /** A stored credential document: `{shop, accessToken}` as written, either field of any JSON type. */
  datatype StoredAuth = StoredAuth(shop: Json, accessToken: Json)

  /** The `stores` collection: one document per shop handle. */
  class CredentialStore {
    var docs: map<string, StoredAuth>

    constructor (docs: map<string, StoredAuth>)
      ensures this.docs == docs
    {
      this.docs := docs;
    }

    /** `doc(shop).get()`: `None` when the document does not exist. */
    method Get(shop: string) returns (d: Option<StoredAuth>)
      ensures d == (if shop in docs then Some(docs[shop]) else None)
    {
      d := if shop in docs then Some(docs[shop]) else None;
    }

    /** `doc(shop).set(auth)`. */
    method Set(shop: string, auth: StoredAuth)
      modifies this
      ensures docs == old(docs)[shop := auth]
    {
      docs := docs[shop := auth];
    }

    /** `doc(shop).delete()`. */
    method Delete(shop: string)
      modifies this
      ensures docs == old(docs) - {shop}
    {
      docs := docs - {shop};
    }
  }
}
