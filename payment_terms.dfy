/**
 * The payment-terms rule (`handlers/updatePaymentTerms.ts`). When an order is
 * fully fulfilled and its first NET schedule is unpaid, the schedule's issue
 * date is set to now and the order is tagged as completed. Marker tags make
 * the rule safe to run again on the same order.
 */
module PaymentTermsRule {
  import opened Wrappers
  import opened Js
  import opened Text
  import opened Remote

  /** `MAGIC_ORDER_TAGS`. */
  const Completed := "pt-automation-completed"
  const Disabled := "pt-automation-disabled"
  const MultiSchedule := "pt-automation-multiple-schedules"

  const OrderPrefix := "gid://shopify/Order/"

  /** `isValidPaylod`: an object whose `admin_graphql_api_id` is a string. */
  predicate IsValidPayload(payload: Json): (r: bool)
    ensures r <==> payload.Obj? && Get(payload, "admin_graphql_api_id").Str?
  {
    payload.Obj? && "admin_graphql_api_id" in payload.fields && payload.fields["admin_graphql_api_id"].Str?
  }

  /**
   * The id `getOrder` fetches: a truthy `order_id` makes a global id; otherwise the
   * payload's global id is used if it names an order; otherwise nothing is fetched.
   */
  function ResolveOrderId(payload: Json): (r: Option<string>)
    requires IsValidPayload(payload)
    ensures r.Some? ==> StartsWith(r.value, OrderPrefix)
    ensures Truthy(Get(payload, "order_id")) ==> r == Some(OrderPrefix + ToString(Get(payload, "order_id")))
    ensures var adminId := payload.fields["admin_graphql_api_id"].s;
      !Truthy(Get(payload, "order_id")) ==> r == (if StartsWith(adminId, OrderPrefix) then Some(adminId) else None)
  {
    var orderId := Get(payload, "order_id");
    var adminId := payload.fields["admin_graphql_api_id"].s;
    if Truthy(orderId) then
      var id := OrderPrefix + ToString(orderId);
      assert id[..|OrderPrefix|] == OrderPrefix;
      Some(id)
    else if StartsWith(adminId, OrderPrefix) then Some(adminId)
    else None
  }

  /** Fully fulfilled, not marked, NET terms whose first schedule is unpaid: the only orders whose terms are updated. */
  predicate Eligible(o: Order)
  {
    && Completed !in o.tags
    && Disabled !in o.tags
    && o.displayFulfillmentStatus == Some("FULFILLED")
    && o.paymentTerms.Some?
    && o.paymentTerms.value.paymentTermsType == Net
    && |o.paymentTerms.value.schedules| > 0
    && o.paymentTerms.value.schedules[0].completedAt.None?
  }

  /**
   * The mutations the handler issues for the order snapshot `o`, in order, following
   * the source's chain of checks, including the tag removal for unfulfilled orders.
   */
  function Plan(o: Order, now: string): (r: seq<Call>)
    ensures r != [] ==> Completed !in o.tags && Disabled !in o.tags && o.displayFulfillmentStatus == Some("FULFILLED")
    ensures forall c :: c in r ==> (c.TagsAdd? && c.taggedId == o.id) || c.UpdatePaymentTerms?
    ensures forall c :: c in r && c.TagsAdd? ==> c.tag == MultiSchedule || c.tag == Completed
    ensures |r| <= 3
  {
    if Completed in o.tags then []
    else if Disabled in o.tags then []
    else if o.displayFulfillmentStatus != Some("FULFILLED") then
      if Completed in o.tags then [TagsRemove(o.id, Completed)] else []
    else MultiScheduleTag(o) + TermsUpdate(o, now)
  }

  /** The fulfilled-order step tagging an order with several payment schedules, once. */
  function MultiScheduleTag(o: Order): seq<Call>
  {
    if o.paymentTerms.Some? && |o.paymentTerms.value.schedules| > 1 && MultiSchedule !in o.tags
    then [TagsAdd(o.id, MultiSchedule)] else []
  }

  /** The fulfilled-order step completing open net terms, then tagging the order completed. */
  function TermsUpdate(o: Order, now: string): seq<Call>
  {
    if && o.paymentTerms.Some?
       && o.paymentTerms.value.paymentTermsType == Net
       && |o.paymentTerms.value.schedules| > 0
       && o.paymentTerms.value.schedules[0].completedAt.None?
    then [UpdatePaymentTerms(o.paymentTerms.value.id, now)]
         + (if Completed !in o.tags then [TagsAdd(o.id, Completed)] else [])
    else []
  }

  /** Every call the handler makes for `payload` against the orders `orders`. */
  function HandlerCalls(payload: Json, orders: map<string, Order>, now: string): (r: seq<Call>)
    ensures !IsValidPayload(payload) ==> r == []
    ensures r != [] ==> IsValidPayload(payload) && ResolveOrderId(payload).Some? && r[0] == FetchOrder(ResolveOrderId(payload).value)
    ensures IsValidPayload(payload) && ResolveOrderId(payload).Some? ==>
      var id := ResolveOrderId(payload).value;
      r == [FetchOrder(id)] + (if id in orders then Plan(orders[id], now) else [])
  {
    if !IsValidPayload(payload) then []
    else match ResolveOrderId(payload)
      case None => []
      case Some(id) => OrderCalls(id, orders, now)
  }

  /** The fetch of order `id`, then its plan when the order exists. */
  function OrderCalls(id: string, orders: map<string, Order>, now: string): seq<Call>
  {
    [FetchOrder(id)] + (if id in orders then Plan(orders[id], now) else [])
  }

  // ------------------------------------------------------------- properties

  /** An order already tagged completed is left alone, whatever else it holds. */
  lemma CompletedOrderUntouched(o: Order, now: string)
    requires Completed in o.tags
    ensures Plan(o, now) == []
  {
  }

  /** An order tagged disabled is left alone. */
  lemma DisabledOrderUntouched(o: Order, now: string)
    requires Disabled in o.tags
    ensures Plan(o, now) == []
  {
  }

  /**
   * An order that is not fully fulfilled gets no mutation at all: the removal of a
   * stale completed tag is never issued, because a completed order was skipped before.
   */
  lemma UnfulfilledOrderUntouched(o: Order, now: string)
    requires o.displayFulfillmentStatus != Some("FULFILLED")
    ensures Plan(o, now) == []
  {
  }

  /** No run of the rule ever removes a tag. */
  lemma NoTagIsEverRemoved(o: Order, now: string)
    ensures forall c :: c in Plan(o, now) ==> !c.TagsRemove?
  {
  }

  /** The multiple-schedules tag is added at most once, first, exactly when the terms have several schedules and the tag is absent; it does not stop the update. */
  lemma MultiScheduleTagOnce(o: Order, now: string)
    ensures var r := Plan(o, now);
      && (TagsAdd(o.id, MultiSchedule) in r <==>
            && Completed !in o.tags && Disabled !in o.tags && o.displayFulfillmentStatus == Some("FULFILLED")
            && o.paymentTerms.Some? && |o.paymentTerms.value.schedules| > 1 && MultiSchedule !in o.tags)
      && (forall i :: 0 <= i < |r| && r[i] == TagsAdd(o.id, MultiSchedule) ==> i == 0)
      && (Eligible(o) ==> UpdatePaymentTerms(o.paymentTerms.value.id, now) in r)
  {
    var r := Plan(o, now);
    if TagsAdd(o.id, MultiSchedule) in r {
      var i :| 0 <= i < |r| && r[i] == TagsAdd(o.id, MultiSchedule);
    }
  }

  /** Payment terms are updated exactly for eligible orders, once, with one schedule issued now. */
  lemma TermsUpdatedIffEligible(o: Order, now: string)
    ensures var r := Plan(o, now);
      && ((exists c :: c in r && c.UpdatePaymentTerms?) <==> Eligible(o))
      && (forall c :: c in r && c.UpdatePaymentTerms? ==> c == UpdatePaymentTerms(o.paymentTerms.value.id, now))
      && (forall i, j :: 0 <= i < |r| && 0 <= j < |r| && r[i].UpdatePaymentTerms? && r[j].UpdatePaymentTerms? ==> i == j)
      && |r| <= 3
  {
    var r := Plan(o, now);
    if Eligible(o) {
      assert r[|r| - 1] == TagsAdd(o.id, Completed) by { CompletedTagFollowsUpdate(o, now); }
      assert r[|r| - 2] == UpdatePaymentTerms(o.paymentTerms.value.id, now) by { CompletedTagFollowsUpdate(o, now); }
      assert r[|r| - 2] in r;
    }
  }

  /** The completed tag is added exactly for eligible orders, last, right after the terms update. */
  lemma CompletedTagFollowsUpdate(o: Order, now: string)
    ensures var r := Plan(o, now);
      && (TagsAdd(o.id, Completed) in r <==> Eligible(o))
      && (Eligible(o) ==>
            && |r| >= 2
            && r[|r| - 1] == TagsAdd(o.id, Completed)
            && r[|r| - 2] == UpdatePaymentTerms(o.paymentTerms.value.id, now))
      && (forall i :: 0 <= i < |r| && r[i] == TagsAdd(o.id, Completed) ==> i == |r| - 1)
  {
    var r := Plan(o, now);
    if TagsAdd(o.id, Completed) in r {
      var i :| 0 <= i < |r| && r[i] == TagsAdd(o.id, Completed);
    }
  }

  /** A fulfilled, untagged order with one unpaid NET schedule gets the terms update, then the completed tag. */
  lemma FulfilledNetOrderExample(id: string, termsId: string, now: string)
    ensures var o := Order(id, [], Some("FULFILLED"), Some(PaymentTerms(termsId, Net, [Schedule(None, None)])));
      Plan(o, now) == [UpdatePaymentTerms(termsId, now), TagsAdd(id, Completed)]
  {
  }

  /**
   * The order as the `order(id:)` query returns it: its fragment selects the id, the
   * tags and the payment terms, but not `displayFulfillmentStatus`.
   */
  function AsFetched(o: Order): Order
  {
    o.(displayFulfillmentStatus := None)
  }

  /** As fetched, no order ever gets a mutation, since the fulfilment status is never present. */
  lemma AsFetchedNeverMutated(o: Order, now: string)
    ensures Plan(AsFetched(o), now) == []
  {
    UnfulfilledOrderUntouched(AsFetched(o), now);
  }

  /** The fulfilled NET order whose terms are due is updated when read in full, and left alone as fetched. */
  lemma FetchHidesFulfilledOrder(id: string, termsId: string, now: string)
    ensures var o := Order(id, [], Some("FULFILLED"), Some(PaymentTerms(termsId, Net, [Schedule(None, None)])));
      Plan(o, now) != [] && Plan(AsFetched(o), now) == []
  {
    var o := Order(id, [], Some("FULFILLED"), Some(PaymentTerms(termsId, Net, [Schedule(None, None)])));
    FulfilledNetOrderExample(id, termsId, now);
    AsFetchedNeverMutated(o, now);
  }

  /** Only the tags of `o` change when a plan of `o` is applied to it. */
  lemma {:induction false} TagsOnlyGrow(o: Order, cs: seq<Call>)
    requires forall c :: c in cs ==> c.TagsAdd? && c.taggedId == o.id
    ensures var o' := ApplyAllToOrder(o, cs);
      && o'.paymentTerms == o.paymentTerms
      && o'.displayFulfillmentStatus == o.displayFulfillmentStatus
      && (forall t :: t in o.tags ==> t in o'.tags)
      && (forall c :: c in cs ==> c.tag in o'.tags)
      && o'.id == o.id
      && (forall t :: t in o'.tags ==> t in o.tags || exists c :: c in cs && c.tag == t)
    decreases |cs|
  {
    if cs != [] {
      var init := cs[..|cs| - 1];
      var last := cs[|cs| - 1];
      assert forall c :: c in init ==> c in cs;
      TagsOnlyGrow(o, init);
      ApplyAllKeepsId(o, init);
      var mid := ApplyAllToOrder(o, init);
      var o' := ApplyAllToOrder(o, cs);
      forall t | t in o'.tags ensures t in o.tags || exists c :: c in cs && c.tag == t {
        if t in mid.tags {
          if t !in o.tags {
            var c :| c in init && c.tag == t;
            assert c in cs;
          }
        } else {
          assert t == last.tag && last in cs;
        }
      }
    }
  }

  /** Running the rule again on the order it left behind issues no mutation. */
  lemma {:induction false} PlanIsIdempotent(o: Order, now: string, later: string)
    ensures Plan(ApplyAllToOrder(o, Plan(o, now)), later) == []
  {
    var r := Plan(o, now);
    if r != [] {
      if Eligible(o) {
        var terms := o.paymentTerms.value;
        CompletedTagFollowsUpdate(o, now);
        var init := r[..|r| - 1];
        var mid := ApplyAllToOrder(o, init);
        assert ApplyAllToOrder(o, r) == ApplyToOrder(mid, TagsAdd(o.id, Completed));
        assert mid.id == o.id by { ApplyAllKeepsId(o, init); }
        assert Completed in ApplyAllToOrder(o, r).tags;
      } else {
        assert r == [TagsAdd(o.id, MultiSchedule)];
        assert ApplyAllToOrder(o, r) == ApplyToOrder(o, TagsAdd(o.id, MultiSchedule)) by {
          assert r[..0] == [];
        }
      }
    }
  }

  lemma {:induction false} ApplyAllKeepsId(o: Order, cs: seq<Call>)
    ensures ApplyAllToOrder(o, cs).id == o.id
    decreases |cs|
  {
    if cs != [] {
      ApplyAllKeepsId(o, cs[..|cs| - 1]);
    }
  }

  /** A redelivered event finds the order as the first delivery left it and issues no mutation. */
  lemma RedeliveryIssuesNoMutation(payload: Json, orders: map<string, Order>, now: string, later: string)
    ensures var after := ApplyAllToOrders(orders, HandlerCalls(payload, orders, now));
      forall c :: c in HandlerCalls(payload, after, later) ==> !c.IsMutation()
  {
    var first := HandlerCalls(payload, orders, now);
    var after := ApplyAllToOrders(orders, first);
    if IsValidPayload(payload) && ResolveOrderId(payload).Some? {
      var id := ResolveOrderId(payload).value;
      if id in orders {
        var o := orders[id];
        ApplyAllToOrdersAt(orders, first, id);
        assert first == [FetchOrder(id)] + Plan(o, now);
        assert ApplyAllToOrder(o, first) == ApplyAllToOrder(o, Plan(o, now)) by {
          FetchThenApply(o, FetchOrder(id), Plan(o, now));
        }
        PlanIsIdempotent(o, now, later);
      }
    }
  }

  /** A leading query does not change what a run of calls does to an order. */
  lemma {:induction false} FetchThenApply(o: Order, q: Call, cs: seq<Call>)
    requires !q.IsMutation()
    ensures ApplyAllToOrder(o, [q] + cs) == ApplyAllToOrder(o, cs)
    decreases |cs|
  {
    if cs == [] {
      assert ([q] + cs)[..0] == [];
    } else {
      assert ([q] + cs)[..|[q] + cs| - 1] == [q] + cs[..|cs| - 1];
      FetchThenApply(o, q, cs[..|cs| - 1]);
    }
  }

  // ----------------------------------------------------------------- handler

  /**
   * `handler`: validates the payload, resolves and fetches the order, then issues
   * the planned mutations one by one. It always reports the event as handled.
   */
  method Handle(admin: Admin, payload: Json, now: string) returns (handled: bool)
    modifies admin
    ensures handled
    ensures admin.calls == old(admin.calls) + HandlerCalls(payload, old(admin.orders), now)
    ensures admin.orders == ApplyAllToOrders(old(admin.orders), HandlerCalls(payload, old(admin.orders), now))
    ensures admin.subscriptions == old(admin.subscriptions) && admin.nextId == old(admin.nextId)
    ensures admin.draftOrders == old(admin.draftOrders)
  {
    if !IsValidPayload(payload) {
      return true;
    }
    var orderId := ResolveOrderId(payload);
    if orderId.None? {
      return true;
    }
    HandleOrder(admin, orderId.value, now);
    return true;
  }

  /** The fetch of a resolved order and, when it exists, its plan. */
  method HandleOrder(admin: Admin, id: string, now: string)
    modifies admin
    ensures admin.calls == old(admin.calls) + OrderCalls(id, old(admin.orders), now)
    ensures admin.orders == ApplyAllToOrders(old(admin.orders), OrderCalls(id, old(admin.orders), now))
    ensures admin.subscriptions == old(admin.subscriptions) && admin.nextId == old(admin.nextId)
    ensures admin.draftOrders == old(admin.draftOrders)
  {
    ghost var orders0, calls0 := admin.orders, admin.calls;
    var found := admin.OrderById(id);
    ghost var fetched := [FetchOrder(id)];
    assert admin.orders == ApplyAllToOrders(orders0, fetched) by {
      ApplyAllToOrdersSnoc(orders0, [], FetchOrder(id));
      QueryKeepsOrders(orders0, FetchOrder(id));
      assert [] + [FetchOrder(id)] == fetched;
    }
    if found.None? {
      assert OrderCalls(id, orders0, now) == fetched;
      return;
    }
    ghost var plan := Plan(found.value, now);
    assert OrderCalls(id, orders0, now) == fetched + plan;
    IssuePlan(admin, found.value, now, orders0, fetched);
    assert admin.calls == calls0 + fetched + plan;
  }

  /** The checks and mutations that follow a successful fetch of `order`. */
  method IssuePlan(admin: Admin, order: Order, now: string, ghost orig: map<string, Order>, ghost prefix: seq<Call>)
    requires admin.orders == ApplyAllToOrders(orig, prefix)
    modifies admin
    ensures admin.calls == old(admin.calls) + Plan(order, now)
    ensures admin.orders == ApplyAllToOrders(orig, prefix + Plan(order, now))
    ensures admin.subscriptions == old(admin.subscriptions) && admin.nextId == old(admin.nextId)
    ensures admin.draftOrders == old(admin.draftOrders)
  {
    if Completed in order.tags {
      assert prefix + [] == prefix;
      return;
    }
    if Disabled in order.tags {
      assert prefix + [] == prefix;
      return;
    }
    if order.displayFulfillmentStatus != Some("FULFILLED") {
      if Completed in order.tags {
        // the stale completed tag would be removed here: unreachable
        assert false;
      }
      assert prefix + [] == prefix;
      return;
    }
    IssueMultiScheduleTag(admin, order, orig, prefix);
    IssueTermsUpdate(admin, order, now, orig, prefix + MultiScheduleTag(order));
    assert prefix + MultiScheduleTag(order) + TermsUpdate(order, now) == prefix + Plan(order, now);
    assert old(admin.calls) + MultiScheduleTag(order) + TermsUpdate(order, now) == old(admin.calls) + Plan(order, now);
  }

  /** The multi-schedule tag of a fulfilled order, when it applies. */
  method IssueMultiScheduleTag(admin: Admin, order: Order, ghost orig: map<string, Order>, ghost prefix: seq<Call>)
    requires admin.orders == ApplyAllToOrders(orig, prefix)
    modifies admin
    ensures admin.calls == old(admin.calls) + MultiScheduleTag(order)
    ensures admin.orders == ApplyAllToOrders(orig, prefix + MultiScheduleTag(order))
    ensures admin.subscriptions == old(admin.subscriptions) && admin.nextId == old(admin.nextId)
    ensures admin.draftOrders == old(admin.draftOrders)
  {
    if order.paymentTerms.Some? && |order.paymentTerms.value.schedules| > 1 {
      if MultiSchedule !in order.tags {
        Mutate(admin, TagsAdd(order.id, MultiSchedule), orig, prefix);
        return;
      }
    }
    assert prefix + [] == prefix && old(admin.calls) + [] == old(admin.calls);
  }

  /** The terms update of a fulfilled order and its completed tag, when they apply. */
  method IssueTermsUpdate(admin: Admin, order: Order, now: string, ghost orig: map<string, Order>, ghost prefix: seq<Call>)
    requires admin.orders == ApplyAllToOrders(orig, prefix)
    modifies admin
    ensures admin.calls == old(admin.calls) + TermsUpdate(order, now)
    ensures admin.orders == ApplyAllToOrders(orig, prefix + TermsUpdate(order, now))
    ensures admin.subscriptions == old(admin.subscriptions) && admin.nextId == old(admin.nextId)
    ensures admin.draftOrders == old(admin.draftOrders)
  {
    if && order.paymentTerms.Some?
       && order.paymentTerms.value.paymentTermsType == Net
       && |order.paymentTerms.value.schedules| > 0
       && order.paymentTerms.value.schedules[0].completedAt.None?
    {
      var update := UpdatePaymentTerms(order.paymentTerms.value.id, now);
      Mutate(admin, update, orig, prefix);
      if Completed !in order.tags {
        var tag := TagsAdd(order.id, Completed);
        Mutate(admin, tag, orig, prefix + [update]);
        assert prefix + [update] + [tag] == prefix + TermsUpdate(order, now);
        assert old(admin.calls) + [update] + [tag] == old(admin.calls) + TermsUpdate(order, now);
      }
    } else {
      assert prefix + [] == prefix && old(admin.calls) + [] == old(admin.calls);
    }
  }

  /** One mutation, keeping track of the run of calls applied so far. */
  method Mutate(admin: Admin, c: Call, ghost orig: map<string, Order>, ghost issued: seq<Call>)
    requires c.TagsAdd? || c.TagsRemove? || c.UpdatePaymentTerms?
    requires admin.orders == ApplyAllToOrders(orig, issued)
    modifies admin
    ensures admin.calls == old(admin.calls) + [c]
    ensures admin.orders == ApplyAllToOrders(orig, issued + [c])
    ensures admin.subscriptions == old(admin.subscriptions) && admin.nextId == old(admin.nextId)
    ensures admin.draftOrders == old(admin.draftOrders)
  {
    admin.MutateOrders(c);
    ApplyAllToOrdersSnoc(orig, issued, c);
  }
}
