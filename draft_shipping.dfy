/**
 * The return-shipping rule (`handlers/draftOrderShippingUpdate.ts`): a draft
 * order whose note marks it as a return (an "RMA" note that quotes an order
 * number) gets a free custom shipping line, unless it already has one.
 */
module DraftShipping {
  import opened Wrappers
  import opened Js
  import opened Text
  import opened Remote

  const DraftOrderPrefix := "gid://shopify/DraftOrder/"
  const FreePrice := "0.00"
  const FreeTitle := "FREE SHIPPING"

  /** `isValidPaylod`: an object whose `admin_graphql_api_id` is a string. */
  predicate IsValidPayload(payload: Json): (r: bool)
    ensures r <==> payload.Obj? && Get(payload, "admin_graphql_api_id").Str?
  {
    payload.Obj? && "admin_graphql_api_id" in payload.fields && payload.fields["admin_graphql_api_id"].Str?
  }

  /**
   * The id `getDraftOrder` fetches: a numeric `draft_order_id` makes a global id;
   * otherwise the payload's global id is used if it names a draft order.
   */
  function ResolveDraftOrderId(payload: Json): (r: Option<string>)
    requires IsValidPayload(payload)
    ensures r.Some? ==> StartsWith(r.value, DraftOrderPrefix)
    ensures Get(payload, "draft_order_id").Num? ==>
      r == Some(DraftOrderPrefix + IntString(Get(payload, "draft_order_id").n))
    ensures var adminId := payload.fields["admin_graphql_api_id"].s;
      !Get(payload, "draft_order_id").Num? ==> r == (if StartsWith(adminId, DraftOrderPrefix) then Some(adminId) else None)
  {
    var draftOrderId := Get(payload, "draft_order_id");
    var adminId := payload.fields["admin_graphql_api_id"].s;
    if draftOrderId.Num? then
      var id := DraftOrderPrefix + IntString(draftOrderId.n);
      assert id[..|DraftOrderPrefix|] == DraftOrderPrefix;
      Some(id)
    else if StartsWith(adminId, DraftOrderPrefix) then Some(adminId)
    else None
  }

  /** The note, trimmed and upper-cased, starts with "RMA:" and mentions "ORDER NUMBER:". */
  predicate IsRmaNote(note: Option<string>)
  {
    && note.Some?
    && note.value != []
    && var normalized := Upper(Trim(note.value));
       && normalized != []
       && StartsWith(normalized, "RMA:")
       && Contains(normalized, "ORDER NUMBER:")
  }

  /** The draft already carries a free custom shipping line. */
  predicate HasFreeCustomShipping(d: DraftOrder)
  {
    d.shippingLine.Some? && d.shippingLine.value.custom && d.totalShippingPrice == FreePrice
  }

  /** `canSetShippingToZero`. */
  predicate CanSetShippingToZero(d: DraftOrder): (r: bool)
    ensures r <==> IsRmaNote(d.note) && !HasFreeCustomShipping(d)
  {
    && IsRmaNote(d.note)
    && (d.shippingLine.None? || !d.shippingLine.value.custom || d.totalShippingPrice != FreePrice)
  }

  /** Every call the handler makes for `payload` against the drafts `drafts`. */
  function HandlerCalls(payload: Json, drafts: map<string, DraftOrder>): (r: seq<Call>)
    ensures !IsValidPayload(payload) ==> r == []
    ensures r != [] ==>
      (IsValidPayload(payload) && ResolveDraftOrderId(payload).Some?
       && r[0] == FetchDraftOrder(ResolveDraftOrderId(payload).value))
    ensures |r| <= 2
    ensures IsValidPayload(payload) && ResolveDraftOrderId(payload).Some? ==>
      var id := ResolveDraftOrderId(payload).value;
      && r != [] && r[0] == FetchDraftOrder(id)
      && (|r| == 2 <==> id in drafts && CanSetShippingToZero(drafts[id]))
      && (|r| == 2 ==> r[1] == UpdateShippingLine(drafts[id].id, FreePrice, FreeTitle))
  {
    if !IsValidPayload(payload) then []
    else match ResolveDraftOrderId(payload)
      case None => []
      case Some(id) =>
        [FetchDraftOrder(id)]
        + (if id in drafts && CanSetShippingToZero(drafts[id])
           then [UpdateShippingLine(drafts[id].id, FreePrice, FreeTitle)] else [])
  }

  // ------------------------------------------------------------- properties

  /** A missing, empty or blank note never qualifies. */
  lemma BlankNoteNeverQualifies(d: DraftOrder)
    requires d.note.None? || AllSpace(d.note.value)
    ensures !CanSetShippingToZero(d)
  {
    if d.note.Some? {
      TrimEmptyIffAllSpace(d.note.value);
      assert |Upper(Trim(d.note.value))| == 0;
    }
  }

  /** After the update the draft has a free custom line and no longer qualifies. */
  lemma UpdateIsStable(d: DraftOrder)
    ensures var d' := ApplyToDraft(d, UpdateShippingLine(d.id, FreePrice, FreeTitle));
      && HasFreeCustomShipping(d')
      && d'.shippingLine == Some(ShippingLine(FreeTitle, true))
      && !CanSetShippingToZero(d')
  {
  }

  /** White space around the note does not change whether it qualifies. */
  lemma PaddedNoteQualifiesAlike(note: string, p: string, q: string)
    requires AllSpace(p) && AllSpace(q) && note != []
    ensures IsRmaNote(Some(p + note + q)) <==> IsRmaNote(Some(note))
  {
    TrimIgnoresPadding(p, note, q);
  }

  /** A lower-case return note such as "rma: order number: 1" qualifies, and a price written "0.0" does not count as free. */
  lemma LowerCaseNoteQualifies(d: DraftOrder, number: string)
    requires number != [] && !IsSpace(number[|number| - 1])
    requires d.note == Some("rma: order number: " + number)
    requires d.shippingLine.Some? && d.shippingLine.value.custom && d.totalShippingPrice == "0.0"
    ensures CanSetShippingToZero(d)
  {
    NoteNormalizes(number);
    NormalizedNoteIsReturn(Upper(number));
  }

  /** Trimming and upper-casing "rma: order number: " followed by `number` upper-cases each part. */
  lemma NoteNormalizes(number: string)
    requires number != [] && !IsSpace(number[|number| - 1])
    ensures Upper(Trim("rma: order number: " + number)) == "RMA: ORDER NUMBER: " + Upper(number)
  {
    UpperTrimUnpadded("rma: order number: ", number);
    ExamplePrefixUpper();
  }

  /** A string that starts and ends with visible characters is only upper-cased by normalisation. */
  lemma UpperTrimUnpadded(head: string, tail: string)
    requires head != [] && !IsSpace(head[0])
    requires tail != [] && !IsSpace(tail[|tail| - 1])
    ensures Upper(Trim(head + tail)) == Upper(head) + Upper(tail)
  {
    var s := head + tail;
    assert s[0] == head[0] && s[|s| - 1] == tail[|tail| - 1];
    TrimUnpadded(s);
    UpperAppend(head, tail);
  }

  lemma ExamplePrefixUpper()
    ensures Upper("rma: order number: ") == "RMA: ORDER NUMBER: "
  {
    UpperAppend("rma: ", "order number: ");
    UpperAppend("order ", "number: ");
  }

  /** An upper-cased return note passes both text tests of `canSetShippingToZero`. */
  lemma NormalizedNoteIsReturn(tail: string)
    ensures StartsWith("RMA: ORDER NUMBER: " + tail, "RMA:")
    ensures Contains("RMA: ORDER NUMBER: " + tail, "ORDER NUMBER:")
  {
    var normalized := "RMA: ORDER NUMBER: " + tail;
    assert normalized[..4] == "RMA:";
    assert normalized[5..][..13] == "ORDER NUMBER:";
    ContainsIffOccurs(normalized, "ORDER NUMBER:");
  }

  /** The draft as the first delivery leaves it no longer qualifies. */
  lemma AfterFirstDelivery(d: DraftOrder, id: string)
    ensures var cs := [FetchDraftOrder(id)] + (if CanSetShippingToZero(d) then [UpdateShippingLine(d.id, FreePrice, FreeTitle)] else []);
      !CanSetShippingToZero(ApplyAllToDraft(d, cs))
  {
    var fetch := FetchDraftOrder(id);
    assert [fetch][..0] == [];
    assert ApplyAllToDraft(d, [fetch]) == d;
    if CanSetShippingToZero(d) {
      var cs := [fetch, UpdateShippingLine(d.id, FreePrice, FreeTitle)];
      assert cs[..1] == [fetch];
      UpdateIsStable(d);
    }
  }

  /** A redelivered event finds the free shipping line and issues no mutation. */
  lemma RedeliveryIssuesNoMutation(payload: Json, drafts: map<string, DraftOrder>)
    ensures var after := ApplyAllToDrafts(drafts, HandlerCalls(payload, drafts));
      forall c :: c in HandlerCalls(payload, after) ==> !c.IsMutation()
  {
    var first := HandlerCalls(payload, drafts);
    if IsValidPayload(payload) && ResolveDraftOrderId(payload).Some? {
      var id := ResolveDraftOrderId(payload).value;
      if id in drafts {
        ApplyAllToDraftsAt(drafts, first, id);
        AfterFirstDelivery(drafts[id], id);
      }
    }
  }

  /** The only mutation ever issued is the second call: the free shipping line on the fetched draft, which qualified. */
  lemma OnlyFreeShippingWritten(payload: Json, drafts: map<string, DraftOrder>)
    ensures var r := HandlerCalls(payload, drafts);
      forall i :: 0 <= i < |r| && r[i].IsMutation() ==>
        && i == 1
        && var id := ResolveDraftOrderId(payload).value;
           && id in drafts && CanSetShippingToZero(drafts[id])
           && r[i] == UpdateShippingLine(drafts[id].id, FreePrice, FreeTitle)
  {
  }

  // ----------------------------------------------------------------- handler

  /**
   * `handler`: validates the payload, fetches the draft order and, when it
   * qualifies, sets a free custom shipping line. It always reports success.
   */
  method Handle(admin: Admin, payload: Json) returns (handled: bool)
    modifies admin
    ensures handled
    ensures admin.calls == old(admin.calls) + HandlerCalls(payload, old(admin.draftOrders))
    ensures admin.draftOrders == ApplyAllToDrafts(old(admin.draftOrders), HandlerCalls(payload, old(admin.draftOrders)))
    ensures admin.subscriptions == old(admin.subscriptions) && admin.nextId == old(admin.nextId)
    ensures admin.orders == old(admin.orders)
  {
    if !IsValidPayload(payload) {
      return true;
    }
    var draftOrderId := ResolveDraftOrderId(payload);
    if draftOrderId.None? {
      return true;
    }
    var found := admin.DraftOrderById(draftOrderId.value);
    ghost var issued := [FetchDraftOrder(draftOrderId.value)];
    assert admin.draftOrders == ApplyAllToDrafts(old(admin.draftOrders), issued) by {
      ApplyAllToDraftsSnoc(old(admin.draftOrders), [], FetchDraftOrder(draftOrderId.value));
      QueryKeepsDrafts(old(admin.draftOrders), FetchDraftOrder(draftOrderId.value));
      assert [] + [FetchDraftOrder(draftOrderId.value)] == issued;
    }
    if found.None? {
      return true;
    }
    var draftOrder := found.value;
    if CanSetShippingToZero(draftOrder) {
      admin.UpdateShippingLine(draftOrder.id, FreePrice, FreeTitle);
      ApplyAllToDraftsSnoc(old(admin.draftOrders), issued, UpdateShippingLine(draftOrder.id, FreePrice, FreeTitle));
      issued := issued + [UpdateShippingLine(draftOrder.id, FreePrice, FreeTitle)];
    }
    assert issued == HandlerCalls(payload, old(admin.draftOrders));
    return true;
  }
}
