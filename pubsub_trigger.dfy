/**
 * The `updatePaymentTerms` Pub/Sub trigger (`index.ts`): it takes the shop
 * from the message's `X-Shopify-Shop-Domain` attribute, looks up that shop's
 * stored credentials, and runs the payment-terms rule only when a string
 * access token is on file. Every path acknowledges the message.
 */
module PubSubTrigger {
  import opened Wrappers
  import opened Js
  import opened Remote
  import PaymentTermsRule

  const ShopAttribute := "X-Shopify-Shop-Domain"

  /** The credentials the payment-terms rule is run with. */
  datatype Auth = Auth(shop: string, accessToken: string)

  /** The shop named by the message, when the attribute is present and non-empty. */
  function ShopOf(attributes: map<string, string>): (r: Option<string>)
    ensures r.Some? <==> ShopAttribute in attributes && attributes[ShopAttribute] != []
    ensures r.Some? ==> r.value == attributes[ShopAttribute]
  {
    if ShopAttribute in attributes && attributes[ShopAttribute] != [] then Some(attributes[ShopAttribute]) else None
  }

  /** The guard chain: shop attribute, then stored document, then a string token. */
  function ResolveAuth(attributes: map<string, string>, docs: map<string, StoredAuth>): (r: Option<Auth>)
    ensures r.Some? <==>
      ShopOf(attributes).Some? && ShopOf(attributes).value in docs && docs[ShopOf(attributes).value].accessToken.Str?
    ensures r.Some? ==>
      r.value.shop == ShopOf(attributes).value
      && Str(r.value.accessToken) == docs[r.value.shop].accessToken
  {
    match ShopOf(attributes)
    case None => None
    case Some(shop) =>
      if shop !in docs then None
      else
        var accessToken := docs[shop].accessToken;
        if !accessToken.Str? then None else Some(Auth(shop, accessToken.s))
  }

  /**
   * The trigger: `Some(auth)` in `invokedWith` when the payment-terms handler was
   * called, with the credentials it was called with; the store is only read.
   */
  method OnMessage(admin: Admin, store: CredentialStore, attributes: map<string, string>, data: Json, now: string)
    returns (acknowledged: bool, invokedWith: Option<Auth>)
    modifies admin
    ensures acknowledged
    ensures invokedWith == ResolveAuth(attributes, store.docs)
    ensures invokedWith.None? ==> admin.calls == old(admin.calls) && admin.orders == old(admin.orders)
    ensures invokedWith.Some? ==>
      && admin.calls == old(admin.calls) + PaymentTermsRule.HandlerCalls(data, old(admin.orders), now)
      && admin.orders == ApplyAllToOrders(old(admin.orders), PaymentTermsRule.HandlerCalls(data, old(admin.orders), now))
    ensures admin.subscriptions == old(admin.subscriptions) && admin.nextId == old(admin.nextId)
    ensures admin.draftOrders == old(admin.draftOrders)
  {
    var shop := ShopOf(attributes);
    if shop.None? {
      return true, None;
    }
    var shopRef := store.Get(shop.value);
    if shopRef.None? {
      return true, None;
    }
    var accessToken := shopRef.value.accessToken;
    if !accessToken.Str? {
      return true, None;
    }
    invokedWith := Some(Auth(shop.value, accessToken.s));
    acknowledged := PaymentTermsRule.Handle(admin, data, now);
  }

  // ------------------------------------------------------------- properties

  /** Without a shop attribute the store is not consulted: the outcome is the same for every store. */
  lemma NoShopNoLookup(attributes: map<string, string>, docs: map<string, StoredAuth>, otherDocs: map<string, StoredAuth>)
    requires ShopAttribute !in attributes || attributes[ShopAttribute] == []
    ensures ResolveAuth(attributes, docs) == ResolveAuth(attributes, otherDocs) == None
  {
  }

  /** A shop with no stored document is not handled. */
  lemma UnknownShopSkipped(attributes: map<string, string>, docs: map<string, StoredAuth>)
    requires ShopOf(attributes).Some? && ShopOf(attributes).value !in docs
    ensures ResolveAuth(attributes, docs) == None
  {
  }

  /** A stored token that is not a string, such as a number or null, is not used. */
  lemma NonStringTokenSkipped(attributes: map<string, string>, docs: map<string, StoredAuth>)
    requires ShopOf(attributes).Some? && ShopOf(attributes).value in docs
    requires !docs[ShopOf(attributes).value].accessToken.Str?
    ensures ResolveAuth(attributes, docs) == None
  {
  }

  /** Only the named shop's document matters: the other documents may change freely. */
  lemma OnlyNamedShopMatters(attributes: map<string, string>, docs: map<string, StoredAuth>, otherDocs: map<string, StoredAuth>)
    requires ShopOf(attributes).Some?
    requires var shop := ShopOf(attributes).value;
      (shop in docs <==> shop in otherDocs) && (shop in docs ==> docs[shop] == otherDocs[shop])
    ensures ResolveAuth(attributes, docs) == ResolveAuth(attributes, otherDocs)
  {
  }
}
