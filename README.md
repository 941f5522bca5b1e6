# Payment-terms and return-shipping automation for Shopify, in Dafny

This project models the Cloud Functions of a Shopify app that:

- keeps the shop's fulfillment webhooks routed to a Pub/Sub topic;
- on each fulfillment event, issues the order's NET payment terms and tags the order as done;
- gives return (RMA) draft orders a free custom shipping line.

There are five handlers:

- `install.ts`: the multi-tenant installer.
- `registerWebhooks.ts`: the single-shop registrar behind a shared secret.
- `updatePaymentTerms.ts`: the payment-terms rule.
- `draftOrderShippingUpdate.ts`: the return-shipping rule.
- `index.ts`: the Pub/Sub trigger, which finds a shop's stored credentials before running the payment-terms rule.

Modules:

- `Remote` (remote.dfy): one shop's platform state as a class `Admin`. It holds the webhook subscriptions, orders and draft orders, and a log `calls` of every query and mutation made. Each GraphQL operation is a method that appends its `Call` to the log and changes the state as the platform would. `ApplyToOrder` and `ApplyToDraft` give the effect of one mutation as a function. `CredentialStore` is the `stores` collection of credential documents.
- `Js` (js.dfy) and `Text` (text.dfy): the JavaScript values the handlers inspect (truthiness, property access, `String(v)`) and ASCII versions of `trim`, `toUpperCase`, `startsWith` and `includes`.
- `Webhooks` (webhooks.dfy): the diff of desired webhooks against installed subscriptions, shared by both installers. It also holds the create and delete fan-outs, as loops with invariants.
- `Install`, `Registrar`, `PaymentTermsRule`, `DraftShipping`, `PubSubTrigger`: one module per handler.

Each handler method is proved against a pure function of its inputs: the exact run of calls it issues (`HandlerCalls`, `Plan`, `RegisterCalls`) and the resulting state. The lemmas beside it state what the source promises: idempotence on redelivery, convergence of webhook registration, which branches can be taken at all, and the validation and credential rules.

Two branches of the source can never run, and the model proves it:

- The removal of a stale completed tag from an unfulfilled order (`updatePaymentTerms.ts:70-75`) cannot run, because an order carrying that tag already returned at line 36. `PaymentTermsRule.UnfulfilledOrderUntouched` proves this, and the method body marks the branch unreachable. The comment at `updatePaymentTerms.ts:66-69` says the tag is removed; the model follows the code.
- The deletion of the previous app's webhooks when the stored token differs (`install.ts:329-331`) cannot run either. A stored token is never replaced (lines 296-322), so `storedAuth.accessToken` always equals `auth.accessToken` (see `Install.Admit` and `Install.StoredTokenKept`).

The order snapshot carries `displayFulfillmentStatus` because the handler reads it (`updatePaymentTerms.ts:58`). The query the order is fetched with does not select that field (see "## Findings"). The handler model reads the order in full, as evidently intended; `PaymentTermsRule.AsFetched` is the order as the query returns it.

## Model

| member | source | states |
|---|---|---|
| Webhooks.Matches | functions/src/handlers/install.ts:136-141 | an installed subscription stands for a desired webhook exactly when it is the subscription the platform would create for that input, whatever its id |
| Webhooks.Missing | functions/src/handlers/install.ts:135-143 | a desired webhook is missing iff no installed subscription agrees with it on topic, Pub/Sub topic and Pub/Sub project; the missing list is never longer than the desired one |
| Webhooks.MissingKeepsOrder | functions/src/handlers/install.ts:135-143 | the missing entries appear in the same order as in the desired list |
| Webhooks.MissingIgnoresIds | functions/src/handlers/install.ts:136-141 | subscription ids play no part: lists that agree on topic and endpoint give the same missing list |
| Webhooks.MissingShrinks | functions/src/handlers/install.ts:135-143 | installing more subscriptions never makes a desired webhook missing |
| Webhooks.ToInstall | functions/src/handlers/install.ts:50-52 | without a predicate nothing is installed; with one, exactly the missing entries it accepts, a subset of the missing list |
| Webhooks.CreatedNoLongerMissing | functions/src/handlers/install.ts:64-90 | every created input is installed in the re-fetched list and absent from its missing list |
| Webhooks.CreatingAllMissingConverges | functions/src/handlers/registerWebhooks.ts:37-51 | once every missing webhook is created, nothing is missing |
| Webhooks.CreateAll | functions/src/handlers/install.ts:64-85 | one create call per input, in order; each adds a subscription with a fresh id carrying its input's topic and endpoint |
| Webhooks.DeleteEach | functions/src/handlers/install.ts:113-117 | one delete call per victim, by id; exactly the victims' ids disappear and the rest keep their order |
| Webhooks.RemovingSelectedKeepsRest | functions/src/handlers/install.ts:109-117 | deleting the subscriptions a predicate selects leaves exactly those it rejects, in order |
| Webhooks.RemovingAllLeavesNone | functions/src/handlers/install.ts:109-111 | deleting the ids of every installed subscription leaves none |
| Install.AvailableWebhooks | functions/src/handlers/install.ts:9-28 | one available webhook: FULFILLMENTS_CREATE, delivered as JSON to the `update_payment_terms` topic of the project |
| Install.AvailableTopics | functions/src/handlers/install.ts:31-33 | one Pub/Sub topic per available webhook, in order |
| Install.GetAllWebhooks | functions/src/handlers/install.ts:128-150 | one list query; the overview holds the available topics, the installed list and its missing entries; nothing changes |
| Install.RegisterWebhooks | functions/src/handlers/install.ts:41-100 | creates exactly the selected missing webhooks, re-lists only if one was created, and returns the overview of the new state, in which no created webhook is missing |
| Install.DeleteWebhooks | functions/src/handlers/install.ts:102-121 | lists, then deletes every subscription (no predicate) or exactly the selected ones, leaving the rest in order |
| Install.KnownTopics | functions/src/handlers/install.ts:157-163 | keeps exactly the array elements that are non-empty strings naming an available Pub/Sub topic |
| Install.KnownTopicsKeepOrder | functions/src/handlers/install.ts:158-163 | the kept topics are a subsequence of the array |
| Install.WebhooksToConfigure | functions/src/handlers/install.ts:152-167 | `"ALL"` selects every available topic, an array its known topics, anything else nothing |
| Install.InvalidParams | functions/src/handlers/install.ts:230-257 | `shop` is reported iff it is not a non-empty string; `method` iff it is not one of GET/POST/DELETE/PUT in any case; `accessToken` iff the method is not GET and no non-empty string token was given |
| Install.ParseVerb | functions/src/handlers/install.ts:247 | the verb of a validated upper-cased method has that name |
| Install.Admit | functions/src/handlers/install.ts:217-322 | an admitted request has a truthy token; a stored truthy token is used as is and never overwritten; the token is written only when none is stored; so the stored and used tokens agree |
| Install.InvalidRequestRefused | functions/src/handlers/install.ts:259-268 | any invalid parameter gives a 400 with exactly those parameters, whatever the token check and the store would say |
| Install.StoredTokenKept | functions/src/handlers/install.ts:291-331 | for a shop with a stored token, nothing is written and the stored credentials are the ones used |
| Install.DispatchPost | functions/src/handlers/install.ts:326-346 | POST registers the `webhooks.add` topics (or only lists without a selector) and replies with the overview of the new state |
| Install.DispatchPut | functions/src/handlers/install.ts:368-395 | PUT deletes the `remove` topics first, then registers the `add` topics against what is left, and replies with the final overview |
| Install.RemoveTopics | functions/src/handlers/install.ts:373-377 | with a `remove` selector, lists and deletes exactly the subscriptions on those topics and keeps the rest in order; without one, makes no call and changes nothing |
| Install.Dispatch | functions/src/handlers/install.ts:324-395 | GET lists, POST registers, DELETE deletes every subscription and the shop's credential document, PUT reconfigures |
| Install.OnRequest | functions/src/handlers/install.ts:213-417 | a request that is not admitted gets its refusal and touches neither the platform nor the store; an admitted one first stores a new token if none was stored, then is dispatched |
| Install.Screen | functions/src/handlers/install.ts:213-322 | the checks before dispatch (HTTP method, body, parameters, presented token, stored token) decide exactly `Admit` and change nothing |
| Registrar.RequiredWebhooks | functions/src/handlers/registerWebhooks.ts:7-26 | two required webhooks, FULFILLMENTS_UPDATE then FULFILLMENTS_CREATE, both delivered as JSON to the project's `update_payment_terms` topic |
| Registrar.ListOf | functions/src/handlers/registerWebhooks.ts:89-99 | the missing list is exactly the required webhooks with no installed subscription agreeing on topic, Pub/Sub topic and project |
| Registrar.GetAllWebhooks | functions/src/handlers/registerWebhooks.ts:80-100 | one list query, nothing changed |
| Registrar.InstallMissing | functions/src/handlers/registerWebhooks.ts:33-52 | one create per missing webhook, with no filtering; a second list only if the missing list was non-empty; afterwards nothing is missing |
| Registrar.Handler | functions/src/handlers/registerWebhooks.ts:28-60 | the returned list reflects the new state and has no missing entries |
| Registrar.DeleteAll | functions/src/handlers/registerWebhooks.ts:62-78 | one delete per installed subscription, by id; none is left |
| Registrar.Route | functions/src/handlers/registerWebhooks.ts:126-164 | an operation is selected only for an HTTP POST whose string `secret` equals the shared secret; the upper-cased string `method` picks register, delete or list |
| Registrar.OnRequest | functions/src/handlers/registerWebhooks.ts:122-186 | an unrouted request gets 401 with no call made and no change; a registration makes exactly `HandlerCalls` of the missing webhooks and leaves none missing; a deletion lists then deletes every subscription; a listing makes one list call and changes nothing |
| Registrar.WrongSecretRejected | functions/src/handlers/registerWebhooks.ts:127-130 | a missing, non-string or wrong secret selects nothing |
| Registrar.RouteIgnoresMethodCase | functions/src/handlers/registerWebhooks.ts:126 | the HTTP method is compared case-insensitively |
| Registrar.SecondRegistrationOnlyLists | functions/src/handlers/registerWebhooks.ts:33-52 | running the registration again creates nothing and lists once |
| Registrar.FreshShopGetsBoth | functions/src/handlers/registerWebhooks.ts:7-26 | on a shop with no subscriptions, both required webhooks are missing, update first |
| PaymentTermsRule.IsValidPayload | functions/src/handlers/updatePaymentTerms.ts:155-164 | a payload is valid iff it is an object whose `admin_graphql_api_id` is a string |
| PaymentTermsRule.ResolveOrderId | functions/src/handlers/updatePaymentTerms.ts:176-184 | a truthy `order_id` gives `gid://shopify/Order/<order_id>`; otherwise the payload id only if it has that prefix; otherwise nothing is fetched |
| PaymentTermsRule.HandlerCalls | functions/src/handlers/updatePaymentTerms.ts:24-33 | an invalid or unresolvable payload causes no call; otherwise the calls are the fetch of the resolved order followed by the plan of that order when it exists |
| PaymentTermsRule.Plan | functions/src/handlers/updatePaymentTerms.ts:35-134 | calls are planned only for an order that is fulfilled and carries neither the completed nor the disable tag; at most three, each a terms update or the addition of the multi-schedule or completed tag to that order |
| PaymentTermsRule.CompletedOrderUntouched | functions/src/handlers/updatePaymentTerms.ts:36-44 | an order tagged completed gets no mutation, whatever else it holds |
| PaymentTermsRule.DisabledOrderUntouched | functions/src/handlers/updatePaymentTerms.ts:47-55 | an order tagged disabled gets no mutation |
| PaymentTermsRule.UnfulfilledOrderUntouched | functions/src/handlers/updatePaymentTerms.ts:58-77 | an order that is not FULFILLED gets no mutation at all, so the tag removal is never issued |
| PaymentTermsRule.NoTagIsEverRemoved | functions/src/handlers/updatePaymentTerms.ts:66-75 | no run of the rule removes a tag |
| PaymentTermsRule.MultiScheduleTagOnce | functions/src/handlers/updatePaymentTerms.ts:79-98 | the multiple-schedules tag is added at most once, as the first mutation, iff there are several schedules and the tag is absent; it does not prevent the terms update |
| PaymentTermsRule.TermsUpdatedIffEligible | functions/src/handlers/updatePaymentTerms.ts:100-123 | the terms are updated iff the order is unmarked, FULFILLED, NET and its first schedule has no `completedAt`; then exactly once, on the order's terms, issued now |
| PaymentTermsRule.CompletedTagFollowsUpdate | functions/src/handlers/updatePaymentTerms.ts:125-134 | the completed tag is added iff the terms are updated, only once, as the last mutation, right after the update |
| PaymentTermsRule.FulfilledNetOrderExample | functions/src/handlers/updatePaymentTerms.ts:102-134 | an untagged FULFILLED order with one unpaid NET schedule gets exactly the terms update and the completed tag |
| PaymentTermsRule.AsFetchedNeverMutated | functions/src/lib/graphql/orders.ts:7-16 | an order as the `order(id:)` query returns it, without `displayFulfillmentStatus`, never gets a mutation |
| PaymentTermsRule.FetchHidesFulfilledOrder | functions/src/handlers/updatePaymentTerms.ts:58 | the fulfilled NET order that is updated when read in full gets no call at all as fetched |
| PaymentTermsRule.TagsOnlyGrow | functions/src/handlers/updatePaymentTerms.ts:89-97 | tag additions keep every tag already present and add each requested tag, changing nothing else |
| PaymentTermsRule.PlanIsIdempotent | functions/src/handlers/updatePaymentTerms.ts:35-44 | running the rule on the order it left behind issues no mutation |
| PaymentTermsRule.RedeliveryIssuesNoMutation | functions/src/handlers/updatePaymentTerms.ts:16-153 | a redelivered event, on the store as the first delivery left it, issues no mutation |
| PaymentTermsRule.Handle | functions/src/handlers/updatePaymentTerms.ts:16-153 | always returns true; issues exactly `HandlerCalls` and leaves the orders as those calls make them |
| PaymentTermsRule.HandleOrder | functions/src/handlers/updatePaymentTerms.ts:29-152 | fetches the resolved order and, when it exists, issues exactly its `Plan`, the orders ending as those calls leave them |
| PaymentTermsRule.IssuePlan | functions/src/handlers/updatePaymentTerms.ts:35-152 | after the fetch, issues exactly `Plan` of the fetched order |
| PaymentTermsRule.IssueMultiScheduleTag | functions/src/handlers/updatePaymentTerms.ts:82-98 | an order with more than one payment schedule is tagged multi-schedule unless already tagged; otherwise no call |
| PaymentTermsRule.IssueTermsUpdate | functions/src/handlers/updatePaymentTerms.ts:100-134 | open NET terms get the issue-date update and then the completed tag unless already present; otherwise no call |
| DraftShipping.IsValidPayload | functions/src/handlers/draftOrderShippingUpdate.ts:64-73 | a payload is valid iff it is an object whose `admin_graphql_api_id` is a string |
| DraftShipping.ResolveDraftOrderId | functions/src/handlers/draftOrderShippingUpdate.ts:85-94 | any numeric `draft_order_id`, 0 included, gives `gid://shopify/DraftOrder/<id>`; otherwise the payload id only if it has that prefix; otherwise nothing is fetched |
| DraftShipping.CanSetShippingToZero | functions/src/handlers/draftOrderShippingUpdate.ts:103-117 | a draft qualifies iff its note, trimmed and upper-cased, starts with "RMA:" and contains "ORDER NUMBER:", and it does not already have a custom shipping line priced exactly "0.00"; so non-return notes never qualify, and for a return note the verdict is the free-line test alone |
| DraftShipping.HandlerCalls | functions/src/handlers/draftOrderShippingUpdate.ts:18-51 | an invalid payload causes no call; otherwise the first call fetches the resolved draft; at most two calls |
| DraftShipping.BlankNoteNeverQualifies | functions/src/handlers/draftOrderShippingUpdate.ts:104-106 | a null, empty or white-space-only note never qualifies |
| DraftShipping.PaddedNoteQualifiesAlike | functions/src/handlers/draftOrderShippingUpdate.ts:105 | white space around the note does not change whether it qualifies |
| DraftShipping.LowerCaseNoteQualifies | functions/src/handlers/draftOrderShippingUpdate.ts:103-117 | `"rma: order number: "` followed by any order number ending in a visible character qualifies, and a custom line priced "0.0" is not taken as free |
| DraftShipping.NoteNormalizes | functions/src/handlers/draftOrderShippingUpdate.ts:105 | trimming and upper-casing such a lower-case note gives `"RMA: ORDER NUMBER: "` followed by the upper-cased number |
| DraftShipping.NormalizedNoteIsReturn | functions/src/handlers/draftOrderShippingUpdate.ts:107-109 | any text after `"RMA: ORDER NUMBER: "` passes both the `startsWith("RMA:")` and the `includes("ORDER NUMBER:")` test |
| DraftShipping.UpdateIsStable | functions/src/handlers/draftOrderShippingUpdate.ts:29-41 | after the update the draft has a custom "FREE SHIPPING" line priced "0.00" and no longer qualifies |
| DraftShipping.OnlyFreeShippingWritten | functions/src/handlers/draftOrderShippingUpdate.ts:29-41 | at most one mutation, the second call: the free shipping line on the fetched draft, which qualified |
| DraftShipping.RedeliveryIssuesNoMutation | functions/src/handlers/draftOrderShippingUpdate.ts:10-62 | a redelivered event, on the drafts as the first delivery left them, issues no mutation |
| DraftShipping.Handle | functions/src/handlers/draftOrderShippingUpdate.ts:10-62 | always returns true; issues exactly `HandlerCalls` and leaves the drafts as those calls make them |
| PubSubTrigger.ShopOf | functions/src/index.ts:28-30 | a shop is named iff the `X-Shopify-Shop-Domain` attribute is present and non-empty |
| PubSubTrigger.ResolveAuth | functions/src/index.ts:28-37 | credentials are found iff a shop is named, its document exists and its `accessToken` is a string; they pair that shop with that token |
| PubSubTrigger.OnMessage | functions/src/index.ts:26-44 | always acknowledges; without credentials nothing is called; with them the payment-terms handler runs once, with those credentials |
| PubSubTrigger.NoShopNoLookup | functions/src/index.ts:29-32 | without a shop attribute the outcome is the same for every store, so the store is not consulted |
| PubSubTrigger.UnknownShopSkipped | functions/src/index.ts:32-33 | a shop with no document is not handled |
| PubSubTrigger.NonStringTokenSkipped | functions/src/index.ts:35-36 | a stored token that is not a string is not used |
| PubSubTrigger.OnlyNamedShopMatters | functions/src/index.ts:32-37 | only the named shop's document affects the outcome |
| Text.TrimEmptyIffAllSpace | functions/src/handlers/draftOrderShippingUpdate.ts:105-106 | a string trims to empty iff it is all white space |
| Text.TrimIgnoresPadding | functions/src/handlers/draftOrderShippingUpdate.ts:105 | white space added around a string does not change its trimmed form |
| Text.ContainsIffOccurs | functions/src/handlers/draftOrderShippingUpdate.ts:108 | `includes` holds iff the text occurs at some position |

## Left out

- Transport and GraphQL failures are not modelled: every query and mutation succeeds. This leaves out the 500 replies of both `onRequest` handlers, the `.catch` on the shop-info query, and the create user errors that `registerWebhooks` only logs.
- The shop-info query made with a presented token (`install.ts:272-289`) is a parameter `shopInfo`: the domain the platform reports for that token, or nothing when the query fails.
- `Promise.all` fan-outs run one call after another in list order. The order in which concurrent calls complete, and partial failure, are not modelled. DELETE in `install.ts` is modelled as deleting the webhooks before the credential document.
- Page limits are not modelled: 100 subscriptions per list and 10 payment schedules per order. Lists are complete.
- Each `Admin` is one shop. The `shop` half of the credentials selects which `Admin` is meant and is not checked. The order query and the payment-terms mutation go through the default client, not the handler's credentials (`lib/graphql/orders.ts:47`, `:76`); the model does not tell the two apart.
- The platform is assumed to behave as follows. Tag mutations add or remove the tag on the named order. `paymentTermsUpdate` replaces the schedules with the single one sent. The draft-order update sets a custom shipping line with the given title and price, and the draft then reports that price, "0.00", verbatim as its `totalShippingPrice`; `DraftShipping.UpdateIsStable` and `DraftShipping.RedeliveryIssuesNoMutation` hold only under this assumption. Webhook creation always succeeds with a fresh id.
- Logging is left out, including the `justInstalled` count. That count equals the number of create calls in `Registrar.HandlerCalls`. The install HTML page is left out too.
- `secretSalt.value()`, `process.env.GCLOUD_PROJECT` and `new Date().toISOString()` are parameters. The project fallback is `Webhooks.Project`, which both `onRequest` methods apply to the environment value.
- Text.Upper: ASCII only (`a`..`z`). JavaScript's Unicode-aware `toUpperCase` is not modelled.
- Text.Trim: ASCII white space only. The Unicode spaces that JavaScript's `trim` also removes are not modelled.
- JavaScript numbers are integers in the model (`Num(n: int)`). `draft_order_id` and `order_id` values that are fractional, `NaN` or infinite are not modelled.
- PaymentTermsRule.ResolveOrderId and DraftShipping.ResolveDraftOrderId write numeric ids with `Text.IntString`, in plain decimal digits. JavaScript's `String(n)` switches to exponent notation from 1e21 and does not hold integers above 2^53 exactly, so for such `order_id` or `draft_order_id` values the fetched id differs from the source's.
- A request body that is neither an object, `null` nor `undefined` (for example a raw string) is treated like an object without the fields read.
- In `install.ts`, `let { shop, method } = request.body` on a null body and `_method.toUpperCase()` on a non-string `method` throw before any reply (line 247 runs before the 400 at line 259). Both are modelled as the outcome `Crashed`, with no status.
- Install.DispatchPost and Install.Dispatch leave out the deletion with the previous credentials (`install.ts:329-331`). `Install.Admit` proves it unreachable, and the method marks it with `assert false`.
- Registrar.OnRequest: the `!response.headersSent` guard is not modelled; every path that reaches it has sent nothing yet.

## Findings

| source | as written | input that shows it | evidently intended | confidence | as-written member | corrected member |
|---|---|---|---|---|---|---|
| functions/src/lib/graphql/orders.ts:7-16 | the order fragment does not select `displayFulfillmentStatus`, so the test at `updatePaymentTerms.ts:58` always sees it absent and returns before any mutation | an untagged order, `displayFulfillmentStatus` FULFILLED, one NET schedule with `completedAt` null | the fragment selects the field, and fulfilled orders with open NET terms get the update and the completed tag | high; not executed | PaymentTermsRule.FetchHidesFulfilledOrder | PaymentTermsRule.TermsUpdatedIffEligible |
