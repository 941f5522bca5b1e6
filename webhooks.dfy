/**
 * Webhook reconciliation shared by both installers: which desired
 * subscriptions are missing from the installed list, which of them to create,
 * and the create and delete fan-outs (issued one after another here; the
 * source starts them together and waits for all).
 */
module Webhooks {
  import opened Wrappers
  import opened Remote

  /** `process.env.GCLOUD_PROJECT ?? "drifiresystem-shopify"`. */
  function Project(gcloudProject: Option<string>): string
  {
    gcloudProject.GetOr("drifiresystem-shopify")
  }

  /** An installed subscription stands for a desired one when topic, Pub/Sub topic and project agree; the id is ignored. */
  predicate Matches(s: Subscription, w: WebhookInput): (r: bool)
    ensures r <==> s == SubscriptionFor(s.id, w)
  {
    && s.topic == w.topic
    && s.endpoint.PubSubEndpoint?
    && s.endpoint.pubSubTopic == w.pubSubTopic
    && s.endpoint.pubSubProject == w.pubSubProject
  }

  predicate IsInstalled(w: WebhookInput, installed: seq<Subscription>)
  {
    exists s :: s in installed && Matches(s, w)
  }

  /** The desired entries that no installed subscription matches, in their desired order. */
  function Missing(desired: seq<WebhookInput>, installed: seq<Subscription>): (r: seq<WebhookInput>)
    ensures forall w :: w in r <==> w in desired && !IsInstalled(w, installed)
    ensures |r| <= |desired|
  {
    if desired == [] then []
    else (if IsInstalled(desired[0], installed) then [] else [desired[0]]) + Missing(desired[1..], installed)
  }

  /** `a` is `b` with some elements left out, the rest in their order. */
  ghost predicate IsSubsequence<T>(a: seq<T>, b: seq<T>)
    decreases |b|
  {
    a == [] || (b != [] && ((a[0] == b[0] && IsSubsequence(a[1..], b[1..])) || IsSubsequence(a, b[1..])))
  }

  /** `missing` keeps the desired order. */
  lemma {:induction false} MissingKeepsOrder(desired: seq<WebhookInput>, installed: seq<Subscription>)
    ensures IsSubsequence(Missing(desired, installed), desired)
  {
    if desired != [] {
      MissingKeepsOrder(desired[1..], installed);
      var rest := Missing(desired[1..], installed);
      if IsInstalled(desired[0], installed) {
        assert Missing(desired, installed) == rest;
      } else {
        assert Missing(desired, installed) == [desired[0]] + rest;
        assert ([desired[0]] + rest)[1..] == rest;
      }
    }
  }

  /** Matching ignores subscription ids: two installed lists that agree on everything but ids leave the same entries missing. */
  lemma {:induction false} MissingIgnoresIds(desired: seq<WebhookInput>, a: seq<Subscription>, b: seq<Subscription>)
    requires |a| == |b|
    requires forall k :: 0 <= k < |a| ==> a[k].topic == b[k].topic && a[k].endpoint == b[k].endpoint
    ensures Missing(desired, a) == Missing(desired, b)
  {
    if desired != [] {
      MissingIgnoresIds(desired[1..], a, b);
      var w := desired[0];
      if IsInstalled(w, a) {
        var s :| s in a && Matches(s, w);
        var k :| 0 <= k < |a| && a[k] == s;
        assert Matches(b[k], w);
      }
      if IsInstalled(w, b) {
        var s :| s in b && Matches(s, w);
        var k :| 0 <= k < |b| && b[k] == s;
        assert Matches(a[k], w);
      }
    }
  }

  /** `xs.filter(p)`. */
  function Filter<T(!new)>(xs: seq<T>, p: T -> bool): (r: seq<T>)
    ensures forall x :: x in r <==> x in xs && p(x)
    ensures |r| <= |xs|
  {
    if xs == [] then [] else (if p(xs[0]) then [xs[0]] else []) + Filter(xs[1..], p)
  }

  /** The elements `p` does not select, in order. */
  function Reject<T(!new)>(xs: seq<T>, p: T -> bool): (r: seq<T>)
    ensures forall x :: x in r <==> x in xs && !p(x)
  {
    if xs == [] then [] else (if p(xs[0]) then [] else [xs[0]]) + Reject(xs[1..], p)
  }

  /** What `registerWebhooks` creates: nothing without a predicate, else the selected missing entries. */
  function ToInstall(missing: seq<WebhookInput>, select: Option<WebhookInput -> bool>): (r: seq<WebhookInput>)
    ensures select.None? ==> r == []
    ensures forall w :: w in r <==> select.Some? && w in missing && select.value(w)
    ensures |r| <= |missing|
  {
    if select.None? then [] else Filter(missing, select.value)
  }

  /** The subscriptions the platform creates for `ws`, numbered from `start`. */
  function Created(start: nat, ws: seq<WebhookInput>): (r: seq<Subscription>)
    ensures |r| == |ws|
    ensures forall k :: 0 <= k < |ws| ==> r[k] == SubscriptionFor(start + k, ws[k])
  {
    seq(|ws|, k requires 0 <= k < |ws| => SubscriptionFor(start + k, ws[k]))
  }

  function CreateCalls(ws: seq<WebhookInput>): (r: seq<Call>)
    ensures |r| == |ws|
    ensures forall k :: 0 <= k < |ws| ==> r[k] == CreateWebhook(ws[k])
  {
    seq(|ws|, k requires 0 <= k < |ws| => CreateWebhook(ws[k]))
  }

  function DeleteCalls(victims: seq<Subscription>): (r: seq<Call>)
    ensures |r| == |victims|
    ensures forall k :: 0 <= k < |victims| ==> r[k] == DeleteWebhook(victims[k].id)
  {
    seq(|victims|, k requires 0 <= k < |victims| => DeleteWebhook(victims[k].id))
  }

  function IdsOf(subs: seq<Subscription>): set<nat>
  {
    set s | s in subs :: s.id
  }

  /** Every created entry is installed, and so no longer missing, once its subscription exists. */
  lemma CreatedNoLongerMissing(desired: seq<WebhookInput>, base: seq<Subscription>, start: nat, ws: seq<WebhookInput>)
    ensures forall w :: w in ws ==> IsInstalled(w, base + Created(start, ws))
    ensures forall w :: w in ws ==> w !in Missing(desired, base + Created(start, ws))
  {
    forall w | w in ws ensures IsInstalled(w, base + Created(start, ws)) {
      var k :| 0 <= k < |ws| && ws[k] == w;
      var created := base + Created(start, ws);
      assert created[|base| + k] == SubscriptionFor(start + k, w);
      assert Matches(created[|base| + k], w);
    }
  }

  /** Nothing is missing when every desired entry is installed. */
  lemma {:induction false} NothingMissing(desired: seq<WebhookInput>, installed: seq<Subscription>)
    requires forall w :: w in desired ==> IsInstalled(w, installed)
    ensures Missing(desired, installed) == []
  {
    if desired != [] {
      assert desired[0] in desired;
      NothingMissing(desired[1..], installed);
    }
  }

  /** Reconciliation converges: creating every missing entry leaves nothing missing. */
  lemma CreatingAllMissingConverges(desired: seq<WebhookInput>, base: seq<Subscription>, start: nat)
    ensures Missing(desired, base + Created(start, Missing(desired, base))) == []
  {
    var missing := Missing(desired, base);
    var installed := base + Created(start, missing);
    CreatedNoLongerMissing(desired, base, start, missing);
    forall w | w in desired ensures IsInstalled(w, installed) {
      if IsInstalled(w, base) {
        var s :| s in base && Matches(s, w);
        assert s in installed;
      }
    }
    NothingMissing(desired, installed);
  }

  /** Adding subscriptions never makes an entry missing. */
  lemma MissingShrinks(desired: seq<WebhookInput>, base: seq<Subscription>, extra: seq<Subscription>)
    ensures forall w :: w in Missing(desired, base + extra) ==> w in Missing(desired, base)
  {
    forall w | w in desired && IsInstalled(w, base) ensures IsInstalled(w, base + extra) {
      var s :| s in base && Matches(s, w);
      assert s in base + extra;
    }
  }

  /** Deleting identifiers in two steps is deleting their union. */
  lemma {:induction false} RemoveIdsTwice(subs: seq<Subscription>, a: set<nat>, b: set<nat>)
    ensures RemoveIds(RemoveIds(subs, a), b) == RemoveIds(subs, a + b)
  {
    if subs != [] {
      RemoveIdsTwice(subs[1..], a, b);
    }
  }

  /** Deleting identifiers nobody carries changes nothing. */
  lemma {:induction false} RemoveAbsentIds(subs: seq<Subscription>, ids: set<nat>, absent: set<nat>)
    requires forall s :: s in subs ==> s.id !in absent
    ensures RemoveIds(subs, ids + absent) == RemoveIds(subs, ids)
  {
    if subs != [] {
      assert subs[0] in subs;
      RemoveAbsentIds(subs[1..], ids, absent);
    }
  }

  /** With unique ids, deleting the ids of the selected subscriptions removes exactly those and keeps the rest in order. */
  lemma {:induction false} RemovingSelectedKeepsRest(subs: seq<Subscription>, p: Subscription -> bool)
    requires UniqueIds(subs)
    ensures RemoveIds(subs, IdsOf(Filter(subs, p))) == Reject(subs, p)
  {
    if subs != [] {
      var x, rest := subs[0], subs[1..];
      HeadIdUnique(subs);
      RemovingSelectedKeepsRest(rest, p);
      var ids := IdsOf(Filter(rest, p));
      assert x.id !in ids;
      if p(x) {
        assert IdsOf(Filter(subs, p)) == ids + {x.id} by {
          assert Filter(subs, p) == [x] + Filter(rest, p);
        }
        calc {
          RemoveIds(subs, ids + {x.id});
          RemoveIds(rest, ids + {x.id});
          { RemoveAbsentIds(rest, ids, {x.id}); }
          RemoveIds(rest, ids);
        }
      } else {
        assert Filter(subs, p) == Filter(rest, p);
        assert RemoveIds(subs, ids) == [x] + RemoveIds(rest, ids);
      }
    }
  }

  /** The first subscription's id is not repeated in the rest, which keeps its ids unique. */
  lemma HeadIdUnique(subs: seq<Subscription>)
    requires UniqueIds(subs) && subs != []
    ensures UniqueIds(subs[1..])
    ensures forall s :: s in subs[1..] ==> s.id != subs[0].id
  {
    forall s | s in subs[1..] ensures s.id != subs[0].id {
      var k :| 0 <= k < |subs[1..]| && subs[1..][k] == s;
      assert subs[k + 1] == s;
    }
  }

  /** Creates one subscription per entry of `ws`, in order. */
  method CreateAll(admin: Admin, ws: seq<WebhookInput>)
    requires admin.Valid()
    modifies admin
    ensures admin.Valid()
    ensures admin.subscriptions == old(admin.subscriptions) + Created(old(admin.nextId), ws)
    ensures admin.nextId == old(admin.nextId) + |ws|
    ensures admin.calls == old(admin.calls) + CreateCalls(ws)
    ensures admin.orders == old(admin.orders) && admin.draftOrders == old(admin.draftOrders)
  {
    var i := 0;
    while i < |ws|
      invariant 0 <= i <= |ws|
      invariant admin.Valid()
      invariant admin.subscriptions == old(admin.subscriptions) + Created(old(admin.nextId), ws[..i])
      invariant admin.nextId == old(admin.nextId) + i
      invariant admin.calls == old(admin.calls) + CreateCalls(ws[..i])
      invariant admin.orders == old(admin.orders) && admin.draftOrders == old(admin.draftOrders)
    {
      admin.CreateWebhook(ws[i]);
      assert ws[..i + 1] == ws[..i] + [ws[i]];
      assert Created(old(admin.nextId), ws[..i + 1]) == Created(old(admin.nextId), ws[..i]) + [SubscriptionFor(old(admin.nextId) + i, ws[i])];
      assert CreateCalls(ws[..i + 1]) == CreateCalls(ws[..i]) + [CreateWebhook(ws[i])];
      i := i + 1;
    }
    assert ws[..i] == ws;
  }

  /** Deletes each subscription of `victims` by id, in order. */
  method DeleteEach(admin: Admin, victims: seq<Subscription>)
    requires admin.Valid()
    modifies admin
    ensures admin.Valid()
    ensures admin.subscriptions == RemoveIds(old(admin.subscriptions), IdsOf(victims))
    ensures admin.nextId == old(admin.nextId)
    ensures admin.calls == old(admin.calls) + DeleteCalls(victims)
    ensures admin.orders == old(admin.orders) && admin.draftOrders == old(admin.draftOrders)
  {
    var i := 0;
    assert IdsOf(victims[..0]) == {};
    RemoveIdsTwice(admin.subscriptions, {}, {});
    assert RemoveIds(admin.subscriptions, {}) == admin.subscriptions by {
      RemoveAbsentIds(admin.subscriptions, {}, {});
      NothingRemoved(admin.subscriptions);
    }
    while i < |victims|
      invariant 0 <= i <= |victims|
      invariant admin.Valid()
      invariant admin.subscriptions == RemoveIds(old(admin.subscriptions), IdsOf(victims[..i]))
      invariant admin.nextId == old(admin.nextId)
      invariant admin.calls == old(admin.calls) + DeleteCalls(victims[..i])
      invariant admin.orders == old(admin.orders) && admin.draftOrders == old(admin.draftOrders)
    {
      admin.DeleteWebhook(victims[i].id);
      RemoveIdsTwice(old(admin.subscriptions), IdsOf(victims[..i]), {victims[i].id});
      assert victims[..i + 1] == victims[..i] + [victims[i]];
      assert IdsOf(victims[..i + 1]) == IdsOf(victims[..i]) + {victims[i].id};
      assert DeleteCalls(victims[..i + 1]) == DeleteCalls(victims[..i]) + [DeleteWebhook(victims[i].id)];
      i := i + 1;
    }
    assert victims[..i] == victims;
  }

  lemma {:induction false} NothingRemoved(subs: seq<Subscription>)
    ensures RemoveIds(subs, {}) == subs
  {
    if subs != [] {
      NothingRemoved(subs[1..]);
    }
  }

  /** Deleting a superset of the identifiers in use deletes everything. */
  lemma {:induction false} RemovingAllLeavesNone(subs: seq<Subscription>, ids: set<nat>)
    requires IdsOf(subs) <= ids
    ensures RemoveIds(subs, ids) == []
  {
    if subs != [] {
      assert subs[0] in subs;
      assert IdsOf(subs[1..]) <= IdsOf(subs) by {
        forall s | s in subs[1..] ensures s in subs { }
      }
      RemovingAllLeavesNone(subs[1..], ids);
    }
  }
}
