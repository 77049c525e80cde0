/**
 * The Stripe service: which price a checkout uses, what the webhook events do to an
 * organization's subscription columns, and the result of a cancellation. The Stripe SDK
 * calls themselves are parameters: the event `construct_event` verified, and whether the
 * deletion raised.
 */
module StripeService {
  import opened Common
  import opened Config
  import opened OrganizationModel
  import opened Store
  import opened Tables

  /** The price of a plan: the pro price for "pro", the basic price for anything else. */
  function PriceId(cfg: Settings, planType: string): string
  {
    if planType == "pro" then cfg.stripePriceIdPro else cfg.stripePriceIdBasic
  }

  /** The checkout session requested from Stripe: one unit of the plan's price, as a subscription. */
  datatype CheckoutRequest = CheckoutRequest(
    priceId: string,
    quantity: int,
    mode: string,
    successUrl: string,
    cancelUrl: string,
    organizationId: Id,
    planType: string
  )

  /** The session Stripe returns: `{"session_id": ..., "url": ...}`. */
  datatype CheckoutSession = CheckoutSession(sessionId: string, url: string)

  /** `create_checkout_session`: the request it sends; the session is what Stripe answers to it. */
  function CheckoutRequestFor(cfg: Settings, organizationId: Id, planType: string, successUrl: string, cancelUrl: string): (r: CheckoutRequest)
    ensures r.priceId == PriceId(cfg, planType) && r.quantity == 1 && r.mode == "subscription"
    ensures r.organizationId == organizationId && r.planType == planType
    ensures r.successUrl == successUrl && r.cancelUrl == cancelUrl
  {
    CheckoutRequest(PriceId(cfg, planType), 1, "subscription", successUrl, cancelUrl, organizationId, planType)
  }

  /** The pro price is chosen exactly for "pro"; every other plan name gets the basic price. */
  lemma PriceSelection(cfg: Settings, planType: string)
    requires cfg.stripePriceIdPro != cfg.stripePriceIdBasic
    ensures PriceId(cfg, planType) == cfg.stripePriceIdPro <==> planType == "pro"
    ensures planType != "pro" ==> PriceId(cfg, planType) == cfg.stripePriceIdBasic
  {
  }

  /** `cancel_subscription`: `True` unless the deletion raised. */
  function CancelResult(deleteRaised: bool): bool
  {
    !deleteRaised
  }

  // ---------------------------------------------------------------------------
  // webhook transitions

  /** The monthly quota of a plan. */
  function PlanLimit(cfg: Settings, planType: string): int
  {
    if planType == "pro" then cfg.proSummariesPerMonth else cfg.basicSummariesPerMonth
  }

  /**
   * A completed checkout: the subscription id, status "active", the plan from the session's
   * metadata and that plan's quota. This month's usage is kept.
   */
  function CheckoutCompleted(o: Organization, cfg: Settings, subscription: Option<string>, planType: string): (r: Organization)
    ensures r.stripeSubscriptionId == subscription && r.subscriptionStatus == "active" && r.planType == planType
    ensures r.summariesLimit == PlanLimit(cfg, planType)
    ensures r.(stripeSubscriptionId := o.stripeSubscriptionId, subscriptionStatus := o.subscriptionStatus,
               planType := o.planType, summariesLimit := o.summariesLimit) == o
  {
    o.(stripeSubscriptionId := subscription, subscriptionStatus := "active", planType := planType,
       summariesLimit := if planType == "pro" then cfg.proSummariesPerMonth else cfg.basicSummariesPerMonth)
  }

  /** A deleted subscription: only the status changes, to "canceled". */
  function SubscriptionDeleted(o: Organization): (r: Organization)
    ensures r.subscriptionStatus == "canceled"
    ensures r.(subscriptionStatus := o.subscriptionStatus) == o
  {
    o.(subscriptionStatus := "canceled")
  }

  /**
   * Cancelling keeps the plan and its quota: a canceled organization may go on creating
   * summaries up to the limit of the plan it had.
   */
  lemma CancelKeepsQuota(o: Organization)
    ensures SubscriptionDeleted(o).summariesLimit == o.summariesLimit && SubscriptionDeleted(o).planType == o.planType
    ensures CanCreateSummary(SubscriptionDeleted(o)) <==> CanCreateSummary(o)
  {
  }

  /** An upgrade raises the quota but does not reset this month's usage. */
  lemma UpgradeKeepsUsage(o: Organization, cfg: Settings, subscription: Option<string>)
    ensures CheckoutCompleted(o, cfg, subscription, "pro").summariesUsedCurrentMonth == o.summariesUsedCurrentMonth
    ensures CanCreateSummary(CheckoutCompleted(o, cfg, subscription, "pro")) <==> o.summariesUsedCurrentMonth < cfg.proSummariesPerMonth
  {
  }

  /**
   * The event `construct_event` builds from the payload: its type, the id of its object,
   * the object's `subscription` field and its metadata.
   */
  datatype StripeEvent = StripeEvent(eventType: string, objectId: string, subscription: Option<string>, metadata: map<string, string>)

  /** What verifying the payload against the signature gives. */
  datatype Verification = Verified(event: StripeEvent) | InvalidPayload | InvalidSignature

  /** The dictionary the handler returns: `{"status": "success"}` or `{"error": message}`. */
  datatype HandlerResult = Success | ErrorDict(error: string)

  function HoldsSubscription(subscriptionId: string): Organization -> bool
  {
    (o: Organization) => o.stripeSubscriptionId == Some(subscriptionId)
  }

  /**
   * What a verified event does: `r` is the handler's answer and `after` the tables it leaves
   * `before` in. A completed checkout updates the organization named in its metadata; a
   * deleted subscription cancels the first organization holding it (`scan` is the order the
   * query visits the organizations). Other events, and events naming no organization, change
   * nothing and still succeed. A checkout lacking its metadata keys raises, and nothing is
   * committed.
   */
  predicate EventHandled(before: Store.Tables, after: Store.Tables, cfg: Settings, e: StripeEvent, scan: seq<Id>, r: Response<HandlerResult>)
    requires IsScanOf(scan, before.organizations)
  {
    if e.eventType == "checkout.session.completed" then
      if "organization_id" !in e.metadata then r == Unhandled() && after == before
      else if e.metadata["organization_id"] !in before.organizations then r == Ok(Success) && after == before
      else if "plan_type" !in e.metadata then r == Unhandled() && after == before
      else
        var id := e.metadata["organization_id"];
        && r == Ok(Success)
        && after == before.(organizations := before.organizations[id :=
             CheckoutCompleted(before.organizations[id], cfg, e.subscription, e.metadata["plan_type"])])
    else if e.eventType == "customer.subscription.deleted" then
      var found := FirstMatch(scan, before.organizations, HoldsSubscription(e.objectId));
      && r == Ok(Success)
      && (found.None? ==> after == before)
      && (found.Some? ==> after == before.(organizations := before.organizations[found.value :=
            SubscriptionDeleted(before.organizations[found.value])]))
    else r == Ok(Success) && after == before
  }

  /**
   * `handle_webhook_event`: an unverifiable event is rejected and changes nothing; a verified
   * one has the effect `EventHandled` describes.
   */
  method HandleWebhookEvent(db: Database, cfg: Settings, verification: Verification, scan: seq<Id>)
    returns (r: Response<HandlerResult>)
    requires db.Valid()
    requires IsScanOf(scan, db.organizations)
    modifies db
    ensures db.Valid()
    ensures verification == InvalidPayload ==> r == Ok(ErrorDict("Invalid payload")) && db.State() == old(db.State())
    ensures verification == InvalidSignature ==> r == Ok(ErrorDict("Invalid signature")) && db.State() == old(db.State())
    ensures verification.Verified? ==> EventHandled(old(db.State()), db.State(), cfg, verification.event, scan, r)
  {
    if verification == InvalidPayload {
      return Ok(ErrorDict("Invalid payload"));
    }
    if verification == InvalidSignature {
      return Ok(ErrorDict("Invalid signature"));
    }
    var e := verification.event;
    if e.eventType == "checkout.session.completed" {
      if "organization_id" !in e.metadata {
        return Unhandled();
      }
      var id := e.metadata["organization_id"];
      if id in db.organizations {
        if "plan_type" !in e.metadata {
          return Unhandled();
        }
        var o := CheckoutCompleted(db.organizations[id], cfg, e.subscription, e.metadata["plan_type"]);
        PutOrganization(db, o);
      }
    } else if e.eventType == "customer.subscription.updated" {
      // acknowledged, nothing to do
    } else if e.eventType == "customer.subscription.deleted" {
      var found := FirstMatch(scan, db.organizations, HoldsSubscription(e.objectId));
      if found.Some? {
        PutOrganization(db, SubscriptionDeleted(db.organizations[found.value]));
      }
    }
    r := Ok(Success);
  }
}
