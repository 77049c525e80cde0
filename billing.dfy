/**
 * The `/billing` endpoints: start a checkout for a plan, report the subscription, cancel it,
 * and receive Stripe's webhook. The Stripe answers (the new customer id, the session, whether
 * the cancellation raised, the verified event) are parameters.
 */
module BillingEndpoint {
  import opened Common
  import opened Config
  import opened OrganizationModel
  import opened UserModel
  import opened Store
  import opened Tables
  import opened StripeService

  const INVALID_PLAN: string := "Invalid plan type. Must be 'basic' or 'pro'"
  const ORG_NOT_FOUND: string := "Organization not found"
  const NO_SUBSCRIPTION: string := "No active subscription found"
  const CANCELED: string := "Subscription canceled successfully"
  const CANCEL_FAILED: string := "Failed to cancel subscription"
  const MISSING_SIGNATURE: string := "Missing stripe-signature header"

  /** The organization has a customer id Python treats as truthy. */
  predicate HasCustomer(o: Organization)
  {
    o.stripeCustomerId.Some? && o.stripeCustomerId.value != ""
  }

  /**
   * `POST /billing/create-checkout-session`: a plan other than "basic" or "pro" is refused
   * before any lookup; a missing organization is not found. A Stripe customer is created only
   * when the organization has none, so an existing customer id is never replaced: `newCustomer`
   * is the id Stripe returns, or `None` when the call raises, which nothing catches. The new
   * id is committed before the session is requested, so it stays recorded when `stripe`, the
   * session Stripe answers to the request for the plan (or `None` when it raises), fails.
   */
  method CreateSubscriptionCheckout(db: Database, caller: User, cfg: Settings, planType: string,
                                    newCustomer: Option<string>, stripe: CheckoutRequest -> Option<CheckoutSession>)
    returns (resp: Response<CheckoutSession>)
    requires caller.role == Admin
    requires db.Valid()
    modifies db
    ensures db.Valid()
    ensures planType != "basic" && planType != "pro" ==> resp == Fail(BAD_REQUEST, INVALID_PLAN) && db.State() == old(db.State())
    ensures (planType == "basic" || planType == "pro") && caller.organizationId !in old(db.organizations) ==>
      resp == Fail(NOT_FOUND, ORG_NOT_FOUND) && db.State() == old(db.State())
    ensures (planType == "basic" || planType == "pro") && caller.organizationId in old(db.organizations) ==>
      var o := old(db.organizations[caller.organizationId]);
      var session := stripe(CheckoutRequestFor(cfg, o.id, planType, cfg.frontendUrl + "/billing/success", cfg.frontendUrl + "/billing/cancel"));
      && (!HasCustomer(o) && newCustomer.None? ==> resp == Unhandled() && db.State() == old(db.State()))
      && (HasCustomer(o) || newCustomer.Some? ==> resp == (if session.Some? then Ok(session.value) else Unhandled()))
      && (HasCustomer(o) ==> db.State() == old(db.State()))
      && (!HasCustomer(o) && newCustomer.Some? ==> db.State() == old(db.State()).(organizations :=
            old(db.organizations)[o.id := o.(stripeCustomerId := newCustomer)]))
  {
    if planType != "basic" && planType != "pro" {
      return Fail(BAD_REQUEST, INVALID_PLAN);
    }
    if caller.organizationId !in db.organizations {
      return Fail(NOT_FOUND, ORG_NOT_FOUND);
    }
    var o := db.organizations[caller.organizationId];
    if !HasCustomer(o) {
      if newCustomer.None? {
        return Unhandled();
      }
      o := o.(stripeCustomerId := newCustomer);
      PutOrganization(db, o);
    }
    var successUrl := cfg.frontendUrl + "/billing/success";
    var cancelUrl := cfg.frontendUrl + "/billing/cancel";
    var session := stripe(CheckoutRequestFor(cfg, o.id, planType, successUrl, cancelUrl));
    if session.None? {
      return Unhandled();
    }
    resp := Ok(session.value);
  }

  /** The subscription columns the status endpoint reports. */
  datatype SubscriptionStatus = SubscriptionStatus(
    organizationId: Id,
    subscriptionStatus: string,
    planType: string,
    stripeSubscriptionId: Option<string>,
    summariesLimit: int,
    summariesUsedCurrentMonth: int
  )

  /** `GET /billing/subscription`: the six columns of the caller's organization, unchanged. */
  method GetSubscriptionStatus(db: Database, caller: User) returns (resp: Response<SubscriptionStatus>)
    requires db.Valid()
    ensures caller.organizationId !in db.organizations <==> resp == Fail(NOT_FOUND, ORG_NOT_FOUND)
    ensures resp.Ok? ==>
      var o := db.organizations[caller.organizationId];
      && resp.value.organizationId == caller.organizationId
      && resp.value.subscriptionStatus == o.subscriptionStatus && resp.value.planType == o.planType
      && resp.value.stripeSubscriptionId == o.stripeSubscriptionId
      && resp.value.summariesLimit == o.summariesLimit
      && resp.value.summariesUsedCurrentMonth == o.summariesUsedCurrentMonth
  {
    if caller.organizationId !in db.organizations {
      return Fail(NOT_FOUND, ORG_NOT_FOUND);
    }
    var o := db.organizations[caller.organizationId];
    resp := Ok(SubscriptionStatus(o.id, o.subscriptionStatus, o.planType, o.stripeSubscriptionId, o.summariesLimit, o.summariesUsedCurrentMonth));
  }

  /** The organization has a subscription id Python treats as truthy. */
  predicate HasSubscription(o: Organization)
  {
    o.stripeSubscriptionId.Some? && o.stripeSubscriptionId.value != ""
  }

  /**
   * `POST /billing/cancel-subscription`: without an organization or a subscription there is
   * nothing to cancel. When Stripe's deletion succeeds the status becomes "canceled"; when it
   * raises the answer is 500 and the status is kept.
   */
  method CancelSubscription(db: Database, caller: User, deleteRaised: bool) returns (resp: Response<string>)
    requires caller.role == Admin
    requires db.Valid()
    modifies db
    ensures db.Valid()
    ensures (caller.organizationId !in old(db.organizations) || !HasSubscription(old(db.organizations[caller.organizationId]))) ==>
      resp == Fail(NOT_FOUND, NO_SUBSCRIPTION) && db.State() == old(db.State())
    ensures caller.organizationId in old(db.organizations) && HasSubscription(old(db.organizations[caller.organizationId])) ==>
      var o := old(db.organizations[caller.organizationId]);
      && (CancelResult(deleteRaised) ==> resp == Ok(CANCELED) && db.State() == old(db.State()).(organizations :=
            old(db.organizations)[o.id := SubscriptionDeleted(o)]))
      && (!CancelResult(deleteRaised) ==> resp == Fail(INTERNAL_SERVER_ERROR, CANCEL_FAILED) && db.State() == old(db.State()))
  {
    if caller.organizationId !in db.organizations || !HasSubscription(db.organizations[caller.organizationId]) {
      return Fail(NOT_FOUND, NO_SUBSCRIPTION);
    }
    var o := db.organizations[caller.organizationId];
    var success := CancelResult(deleteRaised);
    if success {
      PutOrganization(db, o.(subscriptionStatus := "canceled"));
      return Ok(CANCELED);
    }
    resp := Fail(INTERNAL_SERVER_ERROR, CANCEL_FAILED);
  }

  /**
   * `POST /billing/webhook`: a missing or empty `stripe-signature` header is refused before
   * the payload is looked at; a handler result carrying an error is turned into a 400 with
   * that error as detail; otherwise the handler's result is the answer, so a verified event
   * answers and changes the tables as `EventHandled` says.
   */
  method StripeWebhook(db: Database, cfg: Settings, signature: Option<string>, verification: Verification, scan: seq<Id>)
    returns (resp: Response<HandlerResult>)
    requires db.Valid()
    requires IsScanOf(scan, db.organizations)
    modifies db
    ensures db.Valid()
    ensures (signature.None? || signature.value == "") ==> resp == Fail(BAD_REQUEST, MISSING_SIGNATURE) && db.State() == old(db.State())
    ensures resp.Ok? ==> resp.value == Success
    ensures signature.Some? && signature.value != "" && verification == InvalidPayload ==> resp == Fail(BAD_REQUEST, "Invalid payload") && db.State() == old(db.State())
    ensures signature.Some? && signature.value != "" && verification == InvalidSignature ==> resp == Fail(BAD_REQUEST, "Invalid signature") && db.State() == old(db.State())
    ensures signature.Some? && signature.value != "" && verification.Verified? ==>
      EventHandled(old(db.State()), db.State(), cfg, verification.event, scan, resp)
  {
    if signature.None? || signature.value == "" {
      return Fail(BAD_REQUEST, MISSING_SIGNATURE);
    }
    var result := HandleWebhookEvent(db, cfg, verification, scan);
    if result.Error? {
      return result;
    }
    if result.value.ErrorDict? {
      return Fail(BAD_REQUEST, result.value.error);
    }
    resp := result;
  }
}
