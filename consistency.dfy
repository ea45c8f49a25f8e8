/** How the pieces fit together across versions: the rows the two webhook
    handlers write, read back by the entitlements route and the client's
    `hasPlan`. */
module BillingConsistency {
  import opened Common
  import opened SubscriptionStore
  import opened StripeEvents
  import EntitlementsRoute
  import EntitlementCheck
  import WebhookV1
  import WebhookV2

  /** A table row as the entitlements route selects it
      (`plan,billing,status,current_period_end`). */
  function AsSubRow(r: Row): (s: EntitlementsRoute.SubRow)
    ensures s.plan == PlanName(r.plan) && s.billing == BillingName(r.billing)
    ensures s.status == r.status && s.currentPeriodEnd == r.periodEnd
  {
    EntitlementsRoute.SubRow(PlanName(r.plan), BillingName(r.billing), r.status, r.periodEnd)
  }

  function AsSubRows(rows: seq<Row>): (s: seq<EntitlementsRoute.SubRow>)
    ensures |s| == |rows|
    ensures forall i :: 0 <= i < |rows| ==> s[i] == AsSubRow(rows[i])
  {
    seq(|rows|, i requires 0 <= i < |rows| => AsSubRow(rows[i]))
  }

  /** The older handler records a completed one-time (payment-mode)
      checkout with status "lifetime"; written into an empty table, that row
      grants the user nothing. */
  lemma V1LifetimeGrantsNothing(session: StripeObject, retrieved: Try<StripeObject>, now: int)
    requires WebhookV1.MetadataComplete(session) && session.mode == Some("payment")
    ensures var v1 := Applied([], WebhookV1.CheckoutCompleted(session, retrieved).write, now);
      EntitlementsRoute.Reduce(AsSubRows(v1)) == EntitlementsRoute.Entitlements(false, false, false)
  {
    var w1 := WebhookV1.CheckoutCompleted(session, retrieved).write;
    var v1 := Applied([], w1, now);
    assert v1 == [Inserted(w1.payload, now)];
    EntitlementsRoute.InactiveRowsGrantNothing(AsSubRows(v1));
  }

  /** webhook-v2 records the same one-time checkout with status "active";
      written into an empty table, that row grants the plan that was
      bought. */
  lemma V2PurchaseGrantsPlan(session: StripeObject, retrieved: Try<StripeObject>, now: int)
    requires WebhookV1.MetadataComplete(session) && session.mode == Some("payment")
    ensures var v2 := Applied([], WebhookV2.CheckoutCompleted(session, retrieved).write, now);
      var owner := Meta(session, "supabase_user_id").value;
      var plan := ParsePlan(Meta(session, "plan")).value;
      EntitlementCheck.HasPlan(Some(EntitlementCheck.FromRoute(owner, EntitlementsRoute.Reduce(AsSubRows(v2)))), plan)
  {
    var w2 := WebhookV2.CheckoutCompleted(session, retrieved).write;
    var v2 := Applied([], w2, now);
    assert v2 == [Inserted(w2.payload, now)];
    var owner := Meta(session, "supabase_user_id").value;
    var plan := ParsePlan(Meta(session, "plan")).value;
    var rows := AsSubRows(v2);
    assert rows[0] in rows && EntitlementsRoute.GrantsPlan(rows[0], PlanName(plan));
    EntitlementCheck.HasPlanOfRoute(owner, rows, plan);
  }

  /** The same completed one-time checkout, written into an empty table:
      the older handler's row grants nothing, webhook-v2's grants the plan. */
  lemma LifetimePurchaseDiverges(session: StripeObject, retrieved: Try<StripeObject>, now: int)
    requires WebhookV1.MetadataComplete(session) && session.mode == Some("payment")
    ensures var v1 := Applied([], WebhookV1.CheckoutCompleted(session, retrieved).write, now);
      EntitlementsRoute.Reduce(AsSubRows(v1)) == EntitlementsRoute.Entitlements(false, false, false)
    ensures var v2 := Applied([], WebhookV2.CheckoutCompleted(session, retrieved).write, now);
      var owner := Meta(session, "supabase_user_id").value;
      var plan := ParsePlan(Meta(session, "plan")).value;
      EntitlementCheck.HasPlan(Some(EntitlementCheck.FromRoute(owner, EntitlementsRoute.Reduce(AsSubRows(v2)))), plan)
  {
    V1LifetimeGrantsNothing(session, retrieved, now);
    V2PurchaseGrantsPlan(session, retrieved, now);
  }

  /** A subscription the older handler records from a completed checkout is
      "active", so it grants its plan whatever period end it carries: no
      route compares the period end with the clock. */
  lemma ExpiredSubscriptionStillGrants(session: StripeObject, retrieved: Try<StripeObject>, now: int)
    requires WebhookV1.MetadataComplete(session) && session.mode != Some("payment")
    requires WebhookV1.CheckoutCompleted(session, retrieved).Perform?
    ensures var v1 := Applied([], WebhookV1.CheckoutCompleted(session, retrieved).write, now);
      var owner := Meta(session, "supabase_user_id").value;
      var plan := ParsePlan(Meta(session, "plan")).value;
      EntitlementCheck.HasPlan(Some(EntitlementCheck.FromRoute(owner, EntitlementsRoute.Reduce(AsSubRows(v1)))), plan)
  {
    var w := WebhookV1.CheckoutCompleted(session, retrieved).write;
    var v1 := Applied([], w, now);
    assert v1 == [Inserted(w.payload, now)];
    var owner := Meta(session, "supabase_user_id").value;
    var plan := ParsePlan(Meta(session, "plan")).value;
    var rows := AsSubRows(v1);
    assert rows[0] in rows && EntitlementsRoute.GrantsPlan(rows[0], PlanName(plan));
    EntitlementCheck.HasPlanOfRoute(owner, rows, plan);
  }
}
