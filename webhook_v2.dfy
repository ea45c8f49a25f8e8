/** The webhook-v2 handler (`POST /api/stripe/webhook-v2`): it reconciles the
    `subscriptions` table with Stripe events, keying its upserts on the
    Stripe subscription id, or on the checkout session id when there is no
    subscription. `DecideV2` is what the handler does for one delivery;
    `HandleV2` is the handler itself, executing that decision against the
    table. */
module WebhookV2 {
  import opened Common
  import opened SubscriptionStore
  import opened StripeEvents

  /** `session.mode === "subscription" && stripeSubscriptionId`: only then is
      the subscription retrieved for its status and period end. */
  predicate RetrievesSubscription(session: StripeObject)
  {
    session.mode == Some("subscription") && Truthy(IdOrNull(session.subscription))
  }

  /** The metadata `create-checkout-session` attaches is complete. */
  predicate MetadataComplete(o: StripeObject)
  {
    ParsePlan(Meta(o, "plan")).Some? && ParseBilling(Meta(o, "billing")).Some?
    && Truthy(Meta(o, "supabase_user_id"))
  }

  /** `checkout.session.completed`. */
  function CheckoutCompleted(session: StripeObject, retrieved: Try<StripeObject>): (a: Action)
    ensures a.Reply? ==> a.status in {200, 500}
    ensures a.Perform? <==> MetadataComplete(session) && !(RetrievesSubscription(session) && retrieved.Threw?)
    ensures a.Perform? ==> a.write.Upsert? && a.write.payload.checkoutSessionId == Put(Some(session.id))
  {
    if !MetadataComplete(session) then Reply(200)
    else if RetrievesSubscription(session) && retrieved.Threw? then Reply(500)
    else
      var subscriptionId := IdOrNull(session.subscription);
      var status := if RetrievesSubscription(session) then OrElse(retrieved.value.status, "active") else "active";
      var periodEnd := if RetrievesSubscription(session) then ToIso(retrieved.value.currentPeriodEnd) else None;
      var payload := Payload(
        Meta(session, "supabase_user_id").value,
        ParsePlan(Meta(session, "plan")).value,
        ParseBilling(Meta(session, "billing")).value,
        status,
        IdOrNull(session.customer),
        subscriptionId,
        Put(Some(session.id)),
        periodEnd);
      Perform(Upsert(if Truthy(subscriptionId) then OnSubscriptionId else OnCheckoutSessionId, payload))
  }

  /** `customer.subscription.created` and `.updated`: a full upsert when the
      subscription carries the metadata, else a patch of status, period end
      and customer. */
  function SubscriptionChanged(sub: StripeObject): (w: Write)
    ensures w.Upsert? <==> MetadataComplete(sub)
    ensures w.Upsert? ==> w.target == OnSubscriptionId && w.payload.subscriptionId == Some(sub.id)
    ensures w.Update? ==> w.subscriptionId == sub.id
  {
    var status := OrElse(sub.status, "active");
    var periodEnd := ToIso(sub.currentPeriodEnd);
    if MetadataComplete(sub) then
      Upsert(OnSubscriptionId, Payload(
        Meta(sub, "supabase_user_id").value,
        ParsePlan(Meta(sub, "plan")).value,
        ParseBilling(Meta(sub, "billing")).value,
        status,
        IdOrNull(sub.customer),
        Some(sub.id),
        Keep,
        periodEnd))
    else
      Update(sub.id, Patch(Put(status), periodEnd, Put(IdOrNull(sub.customer))))
  }

  /** `customer.subscription.deleted` (the same statement in both handlers). */
  function SubscriptionDeleted(sub: StripeObject): Write
  {
    Update(sub.id, Patch(Put("canceled"), ToIso(sub.currentPeriodEnd), Keep))
  }

  /** The whole handler for one delivery: the environment is asserted, then
      the signature header, then the signature itself, then the event type
      selects the statement. `verification` is the outcome of
      `constructEvent`; `retrieved` that of `subscriptions.retrieve`, used
      only when the checkout branch calls it. */
  function DecideV2(env: Env, signature: Option<string>, verification: Try<Event>, retrieved: Try<StripeObject>): (a: Action)
    ensures a.Reply? ==> a.status in {200, 400, 500}
  {
    if !WebhookEnvReady(env) then Reply(500)
    else if !Truthy(signature) || verification.Threw? then Reply(400)
    else
      var event := verification.value;
      if event.kind == "checkout.session.completed" then CheckoutCompleted(event.data, retrieved)
      else if event.kind == "customer.subscription.created" || event.kind == "customer.subscription.updated" then
        Perform(SubscriptionChanged(event.data))
      else if event.kind == "customer.subscription.deleted" then Perform(SubscriptionDeleted(event.data))
      else Reply(200)
  }

  /** `POST`: the handler run against the table. It answers what `DecideV2`
      decides; a statement the store refuses or cannot run leaves the table
      as it was and answers 500. */
  method HandleV2(table: Table, env: Env, signature: Option<string>, verification: Try<Event>,
                  retrieved: Try<StripeObject>, now: int, reachable: bool)
    returns (status: int)
    requires table.Valid()
    modifies table
    ensures table.Valid()
    ensures var a := DecideV2(env, signature, verification, retrieved);
      var stored := a.Perform? && reachable && old(table.Admits(a.write, now));
      && status == FinalStatus(a, stored)
      && table.rows == (if stored then Applied(old(table.rows), a.write, now) else old(table.rows))
  {
    if !WebhookEnvReady(env) {
      return 500;
    }
    if !Truthy(signature) || verification.Threw? {
      return 400;
    }
    var event := verification.value;
    var o := event.data;
    var write: Write;
    if event.kind == "checkout.session.completed" {
      if !MetadataComplete(o) {
        return 200;
      }
      var subscriptionId := IdOrNull(o.subscription);
      var status' := "active";
      var periodEnd: Option<int> := None;
      if o.mode == Some("subscription") && Truthy(subscriptionId) {
        if retrieved.Threw? {
          return 500;
        }
        status' := OrElse(retrieved.value.status, "active");
        periodEnd := ToIso(retrieved.value.currentPeriodEnd);
      }
      var payload := Payload(Meta(o, "supabase_user_id").value, ParsePlan(Meta(o, "plan")).value,
                             ParseBilling(Meta(o, "billing")).value, status', IdOrNull(o.customer),
                             subscriptionId, Put(Some(o.id)), periodEnd);
      if Truthy(subscriptionId) {
        write := Upsert(OnSubscriptionId, payload);
      } else {
        write := Upsert(OnCheckoutSessionId, payload);
      }
    } else if event.kind == "customer.subscription.created" || event.kind == "customer.subscription.updated" {
      write := SubscriptionChanged(o);
    } else if event.kind == "customer.subscription.deleted" {
      write := SubscriptionDeleted(o);
    } else {
      return 200;
    }
    var ok := table.Execute(write, now, reachable);
    status := FinalStatus(Perform(write), ok);
  }

  // ---------------------------------------------------------------------
  // Properties of the decision
  // ---------------------------------------------------------------------

  /** A missing or empty signature header, or a signature that fails
      verification, is answered 400 before any statement (500 only when the
      environment is incomplete, which is checked first). */
  lemma BadSignatureWritesNothing(env: Env, signature: Option<string>, verification: Try<Event>, retrieved: Try<StripeObject>)
    requires !Truthy(signature) || verification.Threw?
    ensures var a := DecideV2(env, signature, verification, retrieved);
      a.Reply? && a.status == (if WebhookEnvReady(env) then 400 else 500)
  {
  }

  /** A completed checkout without a valid plan, billing and user id is
      acknowledged with 200 and writes nothing. */
  lemma IncompleteCheckoutWritesNothing(session: StripeObject, retrieved: Try<StripeObject>)
    requires !MetadataComplete(session)
    ensures CheckoutCompleted(session, retrieved) == Reply(200)
  {
  }

  /** What a completed checkout writes: status "active" and no period end
      unless it is a subscription checkout with a subscription id, in which
      case both come from the retrieved subscription; a failing retrieval
      answers 500. The conflict target is the subscription id when there is
      one, else the checkout session id, and the session id is always sent. */
  lemma CheckoutPayload(session: StripeObject, retrieved: Try<StripeObject>)
    requires MetadataComplete(session)
    ensures var a := CheckoutCompleted(session, retrieved);
      && (a.Reply? <==> RetrievesSubscription(session) && retrieved.Threw?)
      && (a.Reply? ==> a.status == 500)
      && (a.Perform? ==>
            && a.write.Upsert?
            && var p := a.write.payload;
            && (a.write.target == OnSubscriptionId <==> Truthy(IdOrNull(session.subscription)))
            && (a.write.target == OnCheckoutSessionId <==> !Truthy(IdOrNull(session.subscription)))
            && p.owner == Meta(session, "supabase_user_id").value
            && Some(PlanName(p.plan)) == Meta(session, "plan")
            && Some(BillingName(p.billing)) == Meta(session, "billing")
            && p.subscriptionId == IdOrNull(session.subscription)
            && p.customerId == IdOrNull(session.customer)
            && p.checkoutSessionId == Put(Some(session.id))
            && (RetrievesSubscription(session) ==>
                  && p.status == OrElse(retrieved.value.status, "active")
                  && p.periodEnd == ToIso(retrieved.value.currentPeriodEnd))
            && (!RetrievesSubscription(session) ==> p.status == "active" && p.periodEnd == None))
  {
  }

  /** Every statement the handler issues is keyed: its upserts never carry a
      NULL conflict key, since a subscription id is used only when truthy and
      the session id is always sent. */
  lemma WritesAreKeyed(env: Env, signature: Option<string>, verification: Try<Event>, retrieved: Try<StripeObject>)
    ensures var a := DecideV2(env, signature, verification, retrieved);
      a.Perform? ==> Keyed(a.write)
  {
  }

  /** After a successful checkout upsert on a table whose key is unique,
      exactly one row has the conflict key and it carries the payload. */
  lemma CheckoutLeavesOneRow(session: StripeObject, retrieved: Try<StripeObject>, rows: seq<Row>, now: int)
    requires CheckoutCompleted(session, retrieved).Perform?
    requires KeyUnique(rows, CheckoutCompleted(session, retrieved).write.target)
    ensures var w := CheckoutCompleted(session, retrieved).write;
      var out := Applied(rows, w, now);
      && KeyUnique(out, w.target)
      && (exists i :: 0 <= i < |out| && RowKey(out[i], w.target) == PayloadKey(w.payload, w.target)
                      && Carries(out[i], w.payload, now))
      && (forall i, j :: (0 <= i < |out| && 0 <= j < |out| && RowKey(out[i], w.target) == PayloadKey(w.payload, w.target)
                          && RowKey(out[j], w.target) == PayloadKey(w.payload, w.target)) ==> i == j)
  {
    var w := CheckoutCompleted(session, retrieved).write;
    UpsertLeavesOneCarryingRow(rows, w.target, w.payload, now);
  }

  /** Redelivering an event Stripe already delivered (with the same
      retrieval) leaves the table as one delivery at the later time would:
      nothing but `updated_at` tells the two apart. */
  lemma ReplayIsIdempotent(env: Env, signature: Option<string>, verification: Try<Event>, retrieved: Try<StripeObject>,
                           rows: seq<Row>, t1: int, t2: int)
    requires DecideV2(env, signature, verification, retrieved).Perform?
    ensures var w := DecideV2(env, signature, verification, retrieved).write;
      Applied(Applied(rows, w, t1), w, t2) == Applied(rows, w, t2)
  {
    var w := DecideV2(env, signature, verification, retrieved).write;
    WritesAreKeyed(env, signature, verification, retrieved);
    AppliedTwice(rows, w, t1, t2);
  }

  /** A created or updated subscription without complete metadata changes
      only status, period end and customer id, and only on the rows with its
      subscription id; owner, plan, billing and the Stripe ids stay. */
  lemma SubscriptionPatchKeepsIdentity(sub: StripeObject, rows: seq<Row>, now: int)
    requires !MetadataComplete(sub)
    ensures var out := Applied(rows, SubscriptionChanged(sub), now);
      && |out| == |rows|
      && forall i :: 0 <= i < |rows| ==>
           && out[i].owner == rows[i].owner && out[i].plan == rows[i].plan && out[i].billing == rows[i].billing
           && out[i].subscriptionId == rows[i].subscriptionId
           && out[i].checkoutSessionId == rows[i].checkoutSessionId
           && (rows[i].subscriptionId == Some(sub.id) ==>
                 && out[i].status == OrElse(sub.status, "active")
                 && out[i].periodEnd == ToIso(sub.currentPeriodEnd)
                 && out[i].customerId == IdOrNull(sub.customer))
           && (rows[i].subscriptionId != Some(sub.id) ==> out[i] == rows[i])
  {
  }

  /** A deleted subscription cancels exactly the rows with its id; every
      other row is unchanged, and with no such row the table is unchanged. */
  lemma DeletionCancelsExactlyItsRows(sub: StripeObject, rows: seq<Row>, now: int)
    ensures var out := Applied(rows, SubscriptionDeleted(sub), now);
      && |out| == |rows|
      && (forall i :: 0 <= i < |rows| ==>
            (out[i].status == "canceled" && out[i].customerId == rows[i].customerId
             && out[i].owner == rows[i].owner && out[i].plan == rows[i].plan)
            || out[i] == rows[i])
      && (forall i :: 0 <= i < |rows| && rows[i].subscriptionId == Some(sub.id) ==> out[i].status == "canceled")
      && (forall i :: 0 <= i < |rows| && rows[i].subscriptionId != Some(sub.id) ==> out[i] == rows[i])
      && ((forall i :: 0 <= i < |rows| ==> rows[i].subscriptionId != Some(sub.id)) ==> out == rows)
  {
  }

  /** `invoice.payment_succeeded` and every event type the switch does not
      name are acknowledged with 200 and write nothing. */
  lemma OtherEventsWriteNothing(env: Env, signature: Option<string>, event: Event, retrieved: Try<StripeObject>)
    requires WebhookEnvReady(env) && Truthy(signature)
    requires event.kind !in {"checkout.session.completed", "customer.subscription.created",
                             "customer.subscription.updated", "customer.subscription.deleted"}
    ensures DecideV2(env, signature, Returned(event), retrieved) == Reply(200)
  {
  }
}
