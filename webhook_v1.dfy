/** The older webhook handler (`POST /api/stripe/webhook`): it keeps one row
    per user and plan, keying every upsert on `(user_id, plan)`, and records a
    one-time (lifetime) purchase with status "lifetime". `DecideV1` is what
    the handler does for one delivery; `HandleV1` executes it on the table. */
module WebhookV1 {
  import opened Common
  import opened SubscriptionStore
  import opened StripeEvents

  /** `!userId || !plan || !billing` is false. */
  predicate MetadataComplete(o: StripeObject)
  {
    Truthy(Meta(o, "supabase_user_id")) && ParsePlan(Meta(o, "plan")).Some?
    && ParseBilling(Meta(o, "billing")).Some?
  }

  /** The payload `upsertSubscription` sends; optional fields left out are
      sent as null, so every column is written. */
  function LifetimePayload(session: StripeObject): Payload
    requires MetadataComplete(session)
  {
    Payload(Meta(session, "supabase_user_id").value, ParsePlan(Meta(session, "plan")).value, Lifetime, "lifetime",
            IdOrNullIfFalsy(session.customer), None, Put(Some(session.id)), None)
  }

  function SubscriptionPayload(session: StripeObject, periodEnd: Option<int>): Payload
    requires MetadataComplete(session)
  {
    Payload(Meta(session, "supabase_user_id").value, ParsePlan(Meta(session, "plan")).value,
            ParseBilling(Meta(session, "billing")).value, "active",
            IdOrNullIfFalsy(session.customer), IdOrNullIfFalsy(session.subscription), Put(Some(session.id)), periodEnd)
  }

  /** `checkout.session.completed`: a payment-mode session is a lifetime
      purchase; any other session is a subscription, whose period end is
      retrieved when it has a subscription id. */
  function CheckoutCompleted(session: StripeObject, retrieved: Try<StripeObject>): (a: Action)
    ensures a.Reply? ==> a.status in {200, 500}
    ensures a.Perform? ==> MetadataComplete(session) && a.write.Upsert? && a.write.target == OnOwnerPlan
  {
    if !MetadataComplete(session) then Reply(200)
    else if session.mode == Some("payment") then Perform(Upsert(OnOwnerPlan, LifetimePayload(session)))
    else if Truthy(IdOrNullIfFalsy(session.subscription)) then
      if retrieved.Threw? then Reply(500)
      else Perform(Upsert(OnOwnerPlan, SubscriptionPayload(session, ToIso(retrieved.value.currentPeriodEnd))))
    else Perform(Upsert(OnOwnerPlan, SubscriptionPayload(session, None)))
  }

  /** `customer.subscription.updated`: a patch of the status Stripe reports
      (left out of the statement when the event has none), the period end and
      the customer. */
  function SubscriptionUpdated(sub: StripeObject): Write
  {
    Update(sub.id, Patch(if sub.status.Some? then Put(sub.status.value) else Keep,
                         ToIso(sub.currentPeriodEnd), Put(IdOrNull(sub.customer))))
  }

  /** `customer.subscription.deleted`. */
  function SubscriptionDeleted(sub: StripeObject): Write
  {
    Update(sub.id, Patch(Put("canceled"), ToIso(sub.currentPeriodEnd), Keep))
  }

  /** The whole handler for one delivery; `customer.subscription.created`
      has no case of its own and is ignored with every other type. */
  function DecideV1(env: Env, signature: Option<string>, verification: Try<Event>, retrieved: Try<StripeObject>): (a: Action)
    ensures a.Reply? ==> a.status in {200, 400, 500}
  {
    if !WebhookEnvReady(env) then Reply(500)
    else if !Truthy(signature) || verification.Threw? then Reply(400)
    else
      var event := verification.value;
      if event.kind == "checkout.session.completed" then CheckoutCompleted(event.data, retrieved)
      else if event.kind == "customer.subscription.updated" then Perform(SubscriptionUpdated(event.data))
      else if event.kind == "customer.subscription.deleted" then Perform(SubscriptionDeleted(event.data))
      else Reply(200)
  }

  /** `POST` run against the table: it answers what `DecideV1` decides, and a
      statement the store refuses or cannot run answers 500 and leaves the
      table as it was. */
  method HandleV1(table: Table, env: Env, signature: Option<string>, verification: Try<Event>,
                  retrieved: Try<StripeObject>, now: int, reachable: bool)
    returns (status: int)
    requires table.Valid()
    modifies table
    ensures table.Valid()
    ensures var a := DecideV1(env, signature, verification, retrieved);
      var stored := a.Perform? && reachable && old(table.Admits(a.write, now));
      && status == FinalStatus(a, stored)
      && table.rows == (if stored then Applied(old(table.rows), a.write, now) else old(table.rows))
  {
    if !WebhookEnvReady(env) {
      return 500;
    }
    if !Truthy(signature) || verification.Threw? {
      return 400;
    }
    var event := verification.value;
    var o := event.data;
    var write: Write;
    if event.kind == "checkout.session.completed" {
      if !MetadataComplete(o) {
        return 200;
      }
      if o.mode == Some("payment") {
        write := Upsert(OnOwnerPlan, LifetimePayload(o));
      } else {
        var subscriptionId := IdOrNullIfFalsy(o.subscription);
        var periodEnd: Option<int> := None;
        if Truthy(subscriptionId) {
          if retrieved.Threw? {
            return 500;
          }
          periodEnd := ToIso(retrieved.value.currentPeriodEnd);
        }
        write := Upsert(OnOwnerPlan, SubscriptionPayload(o, periodEnd));
      }
    } else if event.kind == "customer.subscription.updated" {
      write := SubscriptionUpdated(o);
    } else if event.kind == "customer.subscription.deleted" {
      write := SubscriptionDeleted(o);
    } else {
      return 200;
    }
    var ok := table.Execute(write, now, reachable);
    status := FinalStatus(Perform(write), ok);
  }

  // ---------------------------------------------------------------------
  // Properties of the decision
  // ---------------------------------------------------------------------

  /** A missing signature header or a failed verification is answered 400
      (500 when the environment, checked first, is incomplete) and writes
      nothing. */
  lemma BadSignatureWritesNothing(env: Env, signature: Option<string>, verification: Try<Event>, retrieved: Try<StripeObject>)
    requires !Truthy(signature) || verification.Threw?
    ensures var a := DecideV1(env, signature, verification, retrieved);
      a.Reply? && a.status == (if WebhookEnvReady(env) then 400 else 500)
  {
  }

  /** Missing or invalid metadata breaks out of the switch: nothing is
      written and the answer is still 200. */
  lemma IncompleteCheckoutWritesNothing(session: StripeObject, retrieved: Try<StripeObject>)
    requires !MetadataComplete(session)
    ensures CheckoutCompleted(session, retrieved) == Reply(200)
  {
  }

  /** A payment-mode checkout is recorded as billing "lifetime" with status
      "lifetime", no subscription id and no period end, whatever billing the
      metadata named; the plan and user come from the metadata. */
  lemma PaymentCheckoutIsLifetime(session: StripeObject, retrieved: Try<StripeObject>)
    requires MetadataComplete(session) && session.mode == Some("payment")
    ensures var a := CheckoutCompleted(session, retrieved);
      && a.Perform? && a.write.Upsert? && a.write.target == OnOwnerPlan
      && a.write.payload.billing == Lifetime && a.write.payload.status == "lifetime"
      && a.write.payload.subscriptionId == None && a.write.payload.periodEnd == None
      && Some(PlanName(a.write.payload.plan)) == Meta(session, "plan")
      && a.write.payload.owner == Meta(session, "supabase_user_id").value
  {
  }

  /** Any other checkout writes status "active" with the metadata's billing;
      its period end is set only when there is a subscription id, and then
      from the retrieved subscription (a failed retrieval answers 500). */
  lemma SubscriptionCheckoutIsActive(session: StripeObject, retrieved: Try<StripeObject>)
    requires MetadataComplete(session) && session.mode != Some("payment")
    ensures var a := CheckoutCompleted(session, retrieved);
      var subscriptionId := IdOrNullIfFalsy(session.subscription);
      && (a.Reply? <==> Truthy(subscriptionId) && retrieved.Threw?)
      && (a.Reply? ==> a.status == 500)
      && (a.Perform? ==>
            && a.write.Upsert? && a.write.target == OnOwnerPlan
            && a.write.payload.status == "active"
            && Some(BillingName(a.write.payload.billing)) == Meta(session, "billing")
            && a.write.payload.subscriptionId == subscriptionId
            && a.write.payload.periodEnd == (if Truthy(subscriptionId) then ToIso(retrieved.value.currentPeriodEnd) else None))
  {
  }

  /** Every checkout upsert leaves exactly one row for the user and plan, and
      that row carries the payload: a completed checkout replaces the user's
      earlier row for the plan instead of adding one. */
  lemma OneRowPerUserAndPlan(session: StripeObject, retrieved: Try<StripeObject>, rows: seq<Row>, now: int)
    requires CheckoutCompleted(session, retrieved).Perform?
    requires KeyUnique(rows, OnOwnerPlan)
    ensures var w := CheckoutCompleted(session, retrieved).write;
      var out := Applied(rows, w, now);
      && KeyUnique(out, OnOwnerPlan)
      && (exists i :: 0 <= i < |out| && out[i].owner == w.payload.owner && out[i].plan == w.payload.plan
                      && Carries(out[i], w.payload, now))
      && (forall i, j :: (0 <= i < |out| && 0 <= j < |out| && out[i].owner == w.payload.owner
                          && out[i].plan == w.payload.plan && out[j].owner == w.payload.owner
                          && out[j].plan == w.payload.plan) ==> i == j)
  {
    var w := CheckoutCompleted(session, retrieved).write;
    UpsertLeavesOneCarryingRow(rows, OnOwnerPlan, w.payload, now);
    var out := Applied(rows, w, now);
    forall i, j | (0 <= i < |out| && 0 <= j < |out| && out[i].owner == w.payload.owner
                   && out[i].plan == w.payload.plan && out[j].owner == w.payload.owner
                   && out[j].plan == w.payload.plan)
      ensures i == j
    {
      assert RowKey(out[i], OnOwnerPlan) == PayloadKey(w.payload, OnOwnerPlan);
      assert RowKey(out[j], OnOwnerPlan) == PayloadKey(w.payload, OnOwnerPlan);
    }
  }

  /** Redelivering an event leaves the table as one delivery at the later
      time would. */
  lemma ReplayIsIdempotent(env: Env, signature: Option<string>, verification: Try<Event>, retrieved: Try<StripeObject>,
                           rows: seq<Row>, t1: int, t2: int)
    requires DecideV1(env, signature, verification, retrieved).Perform?
    ensures var w := DecideV1(env, signature, verification, retrieved).write;
      Applied(Applied(rows, w, t1), w, t2) == Applied(rows, w, t2)
  {
    var w := DecideV1(env, signature, verification, retrieved).write;
    assert Keyed(w);
    AppliedTwice(rows, w, t1, t2);
  }

  /** `subscription.updated` changes only status, period end and customer id
      of the rows with its subscription id. */
  lemma UpdateKeepsIdentity(sub: StripeObject, rows: seq<Row>, now: int)
    ensures var out := Applied(rows, SubscriptionUpdated(sub), now);
      && |out| == |rows|
      && forall i :: 0 <= i < |rows| ==>
           && out[i].owner == rows[i].owner && out[i].plan == rows[i].plan && out[i].billing == rows[i].billing
           && out[i].subscriptionId == rows[i].subscriptionId
           && out[i].checkoutSessionId == rows[i].checkoutSessionId
           && (rows[i].subscriptionId == Some(sub.id) ==>
                 && (sub.status.Some? ==> out[i].status == sub.status.value)
                 && (sub.status.None? ==> out[i].status == rows[i].status)
                 && out[i].periodEnd == ToIso(sub.currentPeriodEnd)
                 && out[i].customerId == IdOrNull(sub.customer))
           && (rows[i].subscriptionId != Some(sub.id) ==> out[i] == rows[i])
  {
  }

  /** `subscription.deleted` cancels exactly the rows carrying the deleted
      subscription's id: their status becomes "canceled", their period end
      the event's, and their customer id, owner, plan and billing stay.
      Every other row is untouched. */
  lemma DeletionCancelsItsRows(sub: StripeObject, rows: seq<Row>, now: int)
    ensures var out := Applied(rows, SubscriptionDeleted(sub), now);
      && |out| == |rows|
      && (forall i :: 0 <= i < |rows| && rows[i].subscriptionId == Some(sub.id) ==>
            && out[i].status == "canceled"
            && out[i].periodEnd == ToIso(sub.currentPeriodEnd)
            && out[i].customerId == rows[i].customerId
            && out[i].owner == rows[i].owner && out[i].plan == rows[i].plan
            && out[i].billing == rows[i].billing
            && out[i].updatedAt == now)
      && (forall i :: 0 <= i < |rows| && rows[i].subscriptionId != Some(sub.id) ==> out[i] == rows[i])
  {
  }

  /** `customer.subscription.created` is not handled by this version. */
  lemma CreatedIsIgnored(env: Env, signature: Option<string>, sub: StripeObject, retrieved: Try<StripeObject>)
    requires WebhookEnvReady(env) && Truthy(signature)
    ensures DecideV1(env, signature, Returned(Event("customer.subscription.created", sub)), retrieved) == Reply(200)
  {
  }
}
