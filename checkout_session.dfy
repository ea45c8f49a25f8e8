/** The Checkout Session request both checkout routes send to Stripe, the
    two URL templates they share, and the route outcome: an early JSON answer
    or the parameters of the session to create. */
module CheckoutSession {
  import opened Common
  import opened Json

  datatype LineItem = LineItem(price: string, quantity: int)

  /** The `sessions.create` parameters the routes set; `customerCreation`
      and `customerEmail` are left out of the request when None. */
  datatype SessionParams = SessionParams(
    mode: string,
    lineItems: seq<LineItem>,
    successUrl: string,
    cancelUrl: string,
    clientReferenceId: string,
    metadata: map<string, string>,
    customerCreation: Option<string>,
    customerEmail: Option<string>)

  /** A route either answers early or asks Stripe to create a session. */
  datatype Outcome = Respond(response: JsonResponse) | Create(params: SessionParams)

  /** One-time payment for lifetime access, a subscription otherwise. */
  function ModeFor(b: Billing): (mode: string)
    ensures mode == "payment" <==> b == Lifetime
    ensures mode == "subscription" <==> b != Lifetime
  {
    if b == Lifetime then "payment" else "subscription"
  }

  /** `${origin}/success?plan=..&billing=..&session_id={CHECKOUT_SESSION_ID}`;
      Stripe substitutes the placeholder. */
  function SuccessUrl(origin: string, p: Plan, b: Billing): string
  {
    origin + "/success?plan=" + PlanName(p) + "&billing=" + BillingName(b) + "&session_id={CHECKOUT_SESSION_ID}"
  }

  /** `${origin}/upgrade?plan=..`. */
  function CancelUrl(origin: string, p: Plan): string
  {
    origin + "/upgrade?plan=" + PlanName(p)
  }

  /** The metadata the webhooks read back. */
  function SessionMetadata(userId: string, p: Plan, b: Billing): (m: map<string, string>)
    ensures m.Keys == {"supabase_user_id", "plan", "billing"}
    ensures m["supabase_user_id"] == userId && m["plan"] == PlanName(p) && m["billing"] == BillingName(b)
  {
    map["supabase_user_id" := userId, "plan" := PlanName(p), "billing" := BillingName(b)]
  }

  /** The catch-all answer of both routes: `{ error: "Server error", details }`. */
  function ServerError(details: string): JsonResponse
  {
    JsonResponse(500, ErrorObject("Server error", Some(details)))
  }

  /** The route's answer once Stripe has been asked (or not): the early
      answer, `{ url: session.url }` with 200, or 500 when creation throws. */
  function Finish(o: Outcome, created: Try<Option<string>>): (r: JsonResponse)
    ensures o.Respond? ==> r == o.response
    ensures o.Create? && created.Returned? ==>
      r.status == 200 && Member(r.body, "url") == Some(if created.value.Some? then JStr(created.value.value) else JNull)
    ensures o.Create? && created.Threw? ==> r == ServerError(created.message)
  {
    match o
    case Respond(response) => response
    case Create(_) =>
      match created
      case Returned(url) => JsonResponse(200, JObj(map["url" := if url.Some? then JStr(url.value) else JNull]))
      case Threw(message) => ServerError(message)
  }
}
