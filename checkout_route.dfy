/** `POST /api/stripe/checkout`: validates the requested option, resolves
    its Stripe price from the environment, authenticates the caller, and
    asks Stripe for a Checkout Session. `Decide` is the route's decision as a
    function of its inputs; `Post` builds and adjusts the session parameters
    step by step, as the route does, and is proved to send exactly what
    `Decide` describes. */
module CheckoutRoute {
  import opened Common
  import opened Json
  import opened Bearer
  import opened Pricing
  import opened CheckoutSession

  const MissingBearerText: string := "Missing Authorization: Bearer <access_token>"
  const MissingPriceText: string := "No Stripe price found for this option. Check env vars."

  /** `await req.json().catch(() => ({}))`: an unparsable body reads as `{}`. */
  function RequestBody(body: Option<Json>): Json
  {
    if body.Some? then body.value else JObj(map[])
  }

  /** The 400 answer naming the accepted values. */
  function InvalidPayload(): JsonResponse
  {
    JsonResponse(400, JObj(map[
      "error" := JStr("Invalid payload"),
      "expected" := JObj(map["plan" := JStr("talent|networking|bundle"), "billing" := JStr("monthly|yearly|lifetime")])]))
  }

  /** The 500 answer naming the unset price variable. */
  function MissingPrice(key: string): JsonResponse
  {
    JsonResponse(500, JObj(map["error" := JStr(MissingPriceText), "missing_env" := JStr(key)]))
  }

  /** `origin || NEXT_PUBLIC_APP_URL || "http://localhost:3000"`. */
  function CheckoutOrigin(env: Env, origin: Option<string>): (o: string)
    ensures Truthy(origin) ==> o == origin.value
    ensures !Truthy(origin) && Truthy(EnvGet(env, "NEXT_PUBLIC_APP_URL")) ==> o == env["NEXT_PUBLIC_APP_URL"]
    ensures !Truthy(origin) && !Truthy(EnvGet(env, "NEXT_PUBLIC_APP_URL")) ==> o == "http://localhost:3000"
  {
    OrElse(origin, OrElse(EnvGet(env, "NEXT_PUBLIC_APP_URL"), "http://localhost:3000"))
  }

  /** The route up to the Stripe call. `auth` is the verdict of
      `auth.getUser()` on the bearer token. */
  function Decide(env: Env, authorization: Option<string>, origin: Option<string>, body: Option<Json>, auth: AuthResult): (d: Outcome)
    ensures d.Respond? ==> d.response.status in {400, 401, 500}
  {
    var token := GetBearerToken(authorization);
    var plan := ParsePlan(StringMember(RequestBody(body), "plan"));
    var billing := ParseBilling(StringMember(RequestBody(body), "billing"));
    if token.None? then Respond(JsonResponse(401, ErrorObject(MissingBearerText, None)))
    else if plan.None? || billing.None? then Respond(InvalidPayload())
    else
      var priceId := GetPriceId(env, plan.value, billing.value);
      if !Truthy(priceId) then Respond(MissingPrice(PriceKey(plan.value, billing.value)))
      else if !Truthy(EnvGet(env, "NEXT_PUBLIC_SUPABASE_URL")) then Respond(ServerError("Missing env: NEXT_PUBLIC_SUPABASE_URL"))
      else if !Truthy(EnvGet(env, "NEXT_PUBLIC_SUPABASE_ANON_KEY")) then Respond(ServerError("Missing env: NEXT_PUBLIC_SUPABASE_ANON_KEY"))
      else if auth.AuthFailed? then Respond(JsonResponse(401, ErrorObject("Invalid access token", auth.message)))
      else if !Truthy(EnvGet(env, "STRIPE_SECRET_KEY")) then Respond(ServerError("Missing env: STRIPE_SECRET_KEY"))
      else
        var o := CheckoutOrigin(env, origin);
        var mode := ModeFor(billing.value);
        Create(SessionParams(
          mode,
          [LineItem(priceId.value, 1)],
          SuccessUrl(o, plan.value, billing.value),
          CancelUrl(o, plan.value),
          auth.user.id,
          SessionMetadata(auth.user.id, plan.value, billing.value),
          if mode == "payment" then Some("always") else None,
          None))
  }

  /** `POST`. `created` is the outcome of `checkout.sessions.create`; `sent`
      is the request the route makes to Stripe, if any. */
  method Post(env: Env, authorization: Option<string>, origin: Option<string>, body: Option<Json>,
              auth: AuthResult, created: Try<Option<string>>)
    returns (sent: Option<SessionParams>, response: JsonResponse)
    ensures var d := Decide(env, authorization, origin, body, auth);
      && (d.Respond? ==> sent == None && response == d.response)
      && (d.Create? ==> sent == Some(d.params) && response == Finish(d, created))
  {
    sent := None;
    var token := GetBearerToken(authorization);
    if token.None? {
      return sent, JsonResponse(401, ErrorObject(MissingBearerText, None));
    }
    var json := RequestBody(body);
    var plan := ParsePlan(StringMember(json, "plan"));
    var billing := ParseBilling(StringMember(json, "billing"));
    if plan.None? || billing.None? {
      return sent, InvalidPayload();
    }
    var priceId := GetPriceId(env, plan.value, billing.value);
    if !Truthy(priceId) {
      return sent, MissingPrice(PriceKey(plan.value, billing.value));
    }
    if !Truthy(EnvGet(env, "NEXT_PUBLIC_SUPABASE_URL")) {
      return sent, ServerError("Missing env: NEXT_PUBLIC_SUPABASE_URL");
    }
    if !Truthy(EnvGet(env, "NEXT_PUBLIC_SUPABASE_ANON_KEY")) {
      return sent, ServerError("Missing env: NEXT_PUBLIC_SUPABASE_ANON_KEY");
    }
    if auth.AuthFailed? {
      return sent, JsonResponse(401, ErrorObject("Invalid access token", auth.message));
    }
    if !Truthy(EnvGet(env, "STRIPE_SECRET_KEY")) {
      return sent, ServerError("Missing env: STRIPE_SECRET_KEY");
    }
    var o := CheckoutOrigin(env, origin);
    var mode := ModeFor(billing.value);
    var params := SessionParams(mode, [LineItem(priceId.value, 1)], SuccessUrl(o, plan.value, billing.value),
                                CancelUrl(o, plan.value), auth.user.id,
                                SessionMetadata(auth.user.id, plan.value, billing.value), None, None);
    if mode == "payment" {
      params := params.(customerCreation := Some("always"));
    }
    sent := Some(params);
    response := Finish(Create(params), created);
  }

  // ---------------------------------------------------------------------
  // Properties of the decision
  // ---------------------------------------------------------------------

  /** Without a bearer token the answer is 401, whatever the body, the
      environment and the identity provider would say. */
  lemma MissingTokenFirst(env: Env, authorization: Option<string>, origin: Option<string>, body: Option<Json>, auth: AuthResult)
    requires GetBearerToken(authorization).None?
    ensures Decide(env, authorization, origin, body, auth) == Respond(JsonResponse(401, ErrorObject(MissingBearerText, None)))
  {
  }

  /** An invalid plan or billing is answered 400 before the price is looked
      up and before the caller is authenticated: the answer does not depend
      on the environment or on the identity provider. */
  lemma InvalidPayloadBeforePriceAndAuth(env: Env, env': Env, authorization: Option<string>, origin: Option<string>,
                                         body: Option<Json>, auth: AuthResult, auth': AuthResult)
    requires GetBearerToken(authorization).Some?
    requires ParsePlan(StringMember(RequestBody(body), "plan")).None?
             || ParseBilling(StringMember(RequestBody(body), "billing")).None?
    ensures Decide(env, authorization, origin, body, auth) == Respond(InvalidPayload())
    ensures Decide(env, authorization, origin, body, auth) == Decide(env', authorization, origin, body, auth')
  {
  }

  /** A valid option whose price variable is unset (or empty) is answered
      500 naming `STRIPE_PRICE_<PLAN>_<BILLING>`, before authentication. */
  lemma MissingPriceNamesVariable(env: Env, authorization: Option<string>, origin: Option<string>, body: Option<Json>,
                                  auth: AuthResult, p: Plan, b: Billing)
    requires GetBearerToken(authorization).Some?
    requires StringMember(RequestBody(body), "plan") == Some(PlanName(p))
    requires StringMember(RequestBody(body), "billing") == Some(BillingName(b))
    requires !Truthy(GetPriceId(env, p, b))
    ensures Decide(env, authorization, origin, body, auth) == Respond(MissingPrice(PriceKey(p, b)))
  {
  }

  /** The identity provider's refusal is the answer exactly when the token,
      the option, its price and the Supabase environment all passed. */
  lemma AuthCheckedAfterValidation(env: Env, authorization: Option<string>, origin: Option<string>, body: Option<Json>,
                                   auth: AuthResult)
    ensures var d := Decide(env, authorization, origin, body, auth);
      var plan := ParsePlan(StringMember(RequestBody(body), "plan"));
      var billing := ParseBilling(StringMember(RequestBody(body), "billing"));
      (d.Respond? && d.response.status == 401 && StringMember(d.response.body, "error") == Some("Invalid access token"))
      <==>
      (&& GetBearerToken(authorization).Some? && plan.Some? && billing.Some?
       && Truthy(GetPriceId(env, plan.value, billing.value))
       && Truthy(EnvGet(env, "NEXT_PUBLIC_SUPABASE_URL")) && Truthy(EnvGet(env, "NEXT_PUBLIC_SUPABASE_ANON_KEY"))
       && auth.AuthFailed?)
  {
    var d := Decide(env, authorization, origin, body, auth);
    if GetBearerToken(authorization).None? {
      assert StringMember(d.response.body, "error") == Some(MissingBearerText);
    }
  }

  /** The session the route asks for: one line item of quantity 1 with the
      configured price, the metadata and client reference the webhooks read
      back, payment mode exactly for lifetime access with a customer always
      created then, and the two URLs on the resolved origin. */
  lemma SessionShape(env: Env, authorization: Option<string>, origin: Option<string>, body: Option<Json>, auth: AuthResult)
    requires Decide(env, authorization, origin, body, auth).Create?
    ensures var s := Decide(env, authorization, origin, body, auth).params;
      var plan := ParsePlan(StringMember(RequestBody(body), "plan"));
      var billing := ParseBilling(StringMember(RequestBody(body), "billing"));
      var o := CheckoutOrigin(env, origin);
      && plan.Some? && billing.Some? && auth.Authenticated?
      && (s.mode == "payment" <==> billing.value == Lifetime)
      && (s.customerCreation == Some("always") <==> s.mode == "payment")
      && (s.customerCreation.None? <==> s.mode == "subscription")
      && s.lineItems == [LineItem(GetPriceId(env, plan.value, billing.value).value, 1)]
      && s.clientReferenceId == auth.user.id
      && s.metadata == map["supabase_user_id" := auth.user.id, "plan" := PlanName(plan.value), "billing" := BillingName(billing.value)]
      && s.successUrl == o + "/success?plan=" + PlanName(plan.value) + "&billing=" + BillingName(billing.value)
                         + "&session_id={CHECKOUT_SESSION_ID}"
      && s.cancelUrl == o + "/upgrade?plan=" + PlanName(plan.value)
      && s.customerEmail.None?
  {
  }
}
