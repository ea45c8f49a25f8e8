/** `POST /api/stripe/create-checkout-session`: the newer checkout route. It
    authenticates first (including a check that the token was issued by the
    configured Supabase project), validates the option afterwards, and takes
    the price from a fixed table instead of the environment. The route is a
    chain of early answers, modelled as one function; `Route` adds the
    Stripe call's outcome. */
module CreateCheckoutSession {
  import opened Common
  import opened Json
  import opened Strings
  import opened Bearer
  import opened CheckoutSession

  const DefaultOrigin: string := "https://app.contactful.app"

  /** `getOrigin`: the Origin header, else `https://<Host>`, else the
      production app. */
  function GetOrigin(origin: Option<string>, host: Option<string>): (o: string)
    ensures Truthy(origin) ==> o == origin.value
    ensures !Truthy(origin) && Truthy(host) ==> o == "https://" + host.value
    ensures !Truthy(origin) && !Truthy(host) ==> o == DefaultOrigin
  {
    if Truthy(origin) then origin.value
    else if Truthy(host) then "https://" + host.value
    else DefaultOrigin
  }

  /** `decodeJwtIss`: a JWS in compact serialisation (section 7.1 of
      RFC 7515) has exactly three dot-separated parts; only then is the
      middle part decoded and its `iss` claim (section 4.1.1 of RFC 7519)
      read. `decodedIss` is what base64 and JSON decoding of that part yield
      for `iss` (None when decoding fails or the claim is absent). */
  function DecodeJwtIss(token: string, decodedIss: Option<string>): (iss: Option<string>)
    ensures |Split(token, '.')| != 3 ==> iss.None?
    ensures iss.Some? <==> |Split(token, '.')| == 3 && Truthy(decodedIss)
    ensures iss.Some? ==> iss == decodedIss
  {
    if |Split(token, '.')| != 3 then None else NullIfFalsy(decodedIss)
  }

  /** The issuer is read exactly when the token holds two dots and the
      decoded claim is truthy. */
  lemma IssNeedsTwoDots(token: string, decodedIss: Option<string>)
    ensures DecodeJwtIss(token, decodedIss).Some? <==> Count(token, '.') == 2 && Truthy(decodedIss)
  {
    SplitCount(token, '.');
  }

  /** `PRICE`: the Stripe price of every option. */
  function Price(p: Plan, b: Billing): (id: string)
    ensures "price_" <= id
  {
    match p
    case Talent => (match b
      case Monthly => "price_1SfdoWIdbjQOuR384OgsmIhb"
      case Yearly => "price_1SfdoDIdbjQOuR38HRjXwSj6"
      case Lifetime => "price_1Sfdr0IdbjQOuR386PuEls8s")
    case Networking => (match b
      case Monthly => "price_1SfdpMIdbjQOuR38H1uuQROL"
      case Yearly => "price_1SfdpeIdbjQOuR38CX8v1Seu"
      case Lifetime => "price_1SfdrXIdbjQOuR38pSoRBmpz")
    case Bundle => (match b
      case Monthly => "price_1Sfdq7IdbjQOuR388sb3jl3t"
      case Yearly => "price_1SfdqNIdbjQOuR389i9gXzwx"
      case Lifetime => "price_1Sfds3IdbjQOuR381hIQVvhJ")
  }

  /** The table is total with non-empty ids, and no two options share a
      price. */
  lemma PriceTableTotalAndDistinct(p1: Plan, b1: Billing, p2: Plan, b2: Billing)
    ensures Price(p1, b1) != ""
    ensures Price(p1, b1) == Price(p2, b2) ==> p1 == p2 && b1 == b2
  {
  }

  const MissingBearerText: string := "Missing Authorization: Bearer <access_token>"
  const MismatchText: string := "Invalid access token (project mismatch)"
  const MismatchHint: string := "Frontend logged into a different Supabase project than backend env vars in Vercel."

  /** The issuer names another Supabase project than the configured URL's
      host. */
  predicate ProjectMismatch(iss: Option<string>, envHost: Option<string>)
  {
    Truthy(iss) && Truthy(envHost) && !Contains(iss.value, envHost.value)
  }

  /** `getHostFromUrl(process.env.NEXT_PUBLIC_SUPABASE_URL)`. An unset or
      empty variable makes `new URL("")` throw, so the host is null;
      otherwise `urlHost` is what parsing the configured text yields (None
      when it throws). */
  function EnvHost(env: Env, urlHost: Option<string>): (h: Option<string>)
    ensures !Truthy(EnvGet(env, "NEXT_PUBLIC_SUPABASE_URL")) ==> h.None?
    ensures Truthy(EnvGet(env, "NEXT_PUBLIC_SUPABASE_URL")) ==> h == urlHost
  {
    if Truthy(EnvGet(env, "NEXT_PUBLIC_SUPABASE_URL")) then urlHost else None
  }

  function RequestBody(body: Option<Json>): Json
  {
    if body.Some? then body.value else JObj(map[])
  }

  /** The route up to the Stripe call. `decodedIss` stands for the decoded
      token payload's `iss`, `urlHost` for the host `new URL` finds in the
      configured Supabase URL, and `auth` for `auth.getUser(token)`. */
  function Decide(env: Env, authorization: Option<string>, origin: Option<string>, host: Option<string>,
                  decodedIss: Option<string>, urlHost: Option<string>, auth: AuthResult, body: Option<Json>): (d: Outcome)
    ensures d.Respond? ==> d.response.status in {400, 401, 500}
  {
    var token := GetBearerToken(authorization);
    if token.None? then Respond(JsonResponse(401, ErrorObject(MissingBearerText, None)))
    else
      var iss := DecodeJwtIss(token.value, decodedIss);
      var envHost := EnvHost(env, urlHost);
      if ProjectMismatch(iss, envHost) then
        Respond(JsonResponse(401, JObj(map["error" := JStr(MismatchText), "token_iss" := JStr(iss.value),
                                           "env_supabase_url_host" := JStr(envHost.value), "hint" := JStr(MismatchHint)])))
      else
        var urlSet := Truthy(EnvGet(env, "NEXT_PUBLIC_SUPABASE_URL"));
        var roleSet := Truthy(EnvGet(env, "SUPABASE_SERVICE_ROLE_KEY"));
        if !urlSet || !roleSet then
          Respond(JsonResponse(500, JObj(map["error" := JStr("Missing Supabase env vars"),
                                             "missing" := JObj(map["NEXT_PUBLIC_SUPABASE_URL" := JBool(!urlSet),
                                                                   "SUPABASE_SERVICE_ROLE_KEY" := JBool(!roleSet)])])))
        else if auth.AuthFailed? then
          Respond(JsonResponse(401, ErrorObject("Invalid access token", Some(OrElse(auth.message, "No user returned")))))
        else
          var plan := ParsePlan(StringMember(RequestBody(body), "plan"));
          var billing := ParseBilling(StringMember(RequestBody(body), "billing"));
          if plan.None? then Respond(JsonResponse(400, ErrorObject("Invalid plan", None)))
          else if billing.None? then Respond(JsonResponse(400, ErrorObject("Invalid billing", None)))
          else if Price(plan.value, billing.value) == "" then Respond(JsonResponse(400, ErrorObject("Price not configured", None)))
          else if !Truthy(EnvGet(env, "STRIPE_SECRET_KEY")) then Respond(JsonResponse(500, ErrorObject("Missing STRIPE_SECRET_KEY", None)))
          else
            var o := GetOrigin(origin, host);
            Create(SessionParams(
              ModeFor(billing.value),
              [LineItem(Price(plan.value, billing.value), 1)],
              SuccessUrl(o, plan.value, billing.value),
              CancelUrl(o, plan.value),
              auth.user.id,
              SessionMetadata(auth.user.id, plan.value, billing.value),
              None,
              NullIfFalsy(auth.user.email)))
  }

  /** `POST`: the decision completed with the outcome of
      `checkout.sessions.create`. */
  function Route(env: Env, authorization: Option<string>, origin: Option<string>, host: Option<string>,
                 decodedIss: Option<string>, urlHost: Option<string>, auth: AuthResult, body: Option<Json>,
                 created: Try<Option<string>>): (r: JsonResponse)
    ensures var d := Decide(env, authorization, origin, host, decodedIss, urlHost, auth, body);
      && (d.Respond? ==> r == d.response)
      && (d.Create? && created.Threw? ==> r == ServerError(created.message))
      && (d.Create? && created.Returned? ==>
            r.status == 200 && Member(r.body, "url") == Some(if created.value.Some? then JStr(created.value.value) else JNull))
  {
    Finish(Decide(env, authorization, origin, host, decodedIss, urlHost, auth, body), created)
  }

  // ---------------------------------------------------------------------
  // Properties of the decision
  // ---------------------------------------------------------------------

  /** The order of the early answers: no bearer token (401), then a token of
      another project (401), then missing Supabase configuration (500), then
      an unknown user (401), then an invalid plan and an invalid billing
      (400 each). Each fires exactly when every earlier check passed. */
  lemma CheckOrder(env: Env, authorization: Option<string>, origin: Option<string>, host: Option<string>,
                   decodedIss: Option<string>, urlHost: Option<string>, auth: AuthResult, body: Option<Json>)
    ensures var d := Decide(env, authorization, origin, host, decodedIss, urlHost, auth, body);
      var token := GetBearerToken(authorization);
      var mismatch := token.Some? && ProjectMismatch(DecodeJwtIss(token.value, decodedIss), EnvHost(env, urlHost));
      var envOk := Truthy(EnvGet(env, "NEXT_PUBLIC_SUPABASE_URL")) && Truthy(EnvGet(env, "SUPABASE_SERVICE_ROLE_KEY"));
      var plan := ParsePlan(StringMember(RequestBody(body), "plan"));
      var billing := ParseBilling(StringMember(RequestBody(body), "billing"));
      && (token.None? <==> d == Respond(JsonResponse(401, ErrorObject(MissingBearerText, None))))
      && (d.Respond? && StringMember(d.response.body, "error") == Some(MismatchText) <==> mismatch)
      && (d.Respond? && StringMember(d.response.body, "error") == Some("Missing Supabase env vars")
          <==> token.Some? && !mismatch && !envOk)
      && (d.Respond? && StringMember(d.response.body, "error") == Some("Invalid access token")
          <==> token.Some? && !mismatch && envOk && auth.AuthFailed?)
      && (d == Respond(JsonResponse(400, ErrorObject("Invalid plan", None)))
          <==> token.Some? && !mismatch && envOk && auth.Authenticated? && plan.None?)
      && (d == Respond(JsonResponse(400, ErrorObject("Invalid billing", None)))
          <==> token.Some? && !mismatch && envOk && auth.Authenticated? && plan.Some? && billing.None?)
  {
    var d := Decide(env, authorization, origin, host, decodedIss, urlHost, auth, body);
    var token := GetBearerToken(authorization);
    if token.Some? {
      var iss := DecodeJwtIss(token.value, decodedIss);
      if ProjectMismatch(iss, EnvHost(env, urlHost)) {
        assert StringMember(d.response.body, "error") == Some(MismatchText);
      }
    }
  }

  /** The project-mismatch answer fires only when both the issuer and the
      configured host are known and the issuer does not contain the host; a
      token that is not a three-part JWS, or an unset Supabase URL, never
      triggers it. */
  lemma MismatchNeedsBothSides(env: Env, token: string, decodedIss: Option<string>, urlHost: Option<string>)
    requires ProjectMismatch(DecodeJwtIss(token, decodedIss), EnvHost(env, urlHost))
    ensures |Split(token, '.')| == 3
    ensures Truthy(EnvGet(env, "NEXT_PUBLIC_SUPABASE_URL"))
    ensures Truthy(decodedIss) && Truthy(urlHost)
    ensures !exists i :: OccursAt(decodedIss.value, urlHost.value, i)
  {
    ContainsIffOccurs(decodedIss.value, urlHost.value);
  }

  /** "Price not configured" is never the answer: the table has a non-empty
      price for every valid option. */
  lemma PriceNotConfiguredUnreachable(env: Env, authorization: Option<string>, origin: Option<string>, host: Option<string>,
                                      decodedIss: Option<string>, urlHost: Option<string>, auth: AuthResult, body: Option<Json>)
    ensures Decide(env, authorization, origin, host, decodedIss, urlHost, auth, body)
            != Respond(JsonResponse(400, ErrorObject("Price not configured", None)))
  {
    var d := Decide(env, authorization, origin, host, decodedIss, urlHost, auth, body);
    var plan := ParsePlan(StringMember(RequestBody(body), "plan"));
    var billing := ParseBilling(StringMember(RequestBody(body), "billing"));
    if plan.Some? && billing.Some? {
      PriceTableTotalAndDistinct(plan.value, billing.value, plan.value, billing.value);
    }
    if d.Respond? && d.response.status == 400 {
      assert StringMember(d.response.body, "error") != Some("Price not configured");
    }
  }

  /** The session the route asks for: payment mode exactly for lifetime
      access, one line item of quantity 1 with the table's price, the
      metadata and client reference the webhooks read back, the URLs on
      `getOrigin`, and the user's email when it has one. */
  lemma SessionShape(env: Env, authorization: Option<string>, origin: Option<string>, host: Option<string>,
                     decodedIss: Option<string>, urlHost: Option<string>, auth: AuthResult, body: Option<Json>)
    requires Decide(env, authorization, origin, host, decodedIss, urlHost, auth, body).Create?
    ensures var s := Decide(env, authorization, origin, host, decodedIss, urlHost, auth, body).params;
      var plan := ParsePlan(StringMember(RequestBody(body), "plan"));
      var billing := ParseBilling(StringMember(RequestBody(body), "billing"));
      var o := GetOrigin(origin, host);
      && plan.Some? && billing.Some? && auth.Authenticated?
      && (s.mode == "payment" <==> billing.value == Lifetime)
      && s.lineItems == [LineItem(Price(plan.value, billing.value), 1)]
      && s.clientReferenceId == auth.user.id
      && s.metadata == map["supabase_user_id" := auth.user.id, "plan" := PlanName(plan.value), "billing" := BillingName(billing.value)]
      && s.successUrl == o + "/success?plan=" + PlanName(plan.value) + "&billing=" + BillingName(billing.value)
                         + "&session_id={CHECKOUT_SESSION_ID}"
      && s.cancelUrl == o + "/upgrade?plan=" + PlanName(plan.value)
      && s.customerCreation.None?
      && s.customerEmail == NullIfFalsy(auth.user.email)
  {
  }
}
