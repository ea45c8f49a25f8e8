/** `POST /api/stripe/portal`: opens a Stripe Billing Portal session for the
    signed-in user. The route finds the user's Stripe customer id on their
    latest subscription row, retrying with the legacy owner column when the
    current one does not exist, and refuses when there is none. */
module PortalRoute {
  import opened Common
  import opened Json
  import EntitlementsRoute

  /** One row of the selection `stripe_customer_id`, with the period end the
      query orders by. */
  datatype CustomerRow = CustomerRow(customerId: Option<string>, periodEnd: Option<int>)

  /** `a` sorts no later than `b` under `ORDER BY current_period_end DESC`,
      where Postgres places NULLs first in a descending order. */
  predicate SortsBefore(a: CustomerRow, b: CustomerRow)
  {
    a.periodEnd.None? || (b.periodEnd.Some? && a.periodEnd.value >= b.periodEnd.value)
  }

  /** The row `.order("current_period_end", { ascending: false }).limit(1)`
      returns from the rows matching the owner filter: one that sorts no
      later than any other (among ties, the first in `rows`), or none when
      nothing matches. */
  function Latest(rows: seq<CustomerRow>): (top: Option<CustomerRow>)
    ensures top.None? <==> rows == []
    ensures top.Some? ==> top.value in rows && forall r :: r in rows ==> SortsBefore(top.value, r)
  {
    if rows == [] then None
    else
      var rest := Latest(rows[1..]);
      assert forall r :: r in rows ==> r == rows[0] || r in rows[1..];
      if rest.None? || SortsBefore(rows[0], rest.value) then Some(rows[0]) else rest
  }

  /** `q.data?.[0]?.stripe_customer_id ?? null`: an error (whose `data` is
      null) or an empty result reads as null. */
  function CustomerOf(q: QueryResult<CustomerRow>): (cust: Option<string>)
    ensures q.QueryError? ==> cust.None?
    ensures q.Rows? && q.rows == [] ==> cust.None?
    ensures q.Rows? && q.rows != [] ==> cust == Latest(q.rows).value.customerId
  {
    if q.QueryError? then None
    else
      var top := Latest(q.rows);
      if top.None? then None else top.value.customerId
  }

  /** The parameters of `billingPortal.sessions.create`. */
  datatype PortalParams = PortalParams(customer: string, returnUrl: string)

  const MissingCustomerText: string := "Missing stripe_customer_id on subscriptions for this user"

  /** `POST(req)`. The identity provider's verdict on the session cookies,
      the results of the two queries, the request URL's origin and the
      outcome of `billingPortal.sessions.create` (the session's `url`) are
      inputs. `queried` lists the owner columns the route filtered on, in
      order; `sent` is the portal request made to Stripe, if any. */
  method Post(env: Env, auth: AuthResult, q1: QueryResult<CustomerRow>, q2: QueryResult<CustomerRow>,
              origin: string, created: Try<Option<string>>)
    returns (queried: seq<OwnerColumn>, sent: Option<PortalParams>, response: JsonResponse)
    // configuration is checked first, the Stripe key before the Supabase variables
    ensures !Truthy(EnvGet(env, "STRIPE_SECRET_KEY")) ==>
      response == JsonResponse(500, ErrorObject("Server error", Some("Missing env: STRIPE_SECRET_KEY")))
    ensures Truthy(EnvGet(env, "STRIPE_SECRET_KEY")) && !Truthy(EnvGet(env, "NEXT_PUBLIC_SUPABASE_URL")) ==>
      response == JsonResponse(500, ErrorObject("Server error", Some("Missing env: NEXT_PUBLIC_SUPABASE_URL")))
    ensures Truthy(EnvGet(env, "STRIPE_SECRET_KEY")) && Truthy(EnvGet(env, "NEXT_PUBLIC_SUPABASE_URL"))
            && !Truthy(EnvGet(env, "NEXT_PUBLIC_SUPABASE_ANON_KEY")) ==>
      response == JsonResponse(500, ErrorObject("Server error", Some("Missing env: NEXT_PUBLIC_SUPABASE_ANON_KEY")))
    ensures !(Truthy(EnvGet(env, "STRIPE_SECRET_KEY")) && EntitlementsRoute.EnvReady(env)) ==>
      response.status == 500 && queried == [] && sent.None?
    // then the session cookie
    ensures Truthy(EnvGet(env, "STRIPE_SECRET_KEY")) && EntitlementsRoute.EnvReady(env) && auth.AuthFailed? ==>
      && queried == [] && sent.None?
      && response == JsonResponse(401, ErrorObject("Not authenticated", Some(OrElse(auth.message, "Auth session missing"))))
    // the legacy owner column is queried only after the missing-column error
    ensures Truthy(EnvGet(env, "STRIPE_SECRET_KEY")) && EntitlementsRoute.EnvReady(env) && auth.Authenticated? ==>
      var cust := if EntitlementsRoute.NeedsFallback(q1) then CustomerOf(q2) else CustomerOf(q1);
      && queried == (if EntitlementsRoute.NeedsFallback(q1) then [SupabaseUserIdColumn, UserIdColumn]
                     else [SupabaseUserIdColumn])
      // no customer id on the latest row, or any other query error: 400
      && (!Truthy(cust) ==> sent.None? && response == JsonResponse(400, ErrorObject(MissingCustomerText, None)))
      // otherwise the portal returns to the app's root
      && (Truthy(cust) ==>
            && sent == Some(PortalParams(cust.value, origin + "/"))
            && response == (match created
                            case Returned(url) => JsonResponse(200, JObj(map["url" := if url.Some? then JStr(url.value) else JNull]))
                            case Threw(message) => JsonResponse(500, ErrorObject("Server error", Some(message)))))
  {
    queried := [];
    sent := None;
    if !Truthy(EnvGet(env, "STRIPE_SECRET_KEY")) {
      return queried, sent, JsonResponse(500, ErrorObject("Server error", Some("Missing env: STRIPE_SECRET_KEY")));
    }
    if !Truthy(EnvGet(env, "NEXT_PUBLIC_SUPABASE_URL")) {
      return queried, sent, JsonResponse(500, ErrorObject("Server error", Some("Missing env: NEXT_PUBLIC_SUPABASE_URL")));
    }
    if !Truthy(EnvGet(env, "NEXT_PUBLIC_SUPABASE_ANON_KEY")) {
      return queried, sent, JsonResponse(500, ErrorObject("Server error", Some("Missing env: NEXT_PUBLIC_SUPABASE_ANON_KEY")));
    }

    if auth.AuthFailed? {
      var details := OrElse(auth.message, "Auth session missing");
      return queried, sent, JsonResponse(401, ErrorObject("Not authenticated", Some(details)));
    }

    var cust: Option<string> := None;
    queried := [SupabaseUserIdColumn];
    if q1.Rows? {
      cust := CustomerOf(q1);
    } else if EntitlementsRoute.IsMissingColumnError(q1.message, "supabase_user_id") {
      queried := queried + [UserIdColumn];
      cust := CustomerOf(q2);
    }

    if !Truthy(cust) {
      return queried, sent, JsonResponse(400, ErrorObject(MissingCustomerText, None));
    }

    sent := Some(PortalParams(cust.value, origin + "/"));
    match created {
      case Returned(url) =>
        response := JsonResponse(200, JObj(map["url" := if url.Some? then JStr(url.value) else JNull]));
      case Threw(message) =>
        response := JsonResponse(500, ErrorObject("Server error", Some(message)));
    }
  }

  // ---------------------------------------------------------------------
  // Properties of the customer lookup
  // ---------------------------------------------------------------------

  /** A row without a period end (a lifetime purchase, say) sorts first, so
      when the user has one the route reads the customer id from such a row
      and never from a dated subscription. */
  lemma UndatedRowWins(rows: seq<CustomerRow>, r: CustomerRow)
    requires r in rows && r.periodEnd.None?
    ensures Latest(rows).Some? && Latest(rows).value.periodEnd.None?
  {
  }

  /** Among dated rows only, the route reads the row with the greatest
      period end. */
  lemma LatestDatedRow(rows: seq<CustomerRow>)
    requires rows != [] && forall r :: r in rows ==> r.periodEnd.Some?
    ensures var top := Latest(rows).value;
      top.periodEnd.Some? && forall r :: r in rows ==> r.periodEnd.value <= top.periodEnd.value
  {
  }

  /** Only the latest row is read: a user whose latest row lacks a customer
      id is refused even when an older row has one. */
  lemma OlderCustomerIgnored(latest: CustomerRow, older: CustomerRow)
    requires latest.periodEnd.Some? && older.periodEnd.Some? && older.periodEnd.value < latest.periodEnd.value
    requires latest.customerId.None? && older.customerId.Some?
    ensures CustomerOf(Rows([older, latest])).None?
  {
    assert Latest([latest]) == Some(latest);
  }

  /** The order of the matching rows does not change which period end the
      route reads: any two rows it could pick sort together. */
  lemma LatestIsMaximal(a: seq<CustomerRow>, b: seq<CustomerRow>)
    requires forall r :: r in a <==> r in b
    requires a != []
    ensures SortsBefore(Latest(a).value, Latest(b).value) && SortsBefore(Latest(b).value, Latest(a).value)
  {
  }
}
