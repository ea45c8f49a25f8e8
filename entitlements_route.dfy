/** `GET /api/me/entitlements`: identify the caller (bearer token or session
    cookies), read their subscription rows, tolerating the rename of the owner
    column, and reduce the rows to three capability flags under the rule that a
    bundle grants everything. Every response carries CORS headers that echo the
    caller's origin, because the browser extension calls with credentials. */
module EntitlementsRoute {
  import opened Common
  import opened Strings
  import Bearer

  /** One row of the selection `plan,billing,status,current_period_end`. The
      columns are text; the period end is kept as the instant it denotes. */
  datatype SubRow = SubRow(plan: string, billing: string, status: string, currentPeriodEnd: Option<int>)

  /** The three capability flags of the response. */
  datatype Entitlements = Entitlements(networking: bool, talent: bool, bundle: bool)

  /** A row that the reduction counts for `plan`. */
  predicate GrantsPlan(r: SubRow, plan: string)
  {
    r.status == "active" && r.plan == plan
  }

  /** `rows.filter(r => r.status === "active")`, order kept. */
  function ActiveRows(rows: seq<SubRow>): (active: seq<SubRow>)
    ensures |active| <= |rows|
    ensures forall r :: r in active <==> r in rows && r.status == "active"
  {
    if rows == [] then []
    else if rows[0].status == "active" then [rows[0]] + ActiveRows(rows[1..])
    else ActiveRows(rows[1..])
  }

  /** `rows.some(r => r.plan === plan)`. */
  function SomePlan(rows: seq<SubRow>, plan: string): bool
  {
    if rows == [] then false else rows[0].plan == plan || SomePlan(rows[1..], plan)
  }

  lemma {:induction false} SomePlanMeaning(rows: seq<SubRow>, plan: string)
    ensures SomePlan(rows, plan) <==> exists r :: r in rows && r.plan == plan
  {
    if rows != [] {
      SomePlanMeaning(rows[1..], plan);
      assert forall r :: r in rows <==> r == rows[0] || r in rows[1..];
    }
  }

  /** The reduction of lines 157-165: filter the active rows, then look for
      each plan among them, a bundle implying the two single packs. */
  function Reduce(rows: seq<SubRow>): (e: Entitlements)
    ensures e.bundle ==> e.networking && e.talent
  {
    var active := ActiveRows(rows);
    var hasBundle := SomePlan(active, "bundle");
    Entitlements(
      hasBundle || SomePlan(active, "networking"),
      hasBundle || SomePlan(active, "talent"),
      hasBundle)
  }

  /** What the flags mean: bundle iff some active bundle row; each single pack
      iff bundle or some active row of that pack. Billing, period end and row
      order play no part. */
  lemma ReduceMeaning(rows: seq<SubRow>)
    ensures Reduce(rows).bundle <==> exists r :: r in rows && GrantsPlan(r, "bundle")
    ensures Reduce(rows).networking <==>
      Reduce(rows).bundle || exists r :: r in rows && GrantsPlan(r, "networking")
    ensures Reduce(rows).talent <==>
      Reduce(rows).bundle || exists r :: r in rows && GrantsPlan(r, "talent")
  {
    var active := ActiveRows(rows);
    SomePlanMeaning(active, "bundle");
    SomePlanMeaning(active, "networking");
    SomePlanMeaning(active, "talent");
  }

  /** The flags depend only on which rows occur: reordering or duplicating
      rows changes nothing. */
  lemma ReduceIgnoresOrderAndDuplicates(a: seq<SubRow>, b: seq<SubRow>)
    requires forall r :: r in a <==> r in b
    ensures Reduce(a) == Reduce(b)
  {
    ReduceMeaning(a);
    ReduceMeaning(b);
  }

  /** More rows never take a flag away. */
  lemma ReduceMonotone(a: seq<SubRow>, extra: seq<SubRow>)
    ensures Reduce(a).bundle ==> Reduce(a + extra).bundle
    ensures Reduce(a).networking ==> Reduce(a + extra).networking
    ensures Reduce(a).talent ==> Reduce(a + extra).talent
  {
    ReduceMeaning(a);
    ReduceMeaning(a + extra);
  }

  /** Only the exact status "active" counts: rows with any other status
      ("lifetime", "trialing", "canceled", ...) grant nothing, whatever their
      period end. */
  lemma InactiveRowsGrantNothing(rows: seq<SubRow>)
    requires forall r :: r in rows ==> r.status != "active"
    ensures Reduce(rows) == Entitlements(false, false, false)
  {
    ReduceMeaning(rows);
  }

  /** Billing and current_period_end are ignored: rows that agree on plan and
      status give the same flags, even if one of them expired long ago. */
  lemma ReduceIgnoresBillingAndPeriodEnd(a: seq<SubRow>, b: seq<SubRow>)
    requires |a| == |b|
    requires forall i :: 0 <= i < |a| ==> a[i].plan == b[i].plan && a[i].status == b[i].status
    ensures Reduce(a) == Reduce(b)
  {
    ReduceMeaning(a);
    ReduceMeaning(b);
    forall p | p in ["bundle", "networking", "talent"]
      ensures (exists r :: r in a && GrantsPlan(r, p)) <==> (exists r :: r in b && GrantsPlan(r, p))
    {
      if r :| r in a && GrantsPlan(r, p) {
        var i :| 0 <= i < |a| && a[i] == r;
        assert b[i] in b && GrantsPlan(b[i], p);
      }
      if r :| r in b && GrantsPlan(r, p) {
        var i :| 0 <= i < |b| && b[i] == r;
        assert a[i] in a && GrantsPlan(a[i], p);
      }
    }
  }

  /** The text a store error carries when a filter names a column the table
      does not have. */
  function MissingColumnText(col: string): string
  {
    "column \"" + col + "\" does not exist"
  }

  /** `isMissingColumnError(err, col)`: the error's message (empty when
      absent) mentions that `col` does not exist. */
  function IsMissingColumnError(message: Option<string>, col: string): (b: bool)
    ensures b <==> exists i :: OccursAt(OrElse(message, ""), MissingColumnText(col), i)
  {
    ContainsIffOccurs(OrElse(message, ""), MissingColumnText(col));
    Contains(OrElse(message, ""), MissingColumnText(col))
  }

  const DefaultOrigin: string := "https://app.contactful.app"

  const AllowOrigin: string := "Access-Control-Allow-Origin"
  const AllowCredentials: string := "Access-Control-Allow-Credentials"
  const AllowMethods: string := "Access-Control-Allow-Methods"
  const AllowHeaders: string := "Access-Control-Allow-Headers"

  /** The headers `withCors` sets. The allowed origin is the request's Origin
      header, or the web app's origin when the header is absent or empty; it is
      never the wildcard unless the caller itself sent `*`, as the CORS
      protocol requires of a response that allows credentials (section 3.2 of
      the WHATWG Fetch Standard). */
  function CorsHeaders(origin: Option<string>): (h: map<string, string>)
    ensures h.Keys == {AllowOrigin, "Vary", AllowCredentials, AllowMethods, AllowHeaders}
    ensures h[AllowOrigin] == if Truthy(origin) then origin.value else DefaultOrigin
    ensures origin != Some("*") ==> h[AllowOrigin] != "*"
    ensures h[AllowCredentials] == "true"
    ensures h["Vary"] == "Origin"
  {
    map[AllowOrigin := OrElse(origin, DefaultOrigin),
        "Vary" := "Origin",
        AllowCredentials := "true",
        AllowMethods := "GET,OPTIONS",
        AllowHeaders := "authorization,content-type"]
  }

  /** JSON bodies of the route. */
  datatype Body =
    | NoBody
    | ErrorBody(error: string, details: Option<string>)
    | Granted(userId: string, entitlements: Entitlements, subscriptions: seq<SubRow>)

  /** A response under construction; `withCors` updates its headers in place. */
  class Response {
    var status: int
    var body: Body
    var headers: map<string, string>

    constructor (status: int, body: Body, headers: map<string, string>)
      ensures this.status == status && this.body == body && this.headers == headers
    {
      this.status := status;
      this.body := body;
      this.headers := headers;
    }

    /** `res.headers.set(name, value)`. */
    method SetHeader(name: string, value: string)
      modifies this
      ensures headers == old(headers)[name := value]
      ensures status == old(status) && body == old(body)
    {
      headers := headers[name := value];
    }
  }

  /** `withCors(res, req)`: adds the five CORS headers to `res`, leaving its
      status and body alone. */
  method WithCors(res: Response, origin: Option<string>)
    modifies res
    ensures res.headers == old(res.headers) + CorsHeaders(origin)
    ensures res.status == old(res.status) && res.body == old(res.body)
  {
    var allowed := if Truthy(origin) then origin.value else DefaultOrigin;
    res.SetHeader(AllowOrigin, allowed);
    res.SetHeader("Vary", "Origin");
    res.SetHeader(AllowCredentials, "true");
    res.SetHeader(AllowMethods, "GET,OPTIONS");
    res.SetHeader(AllowHeaders, "authorization,content-type");
    CorsMerge(old(res.headers), origin);
  }

  /** Setting the five headers one after another is merging `CorsHeaders`
      into what was there: later names overwrite, others are kept. */
  lemma CorsMerge(h: map<string, string>, origin: Option<string>)
    ensures h[AllowOrigin := if Truthy(origin) then origin.value else DefaultOrigin]["Vary" := "Origin"]
             [AllowCredentials := "true"][AllowMethods := "GET,OPTIONS"]
             [AllowHeaders := "authorization,content-type"]
            == h + CorsHeaders(origin)
  {
    var set1 := h[AllowOrigin := if Truthy(origin) then origin.value else DefaultOrigin]["Vary" := "Origin"]
                 [AllowCredentials := "true"][AllowMethods := "GET,OPTIONS"]
                 [AllowHeaders := "authorization,content-type"];
    var want := h + CorsHeaders(origin);
    assert set1.Keys == want.Keys;
    assert forall k | k in want :: set1[k] == want[k];
  }

  /** The header `NextResponse.json` sets on the response it builds. */
  const JsonHeaders: map<string, string> := map["content-type" := "application/json"]

  /** `withCors(NextResponse.json(body, { status }), req)`: a new response
      carrying the JSON content type and the CORS headers, and no other. */
  method Respond(status: int, body: Body, origin: Option<string>) returns (res: Response)
    ensures res.status == status && res.body == body
    ensures res.headers == JsonHeaders + CorsHeaders(origin)
    ensures res.headers.Keys == {"content-type"} + CorsHeaders(origin).Keys
    ensures res.headers["content-type"] == "application/json"
  {
    res := new Response(status, body, JsonHeaders);
    WithCors(res, origin);
  }

  /** The CORS preflight, `withCors(new NextResponse(null, { status: 204 }),
      req)`: 204, no body, and exactly the CORS headers. */
  method Options(origin: Option<string>) returns (res: Response)
    ensures res.status == 204 && res.body == NoBody
    ensures res.headers == CorsHeaders(origin)
  {
    res := new Response(204, NoBody, map[]);
    WithCors(res, origin);
    assert map[] + CorsHeaders(origin) == CorsHeaders(origin);
  }

  const SupabaseUrlVar: string := "NEXT_PUBLIC_SUPABASE_URL"
  const AnonKeyVar: string := "NEXT_PUBLIC_SUPABASE_ANON_KEY"

  /** Both `assertEnv` calls succeed. */
  predicate EnvReady(env: Env)
  {
    Truthy(EnvGet(env, SupabaseUrlVar)) && Truthy(EnvGet(env, AnonKeyVar))
  }

  /** The first query failed because the table has no `supabase_user_id`. */
  predicate NeedsFallback<T>(q1: QueryResult<T>)
  {
    q1.QueryError? && IsMissingColumnError(q1.message, "supabase_user_id")
  }

  /** The error text of a 401, which depends on whether a bearer token came. */
  function AuthErrorText(bearerPresent: bool): string
  {
    if bearerPresent then "Invalid access token"
    else "Not authenticated (no Bearer token and/or no valid auth cookies)"
  }

  /** `GET(req)`. The identity provider's verdict and the two queries' results
      are inputs; `queried` lists the owner columns the route filtered on, in
      order, so that which queries ran is part of the outcome. */
  method Get(env: Env, authorization: Option<string>, origin: Option<string>, auth: AuthResult,
             q1: QueryResult<SubRow>, q2: QueryResult<SubRow>)
    returns (res: Response, queried: seq<OwnerColumn>)
    ensures res.headers == JsonHeaders + CorsHeaders(origin)
    ensures res.status in {200, 401, 500}
    // configuration comes first, then authentication, both before any query
    ensures !EnvReady(env) ==>
      && res.status == 500 && queried == []
      && res.body == ErrorBody("Server error", Some("Missing env: " +
           if !Truthy(EnvGet(env, SupabaseUrlVar)) then SupabaseUrlVar else AnonKeyVar))
    ensures EnvReady(env) && auth.AuthFailed? ==>
      && res.status == 401 && queried == []
      && res.body == ErrorBody(AuthErrorText(Bearer.GetBearerToken(authorization).Some?),
                               Some(OrElse(auth.message, "Auth session missing!")))
    // the legacy column is tried only after the missing-column error
    ensures EnvReady(env) && auth.Authenticated? ==>
      queried == if NeedsFallback(q1) then [SupabaseUserIdColumn, UserIdColumn] else [SupabaseUserIdColumn]
    // every other store error is a 500
    ensures EnvReady(env) && auth.Authenticated? && q1.QueryError? && !NeedsFallback(q1) ==>
      res.status == 500 && res.body == ErrorBody("DB query failed", q1.message)
    ensures EnvReady(env) && auth.Authenticated? && NeedsFallback(q1) && q2.QueryError? ==>
      res.status == 500 && res.body == ErrorBody("DB query failed", q2.message)
    // success: the flags of whichever query answered, and the rows unfiltered
    ensures res.status == 200 <==>
      EnvReady(env) && auth.Authenticated? && (q1.Rows? || (NeedsFallback(q1) && q2.Rows?))
    ensures res.status == 200 ==>
      var rows := if q1.Rows? then q1.rows else q2.rows;
      res.body == Granted(auth.user.id, Reduce(rows), rows)
  {
    // each branch picks the answer; every answer carries the same headers
    var status: int, body: Body;
    queried := [];
    if !Truthy(EnvGet(env, SupabaseUrlVar)) || !Truthy(EnvGet(env, AnonKeyVar)) {
      var missing := if !Truthy(EnvGet(env, SupabaseUrlVar)) then SupabaseUrlVar else AnonKeyVar;
      status, body := 500, ErrorBody("Server error", Some("Missing env: " + missing));
    } else if auth.AuthFailed? {
      var bearer := Bearer.GetBearerToken(authorization);
      var details := OrElse(auth.message, "Auth session missing!");
      status, body := 401, ErrorBody(AuthErrorText(bearer.Some?), Some(details));
    } else {
      queried := [SupabaseUserIdColumn];
      if q1.Rows? {
        status, body := 200, Granted(auth.user.id, Reduce(q1.rows), q1.rows);
      } else if IsMissingColumnError(q1.message, "supabase_user_id") {
        queried := queried + [UserIdColumn];
        if q2.QueryError? {
          status, body := 500, ErrorBody("DB query failed", q2.message);
        } else {
          status, body := 200, Granted(auth.user.id, Reduce(q2.rows), q2.rows);
        }
      } else {
        status, body := 500, ErrorBody("DB query failed", q1.message);
      }
    }
    res := Respond(status, body, origin);
  }
}
