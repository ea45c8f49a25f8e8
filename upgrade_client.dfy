/** The upgrade page's client component: it preselects the option named in
    the query string, loads the price list, shows the current option's
    price, disables the plans the user already has, and starts a checkout.
    The derivations are functions; the component's state, which the price
    effect and `startCheckout` update step by step, is the `Page` class. */
module UpgradeClient {
  import opened Common
  import opened Json
  import opened EntitlementCheck
  import PricesRoute
  import Pricing
  import Bearer

  /** `planFromQuery`: a valid plan literal is kept, anything else (or no
      parameter) selects the talent pack. */
  function PlanFromQuery(v: Option<string>): (p: Plan)
    ensures v == Some(PlanName(p)) || (p == Talent && ParsePlan(v).None?)
  {
    if v == Some("talent") || v == Some("networking") || v == Some("bundle") then ParsePlan(v).value
    else Talent
  }

  /** `billingFromQuery`: likewise, defaulting to monthly. */
  function BillingFromQuery(v: Option<string>): (b: Billing)
    ensures v == Some(BillingName(b)) || (b == Monthly && ParseBilling(v).None?)
  {
    if v == Some("monthly") || v == Some("yearly") || v == Some("lifetime") then ParseBilling(v).value
    else Monthly
  }

  /** The URLs that lead here (`/upgrade?plan=<plan>` from the gate and the
      checkout's cancel URL) preselect the plan they name. */
  lemma QueryRoundTrip(p: Plan, b: Billing)
    ensures PlanFromQuery(Some(PlanName(p))) == p
    ensures BillingFromQuery(Some(BillingName(b))) == b
  {
  }

  /** A price row as the page reads it. */
  datatype ClientRow = ClientRow(plan: Plan, billing: Billing, amount: int, currency: string, priceId: string)

  /** `isPriceRow`: an object with a valid plan and billing literal, a
      numeric amount, and string currency and price id. */
  function IsPriceRow(x: Json): (ok: bool)
    ensures ok <==>
      && x.JObj?
      && ParsePlan(StringMember(x, "plan")).Some? && ParseBilling(StringMember(x, "billing")).Some?
      && Member(x, "amount").Some? && Member(x, "amount").value.JNum?
      && StringMember(x, "currency").Some? && StringMember(x, "price_id").Some?
  {
    var plan := StringMember(x, "plan");
    var billing := StringMember(x, "billing");
    && x.JObj?
    && (plan == Some("talent") || plan == Some("networking") || plan == Some("bundle"))
    && (billing == Some("monthly") || billing == Some("yearly") || billing == Some("lifetime"))
    && "amount" in x.fields && x.fields["amount"].JNum?
    && StringMember(x, "currency").Some? && StringMember(x, "price_id").Some?
  }

  /** An accepted element read through the `PriceRow` type. */
  function AsRow(x: Json): ClientRow
    requires IsPriceRow(x)
  {
    ClientRow(ParsePlan(StringMember(x, "plan")).value, ParseBilling(StringMember(x, "billing")).value,
              x.fields["amount"].n, StringMember(x, "currency").value, StringMember(x, "price_id").value)
  }

  /** `array.filter(isPriceRow)`. */
  function FilterRows(xs: seq<Json>): (rows: seq<ClientRow>)
    ensures |rows| <= |xs|
    ensures forall x :: x in xs && IsPriceRow(x) ==> AsRow(x) in rows
  {
    if xs == [] then []
    else if IsPriceRow(xs[0]) then [AsRow(xs[0])] + FilterRows(xs[1..])
    else FilterRows(xs[1..])
  }

  /** The filter keeps order: filtering a concatenation concatenates the
      filtered parts. */
  lemma {:induction false} FilterAppend(a: seq<Json>, b: seq<Json>)
    ensures FilterRows(a + b) == FilterRows(a) + FilterRows(b)
  {
    if a == [] {
      assert a + b == b;
    } else {
      assert (a + b)[0] == a[0];
      assert (a + b)[1..] == a[1..] + b;
      FilterAppend(a[1..], b);
    }
  }

  /** Every kept row comes from an accepted element. */
  lemma {:induction false} FilterSound(xs: seq<Json>, r: ClientRow)
    requires r in FilterRows(xs)
    ensures exists x :: x in xs && IsPriceRow(x) && AsRow(x) == r
  {
    if xs != [] && !(IsPriceRow(xs[0]) && r == AsRow(xs[0])) {
      FilterSound(xs[1..], r);
      var x :| x in xs[1..] && IsPriceRow(x) && AsRow(x) == r;
      assert x in xs;
    }
  }

  /** `normalizePrices`: a bare array, or the `prices` array of an object;
      anything else gives no rows. */
  function NormalizePrices(payload: Json): (rows: seq<ClientRow>)
    ensures payload.JArr? ==> rows == FilterRows(payload.items)
    ensures !payload.JArr? && Member(payload, "prices").Some? && Member(payload, "prices").value.JArr? ==>
      rows == FilterRows(Member(payload, "prices").value.items)
    ensures !payload.JArr? && !(Member(payload, "prices").Some? && Member(payload, "prices").value.JArr?) ==> rows == []
  {
    if payload.JArr? then FilterRows(payload.items)
    else
      match Member(payload, "prices")
      case Some(JArr(items)) => FilterRows(items)
      case _ => []
  }

  /** A row of the price route as the page reads it: the label is dropped. */
  function FromRoute(r: PricesRoute.PriceRow): (c: ClientRow)
    ensures c.plan == r.plan && c.billing == r.billing && c.amount == r.amount
    ensures c.currency == r.currency && c.priceId == r.priceId
  {
    ClientRow(r.plan, r.billing, r.amount, r.currency, r.priceId)
  }

  function FromRouteAll(rows: seq<PricesRoute.PriceRow>): (cs: seq<ClientRow>)
    ensures |cs| == |rows|
    ensures forall i :: 0 <= i < |rows| ==> cs[i] == FromRoute(rows[i])
  {
    seq(|rows|, i requires 0 <= i < |rows| => FromRoute(rows[i]))
  }

  /** Every row the price route serialises passes `isPriceRow` and reads
      back as itself. */
  lemma RowJsonAccepted(r: PricesRoute.PriceRow)
    ensures IsPriceRow(PricesRoute.RowJson(r)) && AsRow(PricesRoute.RowJson(r)) == FromRoute(r)
  {
    var x := PricesRoute.RowJson(r);
    assert StringMember(x, "plan") == Some(PlanName(r.plan));
    assert StringMember(x, "billing") == Some(BillingName(r.billing));
  }

  /** A sequence whose every element passes `isPriceRow` is kept whole by
      the filter, element by element. */
  lemma {:induction false} FilterAllAccepted(xs: seq<Json>, cs: seq<ClientRow>)
    requires |xs| == |cs|
    requires forall i :: 0 <= i < |xs| ==> IsPriceRow(xs[i]) && AsRow(xs[i]) == cs[i]
    ensures FilterRows(xs) == cs
  {
    if xs != [] {
      FilterAllAccepted(xs[1..], cs[1..]);
      assert cs == [cs[0]] + cs[1..];
    }
  }

  lemma RowsJsonAccepted(rows: seq<PricesRoute.PriceRow>)
    ensures FilterRows(PricesRoute.RowsJson(rows)) == FromRouteAll(rows)
  {
    var js := PricesRoute.RowsJson(rows);
    forall i | 0 <= i < |rows|
      ensures IsPriceRow(js[i]) && AsRow(js[i]) == FromRouteAll(rows)[i]
    {
      RowJsonAccepted(rows[i]);
    }
    FilterAllAccepted(js, FromRouteAll(rows));
  }

  /** The page reads back exactly the rows the price route lists, in the
      route's order: nothing the route sends is filtered out. */
  lemma PriceListRoundTrip(rows: seq<PricesRoute.PriceRow>)
    ensures NormalizePrices(PricesRoute.Respond(Returned(rows)).body) == FromRouteAll(rows)
  {
    RowsJsonAccepted(rows);
  }

  predicate Matches(r: ClientRow, p: Plan, b: Billing)
  {
    r.plan == p && r.billing == b
  }

  /** `prices.find(p => p.plan === plan && p.billing === billing) || null`
      (an empty list gives null). */
  function CurrentPrice(prices: seq<ClientRow>, p: Plan, b: Billing): (c: Option<ClientRow>)
    ensures c.None? <==> forall i :: 0 <= i < |prices| ==> !Matches(prices[i], p, b)
    ensures c.Some? ==> exists i :: 0 <= i < |prices| && prices[i] == c.value && Matches(c.value, p, b)
                                    && forall j :: 0 <= j < i ==> !Matches(prices[j], p, b)
  {
    if prices == [] then None
    else if Matches(prices[0], p, b) then Some(prices[0])
    else
      var rest := CurrentPrice(prices[1..], p, b);
      if rest.Some? then
        var i :| 0 <= i < |prices[1..]| && prices[1..][i] == rest.value && Matches(rest.value, p, b)
                 && forall j :: 0 <= j < i ==> !Matches(prices[1..][j], p, b);
        assert prices[i + 1] == rest.value;
        rest
      else rest
  }

  /** On any list of route rows, the page finds a price for an option
      exactly when the route listed it, and the one found is that option's. */
  lemma CurrentPriceIffListed(rows: seq<PricesRoute.PriceRow>, p: Plan, b: Billing)
    ensures var c := CurrentPrice(FromRouteAll(rows), p, b);
      && (c.Some? <==> PricesRoute.Listed(rows, p, b))
      && (c.Some? ==> c.value.plan == p && c.value.billing == b)
  {
    var cs := FromRouteAll(rows);
    if PricesRoute.Listed(rows, p, b) {
      var i :| 0 <= i < |rows| && rows[i].plan == p && rows[i].billing == b;
      assert Matches(cs[i], p, b);
    }
    if CurrentPrice(cs, p, b).Some? {
      var i :| 0 <= i < |cs| && Matches(cs[i], p, b);
      assert rows[i].plan == p && rows[i].billing == b;
    }
  }

  /** On the route's list, the page finds a price for an option exactly
      when the option's price variable is set, and it is that option's. */
  lemma CurrentPriceOfRoute(env: Env, retrieve: string -> Try<PricesRoute.StripePrice>, p: Plan, b: Billing)
    requires PricesRoute.Catalogue(env, retrieve, PricesRoute.Options()).Returned?
    ensures var c := CurrentPrice(FromRouteAll(PricesRoute.Catalogue(env, retrieve, PricesRoute.Options()).value), p, b);
      && (c.Some? <==> Truthy(EnvGet(env, Pricing.PriceKey(p, b))))
      && (c.Some? ==> c.value.plan == p && c.value.billing == b)
  {
    PricesRoute.ListedIffConfigured(env, retrieve, p, b);
    CurrentPriceIffListed(PricesRoute.Catalogue(env, retrieve, PricesRoute.Options()).value, p, b);
  }

  /** `planDisabled`: read from `ent.entitlements?.entitlements` only (the
      legacy `plans` field is not consulted); a bundle disables every
      plan, a single pack only itself. */
  function PlanDisabled(ent: Option<EntitlementsResponse>, p: Plan): (disabled: bool)
    ensures ent.None? || ent.value.entitlements.None? ==> !disabled
    ensures ent.Some? && ent.value.entitlements.Some? ==>
      (disabled <==> Flag(ent.value.entitlements.value, p) || Flag(ent.value.entitlements.value, Bundle))
  {
    var plans := if ent.Some? then ent.value.entitlements else None;
    var bundle := plans.Some? && Flag(plans.value, Bundle);
    match p
    case Networking => (plans.Some? && Flag(plans.value, Networking)) || bundle
    case Talent => (plans.Some? && Flag(plans.value, Talent)) || bundle
    case Bundle => bundle
  }

  /** The page agrees with `hasPlan` whenever the current flags are
      present; on a response with only the legacy field, `hasPlan` may
      grant a plan that the page still offers for purchase. */
  lemma PlanDisabledIsHasPlan(ent: Option<EntitlementsResponse>, p: Plan)
    ensures ent.Some? && ent.value.entitlements.Some? ==> PlanDisabled(ent, p) == HasPlan(ent, p)
    ensures var legacyOnly := Some(EntitlementsResponse(None, None, Some(map[p := true])));
      HasPlan(legacyOnly, p) && !PlanDisabled(legacyOnly, p)
  {
  }

  /** `showNoPrice`. */
  function ShowNoPrice(loaded: bool, err: Option<string>, prices: seq<ClientRow>, p: Plan, b: Billing): (show: bool)
    ensures show <==> loaded && !Truthy(err) && forall i :: 0 <= i < |prices| ==> !Matches(prices[i], p, b)
  {
    loaded && !Truthy(err) && (CurrentPrice(prices, p, b).None? || |prices| == 0)
  }

  /** The checkout button's `disabled`. */
  function CheckoutDisabled(loading: bool, prices: seq<ClientRow>, ent: Option<EntitlementsResponse>, p: Plan, b: Billing): (disabled: bool)
    ensures !disabled <==> !loading && (exists i :: 0 <= i < |prices| && Matches(prices[i], p, b)) && !PlanDisabled(ent, p)
  {
    loading || CurrentPrice(prices, p, b).None? || PlanDisabled(ent, p)
  }

  /** A response of `fetch`: its status and its body when it parses as
      JSON (`res.json().catch(() => ({}))`). */
  datatype FetchResponse = FetchResponse(status: nat, body: Option<Json>)

  predicate Ok(r: FetchResponse)
  {
    200 <= r.status <= 299
  }

  function BodyOf(r: FetchResponse): Json
  {
    if r.body.Some? then r.body.value else JObj(map[])
  }

  /** `json?.details || json?.error || fallback`. */
  function FailureText(j: Json, fallback: string): (t: string)
    ensures Truthy(StringMember(j, "details")) ==> t == StringMember(j, "details").value
    ensures !Truthy(StringMember(j, "details")) && Truthy(StringMember(j, "error")) ==> t == StringMember(j, "error").value
    ensures !Truthy(StringMember(j, "details")) && !Truthy(StringMember(j, "error")) ==> t == fallback
  {
    OrElse(StringMember(j, "details"), OrElse(StringMember(j, "error"), fallback))
  }

  /** `JSON.stringify({ plan, billing })`: the body posted to the checkout
      route. */
  function CheckoutRequest(p: Plan, b: Billing): Json
  {
    JObj(map["plan" := JStr(PlanName(p)), "billing" := JStr(BillingName(b))])
  }

  /** The `authorization` header posted beside it: `Bearer ${token}`. */
  function BearerHeader(token: string): string
  {
    "Bearer " + token
  }

  /** A request `startCheckout` posts: its `authorization` header and its
      body. The `content-type` header is always `application/json`. */
  datatype CheckoutPost = CheckoutPost(authorization: string, body: Json)

  /** The checkout routes read the token back from that header exactly when it
      is free of line terminators and does not start with a space character,
      unless it is that single character: otherwise `\s+` swallows the
      token's leading spaces. Access tokens (JWTs) are always read back. */
  lemma {:induction false} BearerHeaderRoundTrip(t: string)
    ensures Bearer.GetBearerToken(Some(BearerHeader(t))) == Some(t) <==>
      |t| > 0 && Bearer.NoLineTerminator(t) && (|t| == 1 || !Bearer.IsSpace(t[0]))
  {
    if |t| > 0 {
      var j := CaptureStart(t);
      BearerHeaderScheme(t);
      assert BearerHeader(t)[6..][j..] == t[j - 1..];
      if j > 1 {
        assert |t[j - 1..]| < |t|;
      }
    }
  }

  /** The header begins with the scheme name, then one space. */
  lemma BearerHeaderScheme(t: string)
    requires |t| > 0
    ensures Bearer.IsBearerScheme(BearerHeader(t)[..6])
    ensures BearerHeader(t)[6..] == [' '] + t
  {
    assert BearerHeader(t)[..6] == "Bearer";
  }

  /** Where `(.+)` starts in the text after the scheme name: right after the
      one space exactly when the token does not start with a space character
      or is that single character. */
  lemma CaptureStart(t: string) returns (j: int)
    requires |t| > 0
    ensures var rest := [' '] + t; var k := Bearer.LeadingSpaces(rest);
      j == if k < |rest| then k else k - 1
    ensures 1 <= j <= |t|
    ensures j == 1 <==> |t| == 1 || !Bearer.IsSpace(t[0])
  {
    var rest := [' '] + t;
    assert rest[1..] == t;
    var k := Bearer.LeadingSpaces(rest);
    j := if k < |rest| then k else k - 1;
  }

  /** The checkout route reads back the selected option from that body. */
  lemma CheckoutRequestRoundTrip(p: Plan, b: Billing)
    ensures ParsePlan(StringMember(CheckoutRequest(p, b), "plan")) == Some(p)
    ensures ParseBilling(StringMember(CheckoutRequest(p, b), "billing")) == Some(b)
  {
    assert StringMember(CheckoutRequest(p, b), "plan") == Some(PlanName(p));
    assert StringMember(CheckoutRequest(p, b), "billing") == Some(BillingName(b));
  }

  /** The decimal spelling of a status code. */
  function Decimal(n: nat): (s: string)
    ensures |s| > 0
    decreases n
  {
    var d := ['0', '1', '2', '3', '4', '5', '6', '7', '8', '9'][n % 10];
    if n < 10 then [d] else Decimal(n / 10) + [d]
  }

  const PricesFailedText: string := "Failed to load prices"
  const CheckoutFailedText: string := "Checkout failed"
  const LoginFirstText: string := "You need to be logged in first."
  const MissingUrlText: string := "Missing checkout URL."

  /** A session was read and holds an access token. */
  predicate HasToken(token: Try<Option<string>>)
  {
    token.Returned? && Truthy(token.value)
  }

  /** The component's state. */
  class Page {
    var plan: Plan
    var billing: Billing
    var loading: bool
    var msg: Option<string>
    var prices: seq<ClientRow>
    var pricesLoaded: bool
    var pricesErr: Option<string>

    /** A failed price load shows its message and no prices; before the
        first load finishes there is neither. */
    predicate Valid()
      reads this
    {
      && (pricesErr.Some? ==> pricesErr.value != "" && prices == [])
      && (!pricesLoaded ==> prices == [] && pricesErr.None?)
    }

    /** The initial state from the query string. */
    constructor (planParam: Option<string>, billingParam: Option<string>)
      ensures Valid()
      ensures plan == PlanFromQuery(planParam) && billing == BillingFromQuery(billingParam)
      ensures !loading && msg.None? && prices == [] && !pricesLoaded && pricesErr.None?
    {
      plan := PlanFromQuery(planParam);
      billing := BillingFromQuery(billingParam);
      loading := false;
      msg := None;
      prices := [];
      pricesLoaded := false;
      pricesErr := None;
    }

    /** The price effect: `fetched` is the outcome of
        `fetch("/api/stripe/prices")`. */
    method LoadPrices(fetched: Try<FetchResponse>)
      requires Valid()
      modifies this
      ensures Valid()
      ensures pricesLoaded
      ensures fetched.Returned? && Ok(fetched.value) ==>
        prices == NormalizePrices(BodyOf(fetched.value)) && pricesErr.None?
      ensures fetched.Returned? && !Ok(fetched.value) ==>
        prices == [] && pricesErr == Some(FailureText(BodyOf(fetched.value), PricesFailedText))
      ensures fetched.Threw? ==> prices == [] && pricesErr == Some(OrElse(Some(fetched.message), PricesFailedText))
      ensures plan == old(plan) && billing == old(billing) && loading == old(loading) && msg == old(msg)
    {
      pricesErr := None;
      if fetched.Threw? {
        prices := [];
        pricesErr := Some(OrElse(Some(fetched.message), PricesFailedText));
      } else {
        var j := BodyOf(fetched.value);
        if !Ok(fetched.value) {
          var message := FailureText(j, PricesFailedText);
          prices := [];
          pricesErr := Some(OrElse(Some(message), PricesFailedText));
        } else {
          prices := NormalizePrices(j);
        }
      }
      pricesLoaded := true;
    }

    /** A click on a plan option; a disabled option ignores it. */
    method SelectPlan(p: Plan, ent: Option<EntitlementsResponse>)
      modifies this
      ensures plan == (if PlanDisabled(ent, p) then old(plan) else p)
      ensures billing == old(billing) && loading == old(loading) && msg == old(msg)
      ensures prices == old(prices) && pricesLoaded == old(pricesLoaded) && pricesErr == old(pricesErr)
    {
      if !PlanDisabled(ent, p) {
        plan := p;
      }
    }

    method SelectBilling(b: Billing)
      modifies this
      ensures billing == b
      ensures plan == old(plan) && loading == old(loading) && msg == old(msg)
      ensures prices == old(prices) && pricesLoaded == old(pricesLoaded) && pricesErr == old(pricesErr)
    {
      billing := b;
    }

    /** `startCheckout`. `token` is the session's access token, or the
        exception `supabaseBrowser()` or `getSession()` raised; `response` is
        the outcome of posting to the checkout route. `sent` is the request
        posted, if any; `navigate` is where the browser is sent. */
    method StartCheckout(token: Try<Option<string>>, response: Try<FetchResponse>)
      returns (sent: Option<CheckoutPost>, navigate: Option<string>)
      requires Valid()
      modifies this
      ensures Valid()
      ensures plan == old(plan) && billing == old(billing)
      ensures prices == old(prices) && pricesLoaded == old(pricesLoaded) && pricesErr == old(pricesErr)
      // no session client or no session: nothing is posted and the page stays
      ensures token.Threw? ==>
        && sent.None? && navigate.None?
        && !loading && msg == Some(OrElse(Some(token.message), CheckoutFailedText))
      // without a token: to the login page, naming the plan
      ensures token.Returned? && !Truthy(token.value) ==>
        && sent.None? && navigate == Some("/login?upgrade=" + PlanName(plan))
        && !loading && msg == Some(LoginFirstText)
      // with one: the selected option is posted under that token
      ensures HasToken(token) ==>
        sent == Some(CheckoutPost(BearerHeader(token.value.value), CheckoutRequest(plan, billing)))
      ensures HasToken(token) && response.Threw? ==>
        navigate.None? && !loading && msg == Some(OrElse(Some(response.message), CheckoutFailedText))
      ensures HasToken(token) && response.Returned? && !Ok(response.value) ==>
        && navigate.None? && !loading
        && msg == Some(FailureText(BodyOf(response.value), "Checkout failed (" + Decimal(response.value.status) + ")"))
      ensures HasToken(token) && response.Returned? && Ok(response.value) && !Truthy(StringMember(BodyOf(response.value), "url")) ==>
        navigate.None? && !loading && msg == Some(MissingUrlText)
      // success: off to Stripe, the button staying in its loading state
      ensures HasToken(token) && response.Returned? && Ok(response.value) && Truthy(StringMember(BodyOf(response.value), "url")) ==>
        navigate == StringMember(BodyOf(response.value), "url") && loading && msg.None?
    {
      sent, navigate := None, None;
      msg := None;
      loading := true;
      if token.Threw? {
        msg := Some(OrElse(Some(token.message), CheckoutFailedText));
        loading := false;
        return;
      }
      if !Truthy(token.value) {
        loading := false;
        msg := Some(LoginFirstText);
        navigate := Some("/login?upgrade=" + PlanName(plan));
        return;
      }
      sent := Some(CheckoutPost(BearerHeader(token.value.value), CheckoutRequest(plan, billing)));
      var failure: Option<string> := None;
      if response.Threw? {
        failure := Some(response.message);
      } else {
        var j := BodyOf(response.value);
        if !Ok(response.value) {
          failure := Some(FailureText(j, "Checkout failed (" + Decimal(response.value.status) + ")"));
        } else if !Truthy(StringMember(j, "url")) {
          failure := Some(MissingUrlText);
        } else {
          navigate := StringMember(j, "url");
        }
      }
      if failure.Some? {
        msg := Some(OrElse(failure, CheckoutFailedText));
        loading := false;
      }
    }
  }
}
