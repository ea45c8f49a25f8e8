/** `GET /api/stripe/prices`: lists the purchasable options, plan-major and
    billing-minor, skipping every option whose price variable is unset, with
    the amount and currency Stripe reports for the configured price.
    `Catalogue` says what the listing is for a prefix of the option order;
    `Get` is the route's nested loop, proved to produce it. */
module PricesRoute {
  import opened Common
  import opened Json
  import opened Strings
  import opened Pricing

  /** `PLAN_KEYS` and `BILLING_KEYS`, in listing order. */
  const PlanKeys: seq<Plan> := [Talent, Networking, Bundle]
  const BillingKeys: seq<Billing> := [Monthly, Yearly, Lifetime]

  /** `envKey`: the route's own spelling of the price variable, the same key
      `getPriceId` reads. */
  function EnvKey(p: Plan, b: Billing): (key: string)
    ensures key == "STRIPE_PRICE_" + Upper(PlanName(p)) + "_" + Upper(BillingName(b))
  {
    PriceKeyIsTemplate(p, b);
    PriceKey(p, b)
  }

  /** What `prices.retrieve` returns: the price's id, its unit amount in
      cents and its currency, each possibly null. */
  datatype StripePrice = StripePrice(id: string, unitAmount: Option<int>, currency: Option<string>)

  /** One listed option. */
  datatype PriceRow = PriceRow(plan: Plan, billing: Billing, amount: int, currency: string, priceId: string, title: string)

  /** The row pushed for an option and its retrieved price. */
  function RowFor(p: Plan, b: Billing, price: StripePrice): (r: PriceRow)
    ensures r.plan == p && r.billing == b && r.priceId == price.id
    ensures r.amount == (if price.unitAmount.Some? then price.unitAmount.value else 0)
    ensures r.currency == (if price.currency.Some? then price.currency.value else "usd")
    ensures r.title == PlanLabel(p) + " \U{2014} " + BillingLabel(b)
  {
    PriceRow(p, b, if price.unitAmount.Some? then price.unitAmount.value else 0,
             if price.currency.Some? then price.currency.value else "usd",
             price.id, PlanLabel(p) + " \U{2014} " + BillingLabel(b))
  }

  /** The nine options in loop order: plan-major, billing-minor. */
  function Options(): (c: seq<(Plan, Billing)>)
    ensures |c| == 9
  {
    [(Talent, Monthly), (Talent, Yearly), (Talent, Lifetime),
     (Networking, Monthly), (Networking, Yearly), (Networking, Lifetime),
     (Bundle, Monthly), (Bundle, Yearly), (Bundle, Lifetime)]
  }

  function PlanIndex(p: Plan): nat
  {
    match p
    case Talent => 0
    case Networking => 1
    case Bundle => 2
  }

  function BillingIndex(b: Billing): nat
  {
    match b
    case Monthly => 0
    case Yearly => 1
    case Lifetime => 2
  }

  /** The position of an option in the listing order. */
  function Rank(p: Plan, b: Billing): (k: nat)
    ensures k < 9
  {
    3 * PlanIndex(p) + BillingIndex(b)
  }

  /** One iteration of the inner loop on the list so far: an option whose
      variable is unset or empty is skipped (`continue`); otherwise its price
      is retrieved and its row pushed, or the retrieval's error ends the
      listing. */
  function Step(env: Env, retrieve: string -> Try<StripePrice>, before: Try<seq<PriceRow>>, p: Plan, b: Billing): (after: Try<seq<PriceRow>>)
    ensures after.Returned? ==>
      && before.Returned?
      && |before.value| <= |after.value| <= |before.value| + 1
      && after.value[..|before.value|] == before.value
  {
    var priceId := EnvGet(env, PriceKey(p, b));
    if before.Threw? || !Truthy(priceId) then before
    else
      match retrieve(priceId.value)
      case Threw(message) => Threw(message)
      case Returned(price) => Returned(before.value + [RowFor(p, b, price)])
  }

  /** The listing over a sequence of options. `retrieve` is
      `stripe.prices.retrieve`, which may throw. */
  function Catalogue(env: Env, retrieve: string -> Try<StripePrice>, options: seq<(Plan, Billing)>): (c: Try<seq<PriceRow>>)
    ensures c.Returned? ==> |c.value| <= |options|
  {
    if options == [] then Returned([])
    else
      var last := options[|options| - 1];
      Step(env, retrieve, Catalogue(env, retrieve, options[..|options| - 1]), last.0, last.1)
  }

  lemma CatalogueStep(env: Env, retrieve: string -> Try<StripePrice>, options: seq<(Plan, Billing)>, n: nat)
    requires n < |options|
    ensures Catalogue(env, retrieve, options[..n + 1])
            == Step(env, retrieve, Catalogue(env, retrieve, options[..n]), options[n].0, options[n].1)
  {
    assert options[..n + 1][..n] == options[..n];
  }

  /** A retrieval that failed on a prefix is the outcome of the whole
      listing: no partial list survives it. */
  lemma {:induction false} FailurePersists(env: Env, retrieve: string -> Try<StripePrice>, options: seq<(Plan, Billing)>, n: nat)
    requires n <= |options|
    requires Catalogue(env, retrieve, options[..n]).Threw?
    ensures Catalogue(env, retrieve, options) == Catalogue(env, retrieve, options[..n])
    decreases |options| - n
  {
    if n < |options| {
      CatalogueStep(env, retrieve, options, n);
      FailurePersists(env, retrieve, options, n + 1);
    } else {
      assert options[..n] == options;
    }
  }

  /** Option `3 * i + j` is the `i`-th plan with the `j`-th billing. */
  lemma OptionAt(i: int, j: int)
    requires 0 <= i < 3 && 0 <= j < 3
    ensures Options()[3 * i + j] == (PlanKeys[i], BillingKeys[j])
  {
  }

  /** An option's rank is its position in the order. */
  lemma RankIsPosition(n: int)
    requires 0 <= n < 9
    ensures Rank(Options()[n].0, Options()[n].1) == n
  {
  }

  /** The inner loop's iteration `(i, j)` is the catalogue's step on the
      `i`-th plan with the `j`-th billing. */
  lemma StepAt(env: Env, retrieve: string -> Try<StripePrice>, i: int, j: int)
    requires 0 <= i < 3 && 0 <= j < 3
    ensures Catalogue(env, retrieve, Options()[..3 * i + j + 1])
            == Step(env, retrieve, Catalogue(env, retrieve, Options()[..3 * i + j]), PlanKeys[i], BillingKeys[j])
  {
    OptionAt(i, j);
    CatalogueStep(env, retrieve, Options(), 3 * i + j);
  }

  /** The body of the inner loop for one option: an unset or empty variable
      is skipped (`continue`), otherwise the price is retrieved and its row
      pushed; a retrieval error is passed on. */
  method Visit(env: Env, retrieve: string -> Try<StripePrice>, out: seq<PriceRow>, i: int, j: int)
    returns (next: Try<seq<PriceRow>>)
    requires 0 <= i < 3 && 0 <= j < 3
    requires Catalogue(env, retrieve, Options()[..3 * i + j]) == Returned(out)
    ensures next == Catalogue(env, retrieve, Options()[..3 * i + j + 1])
    ensures next.Threw? ==> next == Catalogue(env, retrieve, Options())
  {
    StepAt(env, retrieve, i, j);
    var plan, billing := PlanKeys[i], BillingKeys[j];
    var key := EnvKey(plan, billing);
    var priceId := EnvGet(env, key);
    if !Truthy(priceId) {
      return Returned(out);
    }
    var price := retrieve(priceId.value);
    if price.Threw? {
      FailurePersists(env, retrieve, Options(), 3 * i + j + 1);
      return Threw(price.message);
    }
    next := Returned(out + [RowFor(plan, billing, price.value)]);
  }

  /** The inner loop for the `i`-th plan: its three billings in order,
      giving up at the first failed retrieval. */
  method ListPlan(env: Env, retrieve: string -> Try<StripePrice>, out: seq<PriceRow>, i: int)
    returns (next: Try<seq<PriceRow>>)
    requires 0 <= i < 3
    requires Catalogue(env, retrieve, Options()[..3 * i]) == Returned(out)
    ensures next.Returned? ==> next == Catalogue(env, retrieve, Options()[..3 * i + 3])
    ensures next.Threw? ==> next == Catalogue(env, retrieve, Options())
  {
    var rows := out;
    for j := 0 to 3
      invariant Catalogue(env, retrieve, Options()[..3 * i + j]) == Returned(rows)
    {
      var step := Visit(env, retrieve, rows, i, j);
      if step.Threw? {
        return step;
      }
      rows := step.value;
    }
    next := Returned(rows);
  }

  /** `GET`, once its modules have loaded (see `Serve`): the loop over plans,
      each running the loop over billings; it pushes a row for each
      configured option and gives up at the first failed retrieval. */
  method Get(env: Env, retrieve: string -> Try<StripePrice>) returns (loaded: Try<seq<PriceRow>>)
    ensures loaded == Catalogue(env, retrieve, Options())
  {
    var out: seq<PriceRow> := [];
    for i := 0 to 3
      invariant Catalogue(env, retrieve, Options()[..3 * i]) == Returned(out)
    {
      var next := ListPlan(env, retrieve, out, i);
      if next.Threw? {
        return next;
      }
      out := next.value;
    }
    assert Options()[..9] == Options();
    loaded := Returned(out);
  }

  const StripeKeyVar: string := "STRIPE_SECRET_KEY"

  /** What a request to the route gets. The shared Stripe client of
      `app/lib/stripe.ts` is built when that module loads, with
      `assertEnv("STRIPE_SECRET_KEY")`, outside `GET`'s try/catch. Without
      the key the module fails to load and `GET` never runs: the framework
      answers with its own error, not with a JSON body of the route. */
  datatype Served = LoadFailed(message: string) | Handled(response: JsonResponse)

  /** Loading the route's modules, then `GET`. */
  method Serve(env: Env, retrieve: string -> Try<StripePrice>) returns (served: Served)
    ensures served.LoadFailed? <==> !Truthy(EnvGet(env, StripeKeyVar))
    ensures served.LoadFailed? ==> served.message == "Missing env: STRIPE_SECRET_KEY"
    ensures served.Handled? ==> served.response == Respond(Catalogue(env, retrieve, Options()))
  {
    if !Truthy(EnvGet(env, StripeKeyVar)) {
      return LoadFailed("Missing env: " + StripeKeyVar);
    }
    var loaded := Get(env, retrieve);
    served := Handled(Respond(loaded));
  }

  /** The JSON of a row, as the route serialises it. */
  function RowJson(r: PriceRow): Json
  {
    JObj(map["plan" := JStr(PlanName(r.plan)), "billing" := JStr(BillingName(r.billing)),
             "amount" := JNum(r.amount), "currency" := JStr(r.currency),
             "price_id" := JStr(r.priceId), "label" := JStr(r.title)])
  }

  function RowsJson(rows: seq<PriceRow>): (items: seq<Json>)
    ensures |items| == |rows|
    ensures forall i :: 0 <= i < |rows| ==> items[i] == RowJson(rows[i])
  {
    seq(|rows|, i requires 0 <= i < |rows| => RowJson(rows[i]))
  }

  /** `{ prices: out }` with 200, or the 500 answer with the failure's
      message and no list at all. */
  function Respond(loaded: Try<seq<PriceRow>>): (r: JsonResponse)
    ensures loaded.Returned? ==> r.status == 200 && Member(r.body, "prices") == Some(JArr(RowsJson(loaded.value)))
    ensures loaded.Threw? ==>
      r.status == 500 && Member(r.body, "prices").None? && r.body == ErrorObject("Failed to load Stripe prices", Some(loaded.message))
  {
    match loaded
    case Returned(rows) => JsonResponse(200, JObj(map["prices" := JArr(RowsJson(rows))]))
    case Threw(message) => JsonResponse(500, ErrorObject("Failed to load Stripe prices", Some(message)))
  }

  // ---------------------------------------------------------------------
  // Properties of the listing
  // ---------------------------------------------------------------------

  /** Rows in strictly increasing option order: plan-major, billing-minor,
      and so without a repeated option. */
  predicate Ordered(rows: seq<PriceRow>)
  {
    forall i, j :: 0 <= i < j < |rows| ==> Rank(rows[i].plan, rows[i].billing) < Rank(rows[j].plan, rows[j].billing)
  }

  predicate Listed(rows: seq<PriceRow>, p: Plan, b: Billing)
  {
    exists i :: 0 <= i < |rows| && rows[i].plan == p && rows[i].billing == b
  }

  /** Every row is the one built from its option's configured, retrieved
      price. */
  predicate Priced(env: Env, retrieve: string -> Try<StripePrice>, rows: seq<PriceRow>)
  {
    forall i :: 0 <= i < |rows| ==>
      var id := EnvGet(env, PriceKey(rows[i].plan, rows[i].billing));
      Truthy(id) && retrieve(id.value).Returned?
      && rows[i] == RowFor(rows[i].plan, rows[i].billing, retrieve(id.value).value)
  }

  /** What holds of the listing of the first `n` options. */
  predicate ListingInvariant(env: Env, retrieve: string -> Try<StripePrice>, rows: seq<PriceRow>, n: nat)
  {
    && Ordered(rows)
    && (forall i :: 0 <= i < |rows| ==> Rank(rows[i].plan, rows[i].billing) < n)
    && (forall p, b :: Rank(p, b) < n ==> (Truthy(EnvGet(env, PriceKey(p, b))) <==> Listed(rows, p, b)))
    && Priced(env, retrieve, rows)
  }

  /** Distinct options have distinct ranks. */
  lemma RankInjective(p: Plan, b: Billing, p': Plan, b': Billing)
    requires Rank(p, b) == Rank(p', b')
    ensures p == p' && b == b'
  {
  }

  /** Skipping an option whose variable is unset or empty keeps the
      invariant one position further. */
  lemma SkipKeepsInvariant(env: Env, retrieve: string -> Try<StripePrice>, rows: seq<PriceRow>, p: Plan, b: Billing)
    requires ListingInvariant(env, retrieve, rows, Rank(p, b))
    requires !Truthy(EnvGet(env, PriceKey(p, b)))
    ensures ListingInvariant(env, retrieve, rows, Rank(p, b) + 1)
  {
    forall p', b' | Rank(p', b') < Rank(p, b) + 1
      ensures Truthy(EnvGet(env, PriceKey(p', b'))) <==> Listed(rows, p', b')
    {
      if Rank(p', b') == Rank(p, b) {
        RankInjective(p, b, p', b');
      }
    }
  }

  /** Pushing the row of a configured option lists it, and changes nothing
      about the options before it. */
  lemma PushKeepsCoverage(env: Env, rows: seq<PriceRow>, p: Plan, b: Billing, row: PriceRow)
    requires forall p', b' :: Rank(p', b') < Rank(p, b) ==> (Truthy(EnvGet(env, PriceKey(p', b'))) <==> Listed(rows, p', b'))
    requires forall i :: 0 <= i < |rows| ==> Rank(rows[i].plan, rows[i].billing) < Rank(p, b)
    requires Truthy(EnvGet(env, PriceKey(p, b)))
    requires row.plan == p && row.billing == b
    ensures forall p', b' :: Rank(p', b') < Rank(p, b) + 1 ==>
              (Truthy(EnvGet(env, PriceKey(p', b'))) <==> Listed(rows + [row], p', b'))
  {
    var rows' := rows + [row];
    forall p', b' | Rank(p', b') < Rank(p, b) + 1
      ensures Truthy(EnvGet(env, PriceKey(p', b'))) <==> Listed(rows', p', b')
    {
      if Rank(p', b') == Rank(p, b) {
        RankInjective(p, b, p', b');
        assert rows'[|rows|].plan == p' && rows'[|rows|].billing == b';
      } else {
        if Listed(rows', p', b') {
          var i :| 0 <= i < |rows'| && rows'[i].plan == p' && rows'[i].billing == b';
          if i == |rows| {
            RankInjective(p, b, p', b');
          }
          assert rows[i] == rows'[i];
        }
        if Listed(rows, p', b') {
          var i :| 0 <= i < |rows| && rows[i].plan == p' && rows[i].billing == b';
          assert rows'[i] == rows[i];
        }
      }
    }
  }

  /** Pushing the row of a configured option keeps the invariant one
      position further. */
  lemma PushKeepsInvariant(env: Env, retrieve: string -> Try<StripePrice>, rows: seq<PriceRow>, p: Plan, b: Billing,
                           price: StripePrice)
    requires ListingInvariant(env, retrieve, rows, Rank(p, b))
    requires Truthy(EnvGet(env, PriceKey(p, b)))
    requires retrieve(EnvGet(env, PriceKey(p, b)).value) == Returned(price)
    ensures ListingInvariant(env, retrieve, rows + [RowFor(p, b, price)], Rank(p, b) + 1)
  {
    var rows' := rows + [RowFor(p, b, price)];
    assert forall i :: 0 <= i < |rows| ==> rows'[i] == rows[i];
    PushKeepsCoverage(env, rows, p, b, rows'[|rows|]);
  }

  /** One step of the listing keeps the invariant one position further. */
  lemma StepKeepsInvariant(env: Env, retrieve: string -> Try<StripePrice>, rows: seq<PriceRow>, p: Plan, b: Billing)
    requires ListingInvariant(env, retrieve, rows, Rank(p, b))
    requires Step(env, retrieve, Returned(rows), p, b).Returned?
    ensures ListingInvariant(env, retrieve, Step(env, retrieve, Returned(rows), p, b).value, Rank(p, b) + 1)
  {
    var id := EnvGet(env, PriceKey(p, b));
    if Truthy(id) {
      PushKeepsInvariant(env, retrieve, rows, p, b, retrieve(id.value).value);
    } else {
      SkipKeepsInvariant(env, retrieve, rows, p, b);
    }
  }

  /** Over options listed in rank order (as `Options()` is), the listing of
      the first `n` options is ordered, lists only options before `n`, lists such an option exactly when its price variable is
      set to a non-empty value, and builds each row from the retrieved
      price. */
  lemma {:induction false} ListingOrderAndCoverage(env: Env, retrieve: string -> Try<StripePrice>,
                                                   options: seq<(Plan, Billing)>, n: nat)
    requires n <= |options|
    requires forall k :: 0 <= k < |options| ==> Rank(options[k].0, options[k].1) == k
    requires Catalogue(env, retrieve, options[..n]).Returned?
    ensures ListingInvariant(env, retrieve, Catalogue(env, retrieve, options[..n]).value, n)
  {
    if n > 0 {
      var (p, b) := options[n - 1];
      assert Rank(p, b) == n - 1;
      CatalogueStep(env, retrieve, options, n - 1);
      var before := Catalogue(env, retrieve, options[..n - 1]);
      assert before.Returned?;
      ListingOrderAndCoverage(env, retrieve, options, n - 1);
      StepKeepsInvariant(env, retrieve, before.value, p, b);
    }
  }

  /** The response lists at most the nine options, each at most once, in
      plan-major order; an option is listed exactly when its price variable
      is set, with amount defaulting to 0, currency to "usd", and the label
      `<plan label> — <billing label>`. */
  lemma ListingProperties(env: Env, retrieve: string -> Try<StripePrice>)
    requires Catalogue(env, retrieve, Options()).Returned?
    ensures var rows := Catalogue(env, retrieve, Options()).value;
      && |rows| <= 9
      && (forall i, j :: 0 <= i < j < |rows| ==> (rows[i].plan, rows[i].billing) != (rows[j].plan, rows[j].billing))
      && (forall i, j :: 0 <= i < j < |rows| ==> PlanIndex(rows[i].plan) <= PlanIndex(rows[j].plan))
      && (forall p, b :: Truthy(EnvGet(env, PriceKey(p, b))) <==> Listed(rows, p, b))
      && (forall i :: 0 <= i < |rows| ==> rows[i].title == PlanLabel(rows[i].plan) + " \U{2014} " + BillingLabel(rows[i].billing))
      && (forall i :: 0 <= i < |rows| ==>
            var id := EnvGet(env, PriceKey(rows[i].plan, rows[i].billing));
            && Truthy(id) && retrieve(id.value).Returned?
            && var price := retrieve(id.value).value;
            && rows[i].priceId == price.id
            && rows[i].amount == (if price.unitAmount.Some? then price.unitAmount.value else 0)
            && rows[i].currency == (if price.currency.Some? then price.currency.value else "usd"))
  {
    assert Options()[..9] == Options();
    forall k | 0 <= k < 9
      ensures Rank(Options()[k].0, Options()[k].1) == k
    {
      RankIsPosition(k);
    }
    ListingOrderAndCoverage(env, retrieve, Options(), 9);
    var rows := Catalogue(env, retrieve, Options()).value;
    RanksBoundLength(rows, 0);
  }

  /** The listing coverage on its own: an option is listed exactly when its
      price variable is set and non-empty. */
  lemma ListedIffConfigured(env: Env, retrieve: string -> Try<StripePrice>, p: Plan, b: Billing)
    requires Catalogue(env, retrieve, Options()).Returned?
    ensures Truthy(EnvGet(env, PriceKey(p, b))) <==> Listed(Catalogue(env, retrieve, Options()).value, p, b)
  {
    ListingProperties(env, retrieve);
  }

  /** A strictly rank-increasing list of rows with ranks at least `lo` has
      at most `9 - lo` rows. */
  lemma {:induction false} RanksBoundLength(rows: seq<PriceRow>, lo: nat)
    requires lo <= 9
    requires Ordered(rows)
    requires forall i :: 0 <= i < |rows| ==> lo <= Rank(rows[i].plan, rows[i].billing)
    ensures |rows| + lo <= 9
    decreases |rows|
  {
    if |rows| > 0 {
      RanksBoundLength(rows[1..], Rank(rows[0].plan, rows[0].billing) + 1);
    }
  }
}
