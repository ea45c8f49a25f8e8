/** The shared pricing vocabulary: the display labels of plans and billing
    intervals, and the environment variable that names the Stripe price of
    each (plan, billing) pair. */
module Pricing {
  import opened Common
  import opened Strings

  /** `PLAN_LABEL`. */
  function PlanLabel(p: Plan): string
  {
    match p
    case Talent => "Talent Pack"
    case Networking => "Networking Pack"
    case Bundle => "Bundle (Talent + Networking)"
  }

  /** `BILLING_LABEL`. */
  function BillingLabel(b: Billing): string
  {
    match b
    case Monthly => "Monthly"
    case Yearly => "Yearly"
    case Lifetime => "Lifetime"
  }

  const PriceKeyPrefix: string := "STRIPE_PRICE_"

  /** The plan's wire literal in upper case. */
  function PlanKeyPart(p: Plan): string
  {
    match p
    case Talent => "TALENT"
    case Networking => "NETWORKING"
    case Bundle => "BUNDLE"
  }

  /** The billing interval's wire literal in upper case. */
  function BillingKeyPart(b: Billing): string
  {
    match b
    case Monthly => "MONTHLY"
    case Yearly => "YEARLY"
    case Lifetime => "LIFETIME"
  }

  /** The variable that holds the Stripe price of a pair,
      `STRIPE_PRICE_<PLAN>_<BILLING>`. */
  function PriceKey(p: Plan, b: Billing): string
  {
    PriceKeyPrefix + PlanKeyPart(p) + "_" + BillingKeyPart(b)
  }

  /** `getPriceId`: the configured value of the pair's variable, unchanged
      (even when empty), or null when the variable is unset. */
  function GetPriceId(env: Env, p: Plan, b: Billing): (id: Option<string>)
    ensures id.Some? <==> PriceKey(p, b) in env
    ensures id.Some? ==> id.value == env[PriceKey(p, b)]
  {
    EnvGet(env, PriceKey(p, b))
  }

  /** `Upper` on a word, given its upper-case spelling letter by letter. */
  lemma UpperIs(s: string, t: string)
    requires |s| == |t| && forall i :: 0 <= i < |s| ==> UpperChar(s[i]) == t[i]
    ensures Upper(s) == t
  {
  }

  lemma PlanPartIsUpper(p: Plan)
    ensures PlanKeyPart(p) == Upper(PlanName(p))
  {
    match p
    case Talent => UpperIs("talent", "TALENT");
    case Networking => UpperIs("networking", "NETWORKING");
    case Bundle => UpperIs("bundle", "BUNDLE");
  }

  lemma BillingPartIsUpper(b: Billing)
    ensures BillingKeyPart(b) == Upper(BillingName(b))
  {
    match b
    case Monthly => UpperIs("monthly", "MONTHLY");
    case Yearly => UpperIs("yearly", "YEARLY");
    case Lifetime => UpperIs("lifetime", "LIFETIME");
  }

  /** The key is the template `getPriceId` writes,
      `STRIPE_PRICE_${plan.toUpperCase()}_${billing.toUpperCase()}`. */
  lemma PriceKeyIsTemplate(p: Plan, b: Billing)
    ensures PriceKey(p, b) == PriceKeyPrefix + Upper(PlanName(p)) + "_" + Upper(BillingName(b))
  {
    PlanPartIsUpper(p);
    BillingPartIsUpper(b);
  }

  /** Two keys built the same way from non-empty parts agree on the parts'
      initials: on the plan part's at once, and on the billing part's once the
      plan parts have the same length. */
  lemma SameKeySameInitials(u1: string, v1: string, u2: string, v2: string)
    requires |u1| > 0 && |v1| > 0 && |u2| > 0 && |v2| > 0
    requires PriceKeyPrefix + u1 + "_" + v1 == PriceKeyPrefix + u2 + "_" + v2
    ensures u1[0] == u2[0]
    ensures |u1| == |u2| ==> v1[0] == v2[0]
  {
    var k := PriceKeyPrefix + u1 + "_" + v1;
    assert k[|PriceKeyPrefix|] == u1[0];
    assert (PriceKeyPrefix + u2 + "_" + v2)[|PriceKeyPrefix|] == u2[0];
    if |u1| == |u2| {
      var n := |PriceKeyPrefix| + |u1| + 1;
      assert k[n] == v1[0];
      assert (PriceKeyPrefix + u2 + "_" + v2)[n] == v2[0];
    }
  }

  /** The key's characters after the prefix and after the plan part are the
      initials of plan and billing, and these determine the pair. */
  lemma PriceKeyInjective(p1: Plan, b1: Billing, p2: Plan, b2: Billing)
    requires PriceKey(p1, b1) == PriceKey(p2, b2)
    ensures p1 == p2 && b1 == b2
  {
    SameKeySameInitials(PlanKeyPart(p1), BillingKeyPart(b1), PlanKeyPart(p2), BillingKeyPart(b2));
  }

  /** Distinct pairs read distinct variables, so no two options can share a
      configured price by construction of the keys. */
  lemma DistinctPairsDistinctKeys(p1: Plan, b1: Billing, p2: Plan, b2: Billing)
    requires (p1, b1) != (p2, b2)
    ensures PriceKey(p1, b1) != PriceKey(p2, b2)
  {
    if PriceKey(p1, b1) == PriceKey(p2, b2) {
      PriceKeyInjective(p1, b1, p2, b2);
    }
  }

  /** No two plans and no two billing intervals share a label, so a price
      row's label names its option. */
  lemma LabelsDistinct(p1: Plan, b1: Billing, p2: Plan, b2: Billing)
    ensures PlanLabel(p1) == PlanLabel(p2) ==> p1 == p2
    ensures BillingLabel(b1) == BillingLabel(b2) ==> b1 == b2
  {
  }
}
