/** The client-side entitlement check: whether a parsed entitlements
    response grants a plan, preferring the current `entitlements` flags and
    falling back to the legacy `plans` flags, with a bundle granting every
    plan. */
module EntitlementCheck {
  import opened Common
  import EntitlementsRoute

  /** A partial record of flags: a plan missing from the map is undefined. */
  type Flags = map<Plan, bool>

  /** `EntitlementsResponse` as the client reads it; `subscriptions` is not
      consulted and is left out. Absent fields are None. */
  datatype EntitlementsResponse = EntitlementsResponse(userId: Option<string>, entitlements: Option<Flags>, plans: Option<Flags>)

  /** `!!map[plan]`: a missing flag reads as false. */
  predicate Flag(m: Flags, p: Plan)
  {
    p in m && m[p]
  }

  /** `ent.entitlements ?? ent.plans`: the current field whenever it is
      present, even when it holds no flag at all. */
  function ChosenFlags(ent: EntitlementsResponse): (m: Option<Flags>)
    ensures ent.entitlements.Some? ==> m == ent.entitlements
    ensures ent.entitlements.None? ==> m == ent.plans
  {
    if ent.entitlements.Some? then ent.entitlements else ent.plans
  }

  /** `hasPlan(ent, plan)`. */
  function HasPlan(ent: Option<EntitlementsResponse>, p: Plan): (has: bool)
    ensures ent.None? ==> !has
    ensures ent.Some? && ChosenFlags(ent.value).None? ==> !has
    ensures ent.Some? && ChosenFlags(ent.value).Some? ==>
      (has <==> Flag(ChosenFlags(ent.value).value, Bundle) || Flag(ChosenFlags(ent.value).value, p))
  {
    if ent.None? then false
    else
      var m := ChosenFlags(ent.value);
      if m.None? then false
      else if Flag(m.value, Bundle) then true
      else Flag(m.value, p)
  }

  /** A bundle grants every plan, and granting the bundle is having the
      bundle flag. */
  lemma BundleDominates(ent: Option<EntitlementsResponse>, p: Plan)
    requires HasPlan(ent, Bundle)
    ensures HasPlan(ent, p)
  {
  }

  /** A present `entitlements` field hides the legacy `plans` field, even
      when it is empty and the legacy field grants everything. */
  lemma CurrentFieldShadowsLegacy(userId: Option<string>, legacy: Flags, p: Plan)
    ensures !HasPlan(Some(EntitlementsResponse(userId, Some(map[]), Some(legacy))), p)
  {
  }

  /** Turning flags on never takes a plan away. */
  lemma HasPlanMonotone(userId: Option<string>, m: Flags, m': Flags, p: Plan)
    requires forall q :: Flag(m, q) ==> Flag(m', q)
    ensures HasPlan(Some(EntitlementsResponse(userId, Some(m), None)), p) ==> HasPlan(Some(EntitlementsResponse(userId, Some(m'), None)), p)
  {
  }

  /** The response the entitlements route sends, as the client parses it. */
  function FromRoute(userId: string, e: EntitlementsRoute.Entitlements): (ent: EntitlementsResponse)
    ensures ent.entitlements.Some? && ent.entitlements.value.Keys == {Talent, Networking, Bundle}
  {
    EntitlementsResponse(Some(userId), Some(map[Talent := e.talent, Networking := e.networking, Bundle := e.bundle]), None)
  }

  /** End to end: on the route's answer for a user's rows, the client grants
      a plan exactly when some row with status "active" is a bundle or is
      that plan. */
  lemma HasPlanOfRoute(userId: string, rows: seq<EntitlementsRoute.SubRow>, p: Plan)
    ensures HasPlan(Some(FromRoute(userId, EntitlementsRoute.Reduce(rows))), p) <==>
      (exists r :: r in rows && EntitlementsRoute.GrantsPlan(r, "bundle"))
      || (exists r :: r in rows && EntitlementsRoute.GrantsPlan(r, PlanName(p)))
  {
    EntitlementsRoute.ReduceMeaning(rows);
  }
}
