/** `RequirePlan`: the gate around a page that needs a plan. While the
    entitlements load it shows a placeholder, after a failure an error
    message, and once they are ready either the page or a redirect to the
    upgrade page for the required plan. */
module RequirePlan {
  import opened Common
  import opened EntitlementCheck
  import opened UseEntitlements

  /** What the component renders; a redirect renders nothing and sends the
      browser to `url`. */
  datatype View = LoadingPlaceholder | VerifyError | Redirect(url: string) | Children

  /** `/upgrade?plan=<required>`. */
  function UpgradeUrl(required: Plan): string
  {
    "/upgrade?plan=" + PlanName(required)
  }

  /** The `entitlements.hasPlan` prop. The hook returns its state and
      `refresh` only, so the prop comes from the caller; the model takes it
      to be `p => hasPlan(state.entitlements, p)` over the hook's state, which
      grants nothing before the entitlements are ready. */
  function HookGrants(h: Hook, p: Plan): (has: bool)
    reads h
    requires h.Valid()
    ensures h.status != Ready ==> !has
  {
    HasPlan(h.entitlements, p)
  }

  /** The decision; `hasRequired` is `entitlements.hasPlan(required)`, which
      is consulted only once the status is ready. */
  function Render(status: Status, hasRequired: bool, required: Plan): (v: View)
    ensures v == LoadingPlaceholder <==> status == Idle || status == Loading
    ensures v == VerifyError <==> status == Failed
    ensures v.Redirect? <==> status == Ready && !hasRequired
    ensures v.Redirect? ==> v.url == UpgradeUrl(required)
    ensures v == Children <==> status == Ready && hasRequired
  {
    match status
    case Idle => LoadingPlaceholder
    case Loading => LoadingPlaceholder
    case Failed => VerifyError
    case Ready => if !hasRequired then Redirect(UpgradeUrl(required)) else Children
  }

  /** Composed with the hook and `hasPlan`: the page is shown exactly when
      the loaded entitlements grant the required plan (a bundle grants
      all), and a user whose entitlements failed to load is never
      redirected. */
  lemma GateOnHook(h: Hook, required: Plan)
    requires h.Valid()
    ensures Render(h.status, HookGrants(h, required), required) == Children <==>
      h.status == Ready && (HasPlan(h.entitlements, Bundle) || HasPlan(h.entitlements, required))
    ensures h.status == Failed ==> Render(h.status, HookGrants(h, required), required) == VerifyError
  {
    if h.status == Ready && HasPlan(h.entitlements, Bundle) {
      BundleDominates(h.entitlements, required);
    }
  }

  /** The redirect names the required plan, and distinct plans redirect to
      distinct pages. */
  lemma RedirectsNamePlan(p: Plan, q: Plan)
    requires UpgradeUrl(p) == UpgradeUrl(q)
    ensures p == q
  {
    assert UpgradeUrl(p)[14..] == PlanName(p);
    assert UpgradeUrl(q)[14..] == PlanName(q);
  }
}
