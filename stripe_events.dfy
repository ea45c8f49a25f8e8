/** What the two webhook handlers read from a Stripe event, and the helpers
    they share: the environment they assert, `toIsoFromUnixSeconds`, and the
    two ways they take an id out of an expandable reference. The signature
    check (`webhooks.constructEvent`) and `subscriptions.retrieve` are foreign
    calls; their outcomes are inputs of the handlers. */
module StripeEvents {
  import opened Common
  import opened SubscriptionStore

  /** A field Stripe sends either as an id string or as an expanded object
      whose `id` may be missing; `Absent` is null/undefined. */
  datatype Expandable = Absent | IdString(s: string) | Expanded(id: Option<string>)

  /** The fields the handlers read from ``event.data.object`` (a checkout
      session or a subscription) and from a retrieved subscription. Unix
      seconds stand for instants. */
  datatype StripeObject = StripeObject(
    id: string,
    metadata: map<string, string>,
    customer: Expandable,
    subscription: Expandable,
    mode: Option<string>,
    status: Option<string>,
    currentPeriodEnd: Option<int>)

  datatype Event = Event(kind: string, data: StripeObject)

  /** `object.metadata?.key`. */
  function Meta(o: StripeObject, key: string): Option<string>
  {
    if key in o.metadata then Some(o.metadata[key]) else None
  }

  /** `typeof x === "string" ? x : x?.id ?? null`. */
  function IdOrNull(e: Expandable): (r: Option<string>)
    ensures e.IdString? ==> r == Some(e.s)
    ensures e.Expanded? ==> r == e.id
    ensures e.Absent? ==> r.None?
  {
    match e
    case Absent => None
    case IdString(s) => Some(s)
    case Expanded(id) => id
  }

  /** `typeof x === "string" ? x : x?.id || null`: an expanded object's empty
      id collapses to null, an empty id string does not. */
  function IdOrNullIfFalsy(e: Expandable): (r: Option<string>)
    ensures e.IdString? ==> r == Some(e.s)
    ensures e.Expanded? ==> r == NullIfFalsy(e.id)
    ensures e.Absent? ==> r.None?
  {
    match e
    case Absent => None
    case IdString(s) => Some(s)
    case Expanded(id) => NullIfFalsy(id)
  }

  /** `toIsoFromUnixSeconds`: null for a missing or zero instant; otherwise
      the instant itself stands for its ISO-8601 text. */
  function ToIso(sec: Option<int>): (r: Option<int>)
    ensures r.None? <==> sec.None? || sec.value == 0
    ensures r.Some? ==> r == sec
  {
    if sec.None? || sec.value == 0 then None else sec
  }

  /** The variables both handlers assert before anything else, in order. */
  const WebhookEnvNames: seq<string> :=
    ["STRIPE_SECRET_KEY", "STRIPE_WEBHOOK_SECRET", "NEXT_PUBLIC_SUPABASE_URL", "SUPABASE_SERVICE_ROLE_KEY"]

  /** Every asserted variable is set to a non-empty string (`assertEnv`
      throws on a falsy value). */
  predicate WebhookEnvReady(env: Env)
  {
    forall i :: 0 <= i < |WebhookEnvNames| ==> Truthy(EnvGet(env, WebhookEnvNames[i]))
  }

  /** What a handler decides for one delivery: answer with a status and touch
      nothing, or issue one statement on the table and answer 200 when it
      succeeds and 500 when it fails. */
  datatype Action = Reply(status: int) | Perform(write: Write)

  /** The status a handler answers once the store has run (or refused) the
      action's statement. */
  function FinalStatus(a: Action, stored: bool): (status: int)
    ensures a.Reply? ==> status == a.status
    ensures a.Perform? ==> (status == 200 <==> stored) && (status == 500 <==> !stored)
  {
    match a
    case Reply(s) => s
    case Perform(_) => if stored then 200 else 500
  }
}
