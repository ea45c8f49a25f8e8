/** Vocabulary shared by every route and client module: the optional value that
    stands for JavaScript's null/undefined, the two closed enumerations of the
    billing domain, the process environment, and JavaScript string truthiness. */
module Common {

  datatype Option<+T> = None | Some(value: T)

  /** The three purchasable plans. */
  datatype Plan = Talent | Networking | Bundle

  /** The three billing intervals; Lifetime is a one-time purchase. */
  datatype Billing = Monthly | Yearly | Lifetime

  /** The wire literal of a plan. */
  function PlanName(p: Plan): string
  {
    match p
    case Talent => "talent"
    case Networking => "networking"
    case Bundle => "bundle"
  }

  /** The wire literal of a billing interval. */
  function BillingName(b: Billing): string
  {
    match b
    case Monthly => "monthly"
    case Yearly => "yearly"
    case Lifetime => "lifetime"
  }

  /** normalizePlan: the input is kept exactly when it is one of the three
      plan literals; anything else (another string, a missing value) is null. */
  function ParsePlan(v: Option<string>): (r: Option<Plan>)
    ensures forall p :: r == Some(p) <==> v == Some(PlanName(p))
  {
    if v == Some("talent") then Some(Talent)
    else if v == Some("networking") then Some(Networking)
    else if v == Some("bundle") then Some(Bundle)
    else None
  }

  /** normalizeBilling: the same rule over the three billing literals. */
  function ParseBilling(v: Option<string>): (r: Option<Billing>)
    ensures forall b :: r == Some(b) <==> v == Some(BillingName(b))
  {
    if v == Some("monthly") then Some(Monthly)
    else if v == Some("yearly") then Some(Yearly)
    else if v == Some("lifetime") then Some(Lifetime)
    else None
  }

  /** `process.env`: a variable is either unset or holds a string. */
  type Env = map<string, string>

  function EnvGet(env: Env, key: string): Option<string>
  {
    if key in env then Some(env[key]) else None
  }

  /** JavaScript truthiness of a string that may be null: `!!v`. The empty
      string is falsy. */
  predicate Truthy(v: Option<string>)
  {
    v.Some? && v.value != ""
  }

  /** `a || b` over possibly-null strings: the first operand when truthy. */
  function OrElse(a: Option<string>, b: string): (r: string)
    ensures Truthy(a) ==> r == a.value
    ensures !Truthy(a) ==> r == b
  {
    if Truthy(a) then a.value else b
  }

  /** `v || null`: a falsy string collapses to null. */
  function NullIfFalsy(v: Option<string>): (r: Option<string>)
    ensures r.Some? <==> Truthy(v)
    ensures r.Some? ==> r == v
  {
    if Truthy(v) then v else None
  }

  /** The identity provider's verdict on a request's credential
      (`auth.getUser()`): a verified user, or a failure with an optional
      message. The provider itself is not part of this model. */
  datatype User = User(id: string, email: Option<string>)

  datatype AuthResult = Authenticated(user: User) | AuthFailed(message: Option<string>)

  /** The outcome of one query on the `subscriptions` table: the returned rows
      (a null `data` reads as no rows) or the store's error with its message. */
  datatype QueryResult<T> = Rows(rows: seq<T>) | QueryError(message: Option<string>)

  /** A call into a foreign service that either returns a value or throws an
      error carrying a message. */
  datatype Try<T> = Returned(value: T) | Threw(message: string)

  /** The owner column a subscriptions query filters on: the current name and
      the legacy one. */
  datatype OwnerColumn = SupabaseUserIdColumn | UserIdColumn
}
