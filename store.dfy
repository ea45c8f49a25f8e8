/** The `subscriptions` table as the two webhook handlers write it, with the
    semantics of the two statements they issue: an upsert
    (`INSERT ... ON CONFLICT (target) DO UPDATE` over the columns the payload
    sends) and an update filtered on `stripe_subscription_id`. A conflict target
    must be backed by a unique constraint; a NULL key never conflicts. */
module SubscriptionStore {
  import opened Common

  /** One row. `owner` is the owner column, `supabase_user_id` in the schema
      webhook-v2 writes and `user_id` in the one the older webhook writes;
      `updatedAt` is `updated_at`, the instant of the last write. */
  datatype Row = Row(
    owner: string,
    plan: Plan,
    billing: Billing,
    status: string,
    customerId: Option<string>,
    subscriptionId: Option<string>,
    checkoutSessionId: Option<string>,
    periodEnd: Option<int>,
    updatedAt: int)

  /** A column that a write either leaves out (`Keep`) or sends (`Put`). */
  datatype Field<T> = Keep | Put(value: T)

  /** The object passed to `upsert`. Every column is sent except, in one call,
      `stripe_checkout_session_id`. */
  datatype Payload = Payload(
    owner: string,
    plan: Plan,
    billing: Billing,
    status: string,
    customerId: Option<string>,
    subscriptionId: Option<string>,
    checkoutSessionId: Field<Option<string>>,
    periodEnd: Option<int>)

  /** The object passed to `update`: status (if sent), period end, and
      customer id (if sent). */
  datatype Patch = Patch(status: Field<string>, periodEnd: Option<int>, customerId: Field<Option<string>>)

  /** The `onConflict` column lists the handlers use. */
  datatype ConflictTarget = OnSubscriptionId | OnCheckoutSessionId | OnOwnerPlan

  datatype Key = TextKey(text: string) | OwnerPlanKey(owner: string, plan: Plan)

  datatype Write = Upsert(target: ConflictTarget, payload: Payload) | Update(subscriptionId: string, patch: Patch)

  function TextKeyOf(v: Option<string>): Option<Key>
  {
    if v.Some? then Some(TextKey(v.value)) else None
  }

  /** The value of a row under a conflict target; NULL (None) never conflicts. */
  function RowKey(r: Row, t: ConflictTarget): Option<Key>
  {
    match t
    case OnSubscriptionId => TextKeyOf(r.subscriptionId)
    case OnCheckoutSessionId => TextKeyOf(r.checkoutSessionId)
    case OnOwnerPlan => Some(OwnerPlanKey(r.owner, r.plan))
  }

  function FieldOr<T>(f: Field<T>, current: T): T
  {
    if f.Put? then f.value else current
  }

  /** The row an upsert inserts: columns left out take their default, NULL. */
  function Inserted(p: Payload, now: int): Row
  {
    Row(p.owner, p.plan, p.billing, p.status, p.customerId, p.subscriptionId,
        FieldOr(p.checkoutSessionId, None), p.periodEnd, now)
  }

  /** The conflict target's value the payload would give the row. */
  function PayloadKey(p: Payload, t: ConflictTarget): (k: Option<Key>)
    ensures k == RowKey(Inserted(p, 0), t)
  {
    match t
    case OnSubscriptionId => TextKeyOf(p.subscriptionId)
    case OnCheckoutSessionId => TextKeyOf(FieldOr(p.checkoutSessionId, None))
    case OnOwnerPlan => Some(OwnerPlanKey(p.owner, p.plan))
  }

  /** `DO UPDATE`: the sent columns overwrite, the others stay. */
  function Merged(r: Row, p: Payload, now: int): Row
  {
    Row(p.owner, p.plan, p.billing, p.status, p.customerId, p.subscriptionId,
        FieldOr(p.checkoutSessionId, r.checkoutSessionId), p.periodEnd, now)
  }

  function Patched(r: Row, patch: Patch, now: int): Row
  {
    r.(status := FieldOr(patch.status, r.status),
       periodEnd := patch.periodEnd,
       customerId := FieldOr(patch.customerId, r.customerId),
       updatedAt := now)
  }

  /** At most one row has any given non-NULL value under `t`: what a unique
      constraint on `t` guarantees. */
  predicate KeyUnique(rows: seq<Row>, t: ConflictTarget)
  {
    forall i, j :: 0 <= i < |rows| && 0 <= j < |rows| && i != j && RowKey(rows[i], t).Some? ==>
      RowKey(rows[i], t) != RowKey(rows[j], t)
  }

  predicate HasKey(rows: seq<Row>, t: ConflictTarget, k: Key)
  {
    exists i :: 0 <= i < |rows| && RowKey(rows[i], t) == Some(k)
  }

  /** `upsert(payload, { onConflict: t })`. It touches only the rows that
      share its key: every other row keeps its place and its contents, the
      sharing rows take the payload, and a row is added at the end exactly
      when none shares the key. */
  function Upserted(rows: seq<Row>, t: ConflictTarget, p: Payload, now: int): (out: seq<Row>)
    ensures |rows| <= |out| <= |rows| + 1
    ensures forall i :: 0 <= i < |rows| && RowKey(rows[i], t) != PayloadKey(p, t) ==> out[i] == rows[i]
    ensures forall i :: 0 <= i < |rows| && PayloadKey(p, t).Some? && RowKey(rows[i], t) == PayloadKey(p, t) ==>
      out[i] == Merged(rows[i], p, now)
    ensures |out| == |rows| + 1 <==> PayloadKey(p, t).None? || !HasKey(rows, t, PayloadKey(p, t).value)
    ensures |out| == |rows| + 1 ==> out[|rows|] == Inserted(p, now)
  {
    var k := PayloadKey(p, t);
    if k.Some? && HasKey(rows, t, k.value) then
      seq(|rows|, i requires 0 <= i < |rows| =>
        if RowKey(rows[i], t) == k then Merged(rows[i], p, now) else rows[i])
    else
      rows + [Inserted(p, now)]
  }

  /** `update(patch).eq("stripe_subscription_id", id)`. It changes exactly
      the rows carrying that id, and in them only status, period end and
      customer id; owner, plan, billing and the Stripe ids stay. No match
      means no change at all. */
  function Updated(rows: seq<Row>, id: string, patch: Patch, now: int): (out: seq<Row>)
    ensures |out| == |rows|
    ensures forall i :: 0 <= i < |rows| && rows[i].subscriptionId != Some(id) ==> out[i] == rows[i]
    ensures forall i :: 0 <= i < |rows| && rows[i].subscriptionId == Some(id) ==>
      && out[i].owner == rows[i].owner && out[i].plan == rows[i].plan
      && out[i].billing == rows[i].billing && out[i].subscriptionId == rows[i].subscriptionId
      && out[i].checkoutSessionId == rows[i].checkoutSessionId
      && out[i].status == FieldOr(patch.status, rows[i].status)
      && out[i].periodEnd == patch.periodEnd
      && out[i].customerId == FieldOr(patch.customerId, rows[i].customerId)
      && out[i].updatedAt == now
    ensures (forall i :: 0 <= i < |rows| ==> rows[i].subscriptionId != Some(id)) ==> out == rows
  {
    seq(|rows|, i requires 0 <= i < |rows| =>
      if rows[i].subscriptionId == Some(id) then Patched(rows[i], patch, now) else rows[i])
  }

  function Applied(rows: seq<Row>, w: Write, now: int): seq<Row>
  {
    match w
    case Upsert(t, p) => Upserted(rows, t, p, now)
    case Update(id, patch) => Updated(rows, id, patch, now)
  }

  /** A row holds what the payload sent, stamped at `now`. */
  predicate Carries(r: Row, p: Payload, now: int)
  {
    && r.owner == p.owner && r.plan == p.plan && r.billing == p.billing && r.status == p.status
    && r.customerId == p.customerId && r.subscriptionId == p.subscriptionId
    && r.periodEnd == p.periodEnd && r.updatedAt == now
    && (p.checkoutSessionId.Put? ==> r.checkoutSessionId == p.checkoutSessionId.value)
  }

  /** After an upsert with a non-NULL key on a uniquely keyed table, exactly
      one row has that key and it carries the payload; the key stays unique. */
  lemma UpsertLeavesOneCarryingRow(rows: seq<Row>, t: ConflictTarget, p: Payload, now: int)
    requires KeyUnique(rows, t)
    requires PayloadKey(p, t).Some?
    ensures var out := Upserted(rows, t, p, now);
      && KeyUnique(out, t)
      && (exists i :: 0 <= i < |out| && RowKey(out[i], t) == PayloadKey(p, t) && Carries(out[i], p, now))
      && (forall i, j ::
            (0 <= i < |out| && 0 <= j < |out| && RowKey(out[i], t) == PayloadKey(p, t)
             && RowKey(out[j], t) == PayloadKey(p, t)) ==> i == j)
  {
    var k := PayloadKey(p, t);
    var out := Upserted(rows, t, p, now);
    if HasKey(rows, t, k.value) {
      var i0 :| 0 <= i0 < |rows| && RowKey(rows[i0], t) == k;
      assert RowKey(out[i0], t) == k && Carries(out[i0], p, now);
    } else {
      assert RowKey(out[|rows|], t) == k && Carries(out[|rows|], p, now);
    }
  }

  /** A write whose upsert key is not NULL; only those are idempotent, since a
      NULL key never conflicts and would insert again. */
  predicate Keyed(w: Write)
  {
    w.Upsert? ==> PayloadKey(w.payload, w.target).Some?
  }

  /** Replaying a keyed write gives the table a single application would,
      stamped with the replay's time: nothing but `updated_at` differs from
      the first application. */
  lemma AppliedTwice(rows: seq<Row>, w: Write, t1: int, t2: int)
    requires Keyed(w)
    ensures Applied(Applied(rows, w, t1), w, t2) == Applied(rows, w, t2)
  {
    match w
    case Upsert(t, p) =>
      var k := PayloadKey(p, t);
      var once := Upserted(rows, t, p, t1);
      var twice := Upserted(once, t, p, t2);
      var direct := Upserted(rows, t, p, t2);
      if HasKey(rows, t, k.value) {
        var i0 :| 0 <= i0 < |rows| && RowKey(rows[i0], t) == k;
        assert RowKey(once[i0], t) == k;
        assert HasKey(once, t, k.value);
        assert |twice| == |direct|;
        forall i | 0 <= i < |twice| ensures twice[i] == direct[i] {
          if RowKey(rows[i], t) == k {
            assert RowKey(once[i], t) == k;
          } else {
            assert once[i] == rows[i];
          }
        }
      } else {
        assert RowKey(once[|rows|], t) == k;
        assert HasKey(once, t, k.value);
        assert |twice| == |direct|;
        forall i | 0 <= i < |twice| ensures twice[i] == direct[i] {
          if i < |rows| {
            assert once[i] == rows[i];
            assert RowKey(rows[i], t) != k;
          }
        }
      }
    case Update(id, patch) =>
      var once := Updated(rows, id, patch, t1);
      assert forall i :: 0 <= i < |rows| ==> once[i].subscriptionId == rows[i].subscriptionId;
  }

  /** The table object the handlers write through. `uniques` are the
      conflict targets the schema backs with a unique constraint. */
  class Table {
    var rows: seq<Row>
    const uniques: set<ConflictTarget>

    ghost predicate Valid()
      reads this
    {
      forall t :: t in uniques ==> KeyUnique(rows, t)
    }

    constructor (uniques: set<ConflictTarget>)
      ensures Valid() && rows == [] && this.uniques == uniques
    {
      rows := [];
      this.uniques := uniques;
    }

    /** The store accepts a write: an upsert names a constrained target, and
        the result breaks no unique constraint (otherwise the statement fails
        as a whole). */
    predicate Admits(w: Write, now: int)
      reads this
    {
      && (w.Upsert? ==> w.target in uniques)
      && forall t :: t in uniques ==> KeyUnique(Applied(rows, w, now), t)
    }

    /** Runs one statement. `reachable` is false when the store call itself
        fails (network, permissions); a failed statement changes nothing. */
    method Execute(w: Write, now: int, reachable: bool) returns (ok: bool)
      requires Valid()
      modifies this
      ensures Valid()
      ensures ok == (reachable && old(Admits(w, now)))
      ensures rows == if ok then Applied(old(rows), w, now) else old(rows)
    {
      ok := reachable && Admits(w, now);
      if ok {
        rows := Applied(rows, w, now);
      }
    }
  }
}
