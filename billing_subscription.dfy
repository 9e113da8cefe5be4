/** Surrogate keys the database assigns to its rows (`crate::db` id types). */
module DbIds {
  type UserId = nat
  type BillingCustomerId = nat
  type BillingSubscriptionId = nat
}

/**
 * The `billing_subscriptions` table: its row record and the closed status
 * vocabulary it stores as a string column.
 */
module BillingSubscriptionTable {
  import opened Wrappers
  import opened DbIds

  /** Status of a Stripe subscription as the local table stores it. */
  datatype StripeSubscriptionStatus =
    | Incomplete
    | IncompleteExpired
    | Trialing
    | Active
    | PastDue
    | Canceled
    | Unpaid
    | Paused

  /** The `#[default]` variant. */
  function DefaultStatus(): (s: StripeSubscriptionStatus)
    ensures Encode(s) == "incomplete"
  {
    Incomplete
  }

  /** Every variant, once each, in declaration order. */
  const AllStatuses: seq<StripeSubscriptionStatus> :=
    [Incomplete, IncompleteExpired, Trialing, Active, PastDue, Canceled, Unpaid, Paused]

  /** The column value written for each variant (`string_value`). */
  function Encode(s: StripeSubscriptionStatus): (r: string)
    ensures r != [] && forall i :: 0 <= i < |r| ==> 'a' <= r[i] <= 'z' || r[i] == '_'
  {
    match s
    case Incomplete => "incomplete"
    case IncompleteExpired => "incomplete_expired"
    case Trialing => "trialing"
    case Active => "active"
    case PastDue => "past_due"
    case Canceled => "canceled"
    case Unpaid => "unpaid"
    case Paused => "paused"
  }

  /** Reading a column value back; a string outside the table is rejected. */
  function Decode(value: string): (r: Option<StripeSubscriptionStatus>)
    ensures r.Some? ==> Encode(r.value) == value
  {
    if value == "incomplete" then Some(Incomplete)
    else if value == "incomplete_expired" then Some(IncompleteExpired)
    else if value == "trialing" then Some(Trialing)
    else if value == "active" then Some(Active)
    else if value == "past_due" then Some(PastDue)
    else if value == "canceled" then Some(Canceled)
    else if value == "unpaid" then Some(Unpaid)
    else if value == "paused" then Some(Paused)
    else None
  }

  /** The fixed set of strings the status column can hold. */
  function StoredValues(): set<string> {
    set s | s in AllStatuses :: Encode(s)
  }

  /** The enum has exactly eight variants, listed once each by `AllStatuses`. */
  lemma VariantSet()
    ensures |AllStatuses| == 8
    ensures forall s: StripeSubscriptionStatus :: s in AllStatuses
    ensures forall i, j :: 0 <= i < j < |AllStatuses| ==> AllStatuses[i] != AllStatuses[j]
  {
    forall s: StripeSubscriptionStatus ensures s in AllStatuses {
      match s
      case Incomplete => assert AllStatuses[0] == s;
      case IncompleteExpired => assert AllStatuses[1] == s;
      case Trialing => assert AllStatuses[2] == s;
      case Active => assert AllStatuses[3] == s;
      case PastDue => assert AllStatuses[4] == s;
      case Canceled => assert AllStatuses[5] == s;
      case Unpaid => assert AllStatuses[6] == s;
      case Paused => assert AllStatuses[7] == s;
    }
  }

  /** Distinct variants are stored as distinct strings. */
  lemma EncodeInjective(s: StripeSubscriptionStatus, t: StripeSubscriptionStatus)
    ensures Encode(s) == Encode(t) ==> s == t
  {
  }

  /** Reading back what was written gives the same status. */
  lemma RoundTrip(s: StripeSubscriptionStatus)
    ensures Decode(Encode(s)) == Some(s)
  {
  }

  /** A string decodes exactly when it is one of the eight stored values. */
  lemma DecodeOnlyStoredValues(value: string)
    ensures Decode(value).Some? <==> value in StoredValues()
  {
    if value in StoredValues() {
      var s :| s in AllStatuses && Encode(s) == value;
      RoundTrip(s);
    }
  }

  /**
   * A row of `billing_subscriptions`. `billing_customer_id` belongs to
   * `billing_customers.id`; `created_at` is not modelled.
   */
  datatype BillingSubscription = BillingSubscription(
    id: BillingSubscriptionId,
    billingCustomerId: BillingCustomerId,
    stripeSubscriptionId: string,
    stripeSubscriptionStatus: StripeSubscriptionStatus)
}
