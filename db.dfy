/**
 * The local store as the reconciliation uses it: users found by email,
 * billing customers found by Stripe customer id, and billing subscriptions
 * upserted by Stripe subscription id.
 */
module Db {
  import opened Wrappers
  import opened DbIds
  import opened BillingSubscriptionTable

  /** A row of `billing_customers` (`created_at` is not modelled). */
  datatype BillingCustomer = BillingCustomer(id: BillingCustomerId, userId: UserId, stripeCustomerId: string)

  /**
   * The store's contents. `customers` is keyed by `stripe_customer_id` and
   * `subscriptions` by `stripe_subscription_id`; the counters are the next
   * surrogate keys the store hands out.
   */
  datatype Tables = Tables(
    users: map<string, UserId>,
    customers: map<string, BillingCustomer>,
    subscriptions: map<string, BillingSubscription>,
    nextCustomerId: BillingCustomerId,
    nextSubscriptionId: BillingSubscriptionId)

  /** The primary keys of all billing customers. */
  ghost function CustomerIds(t: Tables): set<BillingCustomerId> {
    set k | k in t.customers :: t.customers[k].id
  }

  /**
   * The store's integrity: rows sit under their own Stripe id, surrogate keys
   * are distinct and below the counters, and every subscription belongs to
   * an existing billing customer.
   */
  ghost predicate Valid(t: Tables) {
    && (forall k :: k in t.customers ==>
          t.customers[k].stripeCustomerId == k && t.customers[k].id < t.nextCustomerId)
    && (forall k1, k2 :: k1 in t.customers && k2 in t.customers && k1 != k2 ==>
          t.customers[k1].id != t.customers[k2].id)
    && (forall k :: k in t.subscriptions ==>
          t.subscriptions[k].stripeSubscriptionId == k && t.subscriptions[k].id < t.nextSubscriptionId)
    && (forall k1, k2 :: k1 in t.subscriptions && k2 in t.subscriptions && k1 != k2 ==>
          t.subscriptions[k1].id != t.subscriptions[k2].id)
    && (forall k :: k in t.subscriptions ==> t.subscriptions[k].billingCustomerId in CustomerIds(t))
  }

  /** A store with users only, as the server starts with, is valid. */
  lemma EmptyStoreValid(users: map<string, UserId>)
    ensures Valid(Tables(users, map[], map[], 0, 0))
  {
  }

  /** `get_billing_customer_by_stripe_customer_id`. */
  function LookupCustomer(t: Tables, stripeCustomerId: string): (r: Option<BillingCustomer>)
    ensures r.Some? <==> stripeCustomerId in t.customers
    ensures r.Some? ==> r.value == t.customers[stripeCustomerId]
  {
    if stripeCustomerId in t.customers then Some(t.customers[stripeCustomerId]) else None
  }

  /** `get_user_by_email`. */
  function LookupUser(t: Tables, email: string): (r: Option<UserId>)
    ensures r.Some? <==> email in t.users
    ensures r.Some? ==> r.value == t.users[email]
  {
    if email in t.users then Some(t.users[email]) else None
  }

  /** `create_billing_customer`: a new row with the next surrogate key. */
  function CreateCustomer(t: Tables, userId: UserId, stripeCustomerId: string): (r: (BillingCustomer, Tables))
    ensures r.0 == BillingCustomer(t.nextCustomerId, userId, stripeCustomerId)
    ensures r.1.customers == t.customers[stripeCustomerId := r.0]
    ensures r.1.nextCustomerId == t.nextCustomerId + 1
    ensures r.1.users == t.users && r.1.subscriptions == t.subscriptions
    ensures r.1.nextSubscriptionId == t.nextSubscriptionId
  {
    var row := BillingCustomer(t.nextCustomerId, userId, stripeCustomerId);
    (row, t.(customers := t.customers[stripeCustomerId := row], nextCustomerId := t.nextCustomerId + 1))
  }

  /**
   * `upsert_billing_subscription_by_stripe_subscription_id`: the row for
   * `stripeSubscriptionId` gets the given customer and status, keeping its
   * surrogate key; when there is none, a row with the next key is inserted.
   */
  function UpsertSubscription(t: Tables, billingCustomerId: BillingCustomerId, stripeSubscriptionId: string,
                              status: StripeSubscriptionStatus): (r: Tables)
    ensures r.subscriptions.Keys == t.subscriptions.Keys + {stripeSubscriptionId}
    ensures r.subscriptions[stripeSubscriptionId].billingCustomerId == billingCustomerId
    ensures r.subscriptions[stripeSubscriptionId].stripeSubscriptionId == stripeSubscriptionId
    ensures r.subscriptions[stripeSubscriptionId].stripeSubscriptionStatus == status
    ensures r.subscriptions[stripeSubscriptionId].id ==
            if stripeSubscriptionId in t.subscriptions then t.subscriptions[stripeSubscriptionId].id
            else t.nextSubscriptionId
    ensures forall k :: k in t.subscriptions && k != stripeSubscriptionId ==> r.subscriptions[k] == t.subscriptions[k]
    ensures r.nextSubscriptionId == t.nextSubscriptionId + if stripeSubscriptionId in t.subscriptions then 0 else 1
    ensures r.users == t.users && r.customers == t.customers && r.nextCustomerId == t.nextCustomerId
  {
    if stripeSubscriptionId in t.subscriptions then
      var row := t.subscriptions[stripeSubscriptionId];
      t.(subscriptions := t.subscriptions[stripeSubscriptionId :=
           row.(billingCustomerId := billingCustomerId, stripeSubscriptionId := stripeSubscriptionId,
                stripeSubscriptionStatus := status)])
    else
      var row := BillingSubscription(t.nextSubscriptionId, billingCustomerId, stripeSubscriptionId, status);
      t.(subscriptions := t.subscriptions[stripeSubscriptionId := row],
         nextSubscriptionId := t.nextSubscriptionId + 1)
  }

  /** The store as a mutable object; `Snapshot` is its contents as a value. */
  class Database {
    var users: map<string, UserId>
    var customers: map<string, BillingCustomer>
    var subscriptions: map<string, BillingSubscription>
    var nextCustomerId: BillingCustomerId
    var nextSubscriptionId: BillingSubscriptionId

    constructor (users: map<string, UserId>)
      ensures Snapshot() == Tables(users, map[], map[], 0, 0)
      ensures Valid(Snapshot())
    {
      this.users := users;
      customers := map[];
      subscriptions := map[];
      nextCustomerId := 0;
      nextSubscriptionId := 0;
    }

    function Snapshot(): Tables
      reads this
    {
      Tables(users, customers, subscriptions, nextCustomerId, nextSubscriptionId)
    }

    method GetBillingCustomerByStripeCustomerId(stripeCustomerId: string) returns (r: Option<BillingCustomer>)
      ensures r == LookupCustomer(Snapshot(), stripeCustomerId)
    {
      r := if stripeCustomerId in customers then Some(customers[stripeCustomerId]) else None;
    }

    method GetUserByEmail(email: string) returns (r: Option<UserId>)
      ensures r == LookupUser(Snapshot(), email)
    {
      r := if email in users then Some(users[email]) else None;
    }

    method CreateBillingCustomer(userId: UserId, stripeCustomerId: string) returns (row: BillingCustomer)
      modifies this
      ensures (row, Snapshot()) == CreateCustomer(old(Snapshot()), userId, stripeCustomerId)
    {
      row := BillingCustomer(nextCustomerId, userId, stripeCustomerId);
      customers := customers[stripeCustomerId := row];
      nextCustomerId := nextCustomerId + 1;
    }

    method UpsertBillingSubscriptionByStripeSubscriptionId(billingCustomerId: BillingCustomerId,
                                                           stripeSubscriptionId: string,
                                                           status: StripeSubscriptionStatus)
      modifies this
      ensures Snapshot() == UpsertSubscription(old(Snapshot()), billingCustomerId, stripeSubscriptionId, status)
    {
      if stripeSubscriptionId in subscriptions {
        var row := subscriptions[stripeSubscriptionId];
        subscriptions := subscriptions[stripeSubscriptionId :=
          row.(billingCustomerId := billingCustomerId, stripeSubscriptionId := stripeSubscriptionId,
               stripeSubscriptionStatus := status)];
      } else {
        subscriptions := subscriptions[stripeSubscriptionId :=
          BillingSubscription(nextSubscriptionId, billingCustomerId, stripeSubscriptionId, status)];
        nextSubscriptionId := nextSubscriptionId + 1;
      }
    }
  }
}
