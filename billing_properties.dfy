/**
 * What the reconciliation guarantees, proved about the specification
 * functions of `Billing` (and so, through the methods' postconditions,
 * about the methods).
 */
module BillingProperties {
  import opened Wrappers
  import opened DbIds
  import opened BillingSubscriptionTable
  import S = Stripe
  import opened Db
  import opened Billing

  // ---------------------------------------------------------------------
  // Status mapper
  // ---------------------------------------------------------------------

  /** No two Stripe statuses are collapsed into one local status. */
  lemma MapStatusInjective(a: S.SubscriptionStatus, b: S.SubscriptionStatus)
    ensures MapStatus(a) == MapStatus(b) ==> a == b
  {
  }

  /** Every local status is the image of some Stripe status: the mapper is a bijection. */
  lemma MapStatusSurjective(t: StripeSubscriptionStatus)
    ensures exists s :: MapStatus(s) == t
  {
    match t
    case Incomplete => assert MapStatus(S.SubscriptionStatus.Incomplete) == t;
    case IncompleteExpired => assert MapStatus(S.SubscriptionStatus.IncompleteExpired) == t;
    case Trialing => assert MapStatus(S.SubscriptionStatus.Trialing) == t;
    case Active => assert MapStatus(S.SubscriptionStatus.Active) == t;
    case PastDue => assert MapStatus(S.SubscriptionStatus.PastDue) == t;
    case Canceled => assert MapStatus(S.SubscriptionStatus.Canceled) == t;
    case Unpaid => assert MapStatus(S.SubscriptionStatus.Unpaid) == t;
    case Paused => assert MapStatus(S.SubscriptionStatus.Paused) == t;
  }

  /** The stored column value of a mapped status is Stripe's own name for it, and reads back as the same status. */
  lemma MapStatusStoredAsStripeName(s: S.SubscriptionStatus)
    ensures Decode(S.WireName(s)) == Some(MapStatus(s))
  {
    RoundTrip(MapStatus(s));
  }

  // ---------------------------------------------------------------------
  // Customer resolver
  // ---------------------------------------------------------------------

  /** The customer record the resolver works from once the local lookup missed. */
  predicate RecordIs(directory: map<S.CustomerId, S.Customer>, customerOrId: S.Expandable, customer: S.Customer) {
    match customerOrId
    case Id(id) => S.Retrieve(directory, id) == Ok(customer)
    case Object(c) => c == customer
  }

  /** Fast path: an existing billing customer is returned as is, with no fetch and no write. */
  lemma ResolveFastPath(w: World, directory: map<S.CustomerId, S.Customer>, customerOrId: S.Expandable)
    requires customerOrId.IdOf() in w.tables.customers
    ensures ResolveCustomer(w, directory, customerOrId) == Step(Ok(Some(w.tables.customers[customerOrId.IdOf()])), w)
  {
  }

  /** Stripe is asked for the customer exactly when only an id was given and the local lookup missed. */
  lemma ResolveFetchesOnlyOnBareIdMiss(w: World, directory: map<S.CustomerId, S.Customer>, customerOrId: S.Expandable)
    ensures ResolveCustomer(w, directory, customerOrId).world.retrievals ==
            w.retrievals + if customerOrId.Id? && customerOrId.id !in w.tables.customers then [customerOrId.id] else []
  {
  }

  /** An embedded customer record is used as it is: what Stripe's directory holds does not matter. */
  lemma ResolveUsesEmbeddedRecord(w: World, directory: map<S.CustomerId, S.Customer>,
                                  others: map<S.CustomerId, S.Customer>, customer: S.Customer)
    ensures ResolveCustomer(w, directory, S.Object(customer)) == ResolveCustomer(w, others, S.Object(customer))
  {
  }

  /** A failed fetch is an error and writes nothing. */
  lemma ResolveFetchFailure(w: World, directory: map<S.CustomerId, S.Customer>, id: S.CustomerId)
    requires id !in w.tables.customers && id !in directory
    ensures ResolveCustomer(w, directory, S.Id(id)).result == Err(StripeFailure(S.NoSuchCustomer(id)))
    ensures ResolveCustomer(w, directory, S.Id(id)).world.tables == w.tables
  {
  }

  /** A customer without an email, or whose email matches no user, resolves to nothing and creates no row. */
  lemma ResolveUnlinkable(w: World, directory: map<S.CustomerId, S.Customer>, customerOrId: S.Expandable,
                          customer: S.Customer)
    requires customerOrId.IdOf() !in w.tables.customers
    requires RecordIs(directory, customerOrId, customer)
    requires customer.email.None? || customer.email.value !in w.tables.users
    ensures ResolveCustomer(w, directory, customerOrId).result == Ok(None)
    ensures ResolveCustomer(w, directory, customerOrId).world.tables == w.tables
  {
  }

  /**
   * Otherwise exactly one billing customer is created, for the matched user
   * and the Stripe customer id, under a key that was free, and it is returned.
   */
  lemma ResolveCreates(w: World, directory: map<S.CustomerId, S.Customer>, customerOrId: S.Expandable,
                       customer: S.Customer)
    requires S.ConsistentDirectory(directory)
    requires customerOrId.IdOf() !in w.tables.customers
    requires RecordIs(directory, customerOrId, customer)
    requires customer.email.Some? && customer.email.value in w.tables.users
    ensures var row := BillingCustomer(w.tables.nextCustomerId, w.tables.users[customer.email.value], customerOrId.IdOf());
            var step := ResolveCustomer(w, directory, customerOrId);
            && step.result == Ok(Some(row))
            && step.world.tables.customers == w.tables.customers[customerOrId.IdOf() := row]
            && step.world.tables.nextCustomerId == w.tables.nextCustomerId + 1
            && step.world.tables.users == w.tables.users
            && step.world.tables.subscriptions == w.tables.subscriptions
  {
  }

  /** When the resolver finds nothing, it has written nothing. */
  lemma ResolveNoneWritesNothing(w: World, directory: map<S.CustomerId, S.Customer>, customerOrId: S.Expandable)
    ensures !(ResolveCustomer(w, directory, customerOrId).result.Ok? &&
              ResolveCustomer(w, directory, customerOrId).result.value.Some?) ==>
            ResolveCustomer(w, directory, customerOrId).world.tables == w.tables
  {
  }

  /**
   * Idempotence: after the resolver returned a billing customer, a second
   * call with the same argument takes the fast path and returns the same row.
   */
  lemma ResolveIdempotent(w: World, directory: map<S.CustomerId, S.Customer>, customerOrId: S.Expandable)
    requires S.ConsistentDirectory(directory)
    requires ResolveCustomer(w, directory, customerOrId).result.Ok?
    requires ResolveCustomer(w, directory, customerOrId).result.value.Some?
    ensures var first := ResolveCustomer(w, directory, customerOrId);
            ResolveCustomer(first.world, directory, customerOrId) == Step(first.result, first.world)
  {
    ResolveStoresUnderStripeId(w, directory, customerOrId);
  }

  /** Rows already in the billing-customer table stay as they are. */
  ghost predicate CustomersKept(t: Tables, t': Tables) {
    forall k :: k in t.customers ==> k in t'.customers && t'.customers[k] == t.customers[k]
  }

  lemma CustomerIdsGrow(t: Tables, t': Tables)
    requires CustomersKept(t, t')
    ensures CustomerIds(t) <= CustomerIds(t')
  {
    forall x | x in CustomerIds(t) ensures x in CustomerIds(t') {
      var k :| k in t.customers && t.customers[k].id == x;
      assert t'.customers[k].id == x;
    }
  }

  lemma CreatePreservesValid(t: Tables, userId: UserId, stripeCustomerId: string)
    requires Valid(t) && stripeCustomerId !in t.customers
    ensures Valid(CreateCustomer(t, userId, stripeCustomerId).1)
    ensures CustomersKept(t, CreateCustomer(t, userId, stripeCustomerId).1)
  {
    var t' := CreateCustomer(t, userId, stripeCustomerId).1;
    CustomerIdsGrow(t, t');
  }

  /** The resolver keeps the store valid (at most one row per Stripe customer id) and never changes a row. */
  lemma ResolvePreservesValid(w: World, directory: map<S.CustomerId, S.Customer>, customerOrId: S.Expandable)
    requires Valid(w.tables) && S.ConsistentDirectory(directory)
    ensures Valid(ResolveCustomer(w, directory, customerOrId).world.tables)
    ensures CustomersKept(w.tables, ResolveCustomer(w, directory, customerOrId).world.tables)
  {
    var id := customerOrId.IdOf();
    if id !in w.tables.customers {
      match customerOrId
      case Id(i) =>
        if i in directory && directory[i].email.Some? && directory[i].email.value in w.tables.users {
          CreatePreservesValid(w.tables, w.tables.users[directory[i].email.value], directory[i].id);
        }
      case Object(c) =>
        if c.email.Some? && c.email.value in w.tables.users {
          CreatePreservesValid(w.tables, w.tables.users[c.email.value], c.id);
        }
    }
  }

  // ---------------------------------------------------------------------
  // Subscription upsert
  // ---------------------------------------------------------------------

  /** Upserting twice under one Stripe subscription id is upserting once with the later values. */
  lemma UpsertTwiceKeepsLatest(t: Tables, first: BillingCustomerId, second: BillingCustomerId, id: string,
                               before: StripeSubscriptionStatus, after: StripeSubscriptionStatus)
    ensures UpsertSubscription(UpsertSubscription(t, first, id, before), second, id, after) ==
            UpsertSubscription(t, second, id, after)
  {
    var once := UpsertSubscription(t, second, id, after);
    var twice := UpsertSubscription(UpsertSubscription(t, first, id, before), second, id, after);
    assert twice.subscriptions == once.subscriptions;
  }

  /** An upsert for an existing billing customer keeps the store valid. */
  lemma UpsertPreservesValid(t: Tables, billingCustomerId: BillingCustomerId, id: string,
                             status: StripeSubscriptionStatus)
    requires Valid(t) && billingCustomerId in CustomerIds(t)
    ensures Valid(UpsertSubscription(t, billingCustomerId, id, status))
  {
    var t' := UpsertSubscription(t, billingCustomerId, id, status);
    assert CustomerIds(t') == CustomerIds(t);
  }

  // ---------------------------------------------------------------------
  // Event handlers
  // ---------------------------------------------------------------------

  /** Either handler rejects a payload of the wrong kind and writes nothing. */
  lemma WrongPayloadWritesNothing(w: World, directory: map<S.CustomerId, S.Customer>, event: S.Event)
    ensures !event.payload.CustomerObject? ==>
              CustomerEventStep(w, directory, event) == Step(Err(UnexpectedPayload(event.id)), w)
    ensures !event.payload.SubscriptionObject? ==>
              SubscriptionEventStep(w, directory, event) == Step(Err(UnexpectedPayload(event.id)), w)
  {
  }

  /** A customer event for a customer that links to no user still succeeds. */
  lemma UnlinkedCustomerEventSucceeds(w: World, directory: map<S.CustomerId, S.Customer>, event: S.Event)
    requires event.payload.CustomerObject?
    requires ResolveCustomer(w, directory, S.Object(event.payload.customer)).result == Ok(None)
    ensures CustomerEventStep(w, directory, event).result == Ok(())
    ensures CustomerEventStep(w, directory, event).world.tables == w.tables
  {
    ResolveNoneWritesNothing(w, directory, S.Object(event.payload.customer));
  }

  /** A subscription whose customer resolves to nothing is an error and nothing is upserted. */
  lemma UnresolvedSubscriptionIsError(w: World, directory: map<S.CustomerId, S.Customer>, event: S.Event)
    requires event.payload.SubscriptionObject?
    requires ResolveCustomer(w, directory, event.payload.subscription.customer).result == Ok(None)
    ensures SubscriptionEventStep(w, directory, event).result == Err(BillingCustomerNotFound)
    ensures SubscriptionEventStep(w, directory, event).world.tables == w.tables
  {
    ResolveNoneWritesNothing(w, directory, event.payload.subscription.customer);
  }

  /**
   * A subscription event whose customer resolves leaves exactly one row for
   * the subscription id, holding the resolved customer and the mapped
   * status; no other subscription row changes.
   */
  lemma SubscriptionEventUpserts(w: World, directory: map<S.CustomerId, S.Customer>, event: S.Event)
    requires event.payload.SubscriptionObject?
    requires var resolved := ResolveCustomer(w, directory, event.payload.subscription.customer);
             resolved.result.Ok? && resolved.result.value.Some?
    ensures var subscription := event.payload.subscription;
            var resolved := ResolveCustomer(w, directory, subscription.customer);
            var step := SubscriptionEventStep(w, directory, event);
            var rows := step.world.tables.subscriptions;
            && step.result == Ok(())
            && rows.Keys == resolved.world.tables.subscriptions.Keys + {subscription.id}
            && rows[subscription.id].billingCustomerId == resolved.result.value.value.id
            && rows[subscription.id].stripeSubscriptionStatus == MapStatus(subscription.status)
            && (forall k :: k in w.tables.subscriptions && k != subscription.id ==> rows[k] == w.tables.subscriptions[k])
  {
    ResolveKeepsSubscriptions(w, directory, event.payload.subscription.customer);
  }

  /** The resolver never touches the subscription table. */
  lemma ResolveKeepsSubscriptions(w: World, directory: map<S.CustomerId, S.Customer>,
                                           customerOrId: S.Expandable)
    ensures ResolveCustomer(w, directory, customerOrId).world.tables.subscriptions == w.tables.subscriptions
  {
  }

  /** The event types the poller asks for are the six it dispatches. */
  lemma PolledTypesAreDispatched(t: S.EventType)
    ensures t in PolledEventTypes <==> t == S.CustomerCreated || IsSubscriptionEventType(t)
  {
  }

  /** A handler that fails has written nothing to the store. */
  lemma FailedHandlerWritesNothing(w: World, directory: map<S.CustomerId, S.Customer>, event: S.Event)
    ensures DispatchStep(w, directory, event).result.Err? ==> DispatchStep(w, directory, event).world.tables == w.tables
  {
    if event.payload.CustomerObject? {
      ResolveNoneWritesNothing(w, directory, S.Object(event.payload.customer));
    }
    if event.payload.SubscriptionObject? {
      ResolveNoneWritesNothing(w, directory, event.payload.subscription.customer);
    }
  }

  /** A billing customer the resolver returns is the row stored under the Stripe customer id. */
  lemma ResolveStoresUnderStripeId(w: World, directory: map<S.CustomerId, S.Customer>, customerOrId: S.Expandable)
    requires S.ConsistentDirectory(directory)
    requires ResolveCustomer(w, directory, customerOrId).result.Ok?
    requires ResolveCustomer(w, directory, customerOrId).result.value.Some?
    ensures var step := ResolveCustomer(w, directory, customerOrId);
            && customerOrId.IdOf() in step.world.tables.customers
            && step.world.tables.customers[customerOrId.IdOf()] == step.result.value.value
  {
    var id := customerOrId.IdOf();
    if id !in w.tables.customers {
      var customer := match customerOrId case Id(i) => directory[i] case Object(c) => c;
      assert customer.id == id;
    }
  }

  lemma CustomerEventPreservesValid(w: World, directory: map<S.CustomerId, S.Customer>, event: S.Event)
    requires Valid(w.tables) && S.ConsistentDirectory(directory)
    ensures Valid(CustomerEventStep(w, directory, event).world.tables)
  {
    if event.payload.CustomerObject? {
      ResolvePreservesValid(w, directory, S.Object(event.payload.customer));
    }
  }

  lemma SubscriptionEventPreservesValid(w: World, directory: map<S.CustomerId, S.Customer>, event: S.Event)
    requires Valid(w.tables) && S.ConsistentDirectory(directory)
    ensures Valid(SubscriptionEventStep(w, directory, event).world.tables)
  {
    if event.payload.SubscriptionObject? {
      var subscription := event.payload.subscription;
      var resolved := ResolveCustomer(w, directory, subscription.customer);
      ResolvePreservesValid(w, directory, subscription.customer);
      if resolved.result.Ok? && resolved.result.value.Some? {
        var t := resolved.world.tables;
        var row := resolved.result.value.value;
        ResolveStoresUnderStripeId(w, directory, subscription.customer);
        assert row.id in CustomerIds(t) by {
          assert t.customers[subscription.customer.IdOf()].id == row.id;
        }
        UpsertPreservesValid(t, row.id, subscription.id, MapStatus(subscription.status));
      }
    }
  }

  /** Handling an event keeps the store valid. */
  lemma DispatchPreservesValid(w: World, directory: map<S.CustomerId, S.Customer>, event: S.Event)
    requires Valid(w.tables) && S.ConsistentDirectory(directory)
    ensures Valid(DispatchStep(w, directory, event).world.tables)
  {
    CustomerEventPreservesValid(w, directory, event);
    SubscriptionEventPreservesValid(w, directory, event);
  }

  // ---------------------------------------------------------------------
  // One page of events
  // ---------------------------------------------------------------------

  /** Handling `a` then `b` is handling `a + b`. */
  lemma {:induction false} ProcessEventsAppend(w: World, directory: map<S.CustomerId, S.Customer>,
                                               a: seq<S.Event>, b: seq<S.Event>)
    ensures ProcessEvents(w, directory, a + b) == ProcessEvents(ProcessEvents(w, directory, a), directory, b)
    decreases |b|
  {
    if b == [] {
      assert a + b == a;
    } else {
      var n := |b| - 1;
      assert (a + b)[..|a + b| - 1] == a + b[..n];
      assert (a + b)[|a + b| - 1] == b[n];
      ProcessEventsAppend(w, directory, a, b[..n]);
    }
  }

  /** How the store evolves does not depend on which customers were fetched before. */
  lemma {:induction false} TablesIgnoreRetrievals(t: Tables, before: seq<S.CustomerId>, other: seq<S.CustomerId>,
                                                  directory: map<S.CustomerId, S.Customer>, events: seq<S.Event>)
    ensures ProcessEvents(World(t, before), directory, events).tables ==
            ProcessEvents(World(t, other), directory, events).tables
    decreases |events|
  {
    if events != [] {
      var n := |events| - 1;
      TablesIgnoreRetrievals(t, before, other, directory, events[..n]);
      var w1 := ProcessEvents(World(t, before), directory, events[..n]);
      var w2 := ProcessEvents(World(t, other), directory, events[..n]);
      DispatchIgnoresRetrievals(w1.tables, w1.retrievals, w2.retrievals, directory, events[n]);
      assert w1 == World(w1.tables, w1.retrievals) && w2 == World(w1.tables, w2.retrievals);
    }
  }

  lemma DispatchIgnoresRetrievals(t: Tables, before: seq<S.CustomerId>, other: seq<S.CustomerId>,
                                  directory: map<S.CustomerId, S.Customer>, event: S.Event)
    ensures DispatchStep(World(t, before), directory, event).result ==
            DispatchStep(World(t, other), directory, event).result
    ensures DispatchStep(World(t, before), directory, event).world.tables ==
            DispatchStep(World(t, other), directory, event).world.tables
  {
    if event.payload.CustomerObject? {
      ResolveIgnoresRetrievals(t, before, other, directory, S.Object(event.payload.customer));
    }
    if event.payload.SubscriptionObject? {
      ResolveIgnoresRetrievals(t, before, other, directory, event.payload.subscription.customer);
    }
  }

  lemma ResolveIgnoresRetrievals(t: Tables, before: seq<S.CustomerId>, other: seq<S.CustomerId>,
                                 directory: map<S.CustomerId, S.Customer>, customerOrId: S.Expandable)
    ensures ResolveCustomer(World(t, before), directory, customerOrId).result ==
            ResolveCustomer(World(t, other), directory, customerOrId).result
    ensures ResolveCustomer(World(t, before), directory, customerOrId).world.tables ==
            ResolveCustomer(World(t, other), directory, customerOrId).world.tables
  {
  }

  /**
   * Per-event isolation: when the handler of event `k` fails, the store ends
   * as if that event had not been in the page, so every later event is
   * still handled in full.
   */
  lemma FailedEventIsSkipped(w: World, directory: map<S.CustomerId, S.Customer>, events: seq<S.Event>, k: nat)
    requires k < |events|
    requires DispatchStep(ProcessEvents(w, directory, events[..k]), directory, events[k]).result.Err?
    ensures ProcessEvents(w, directory, events).tables ==
            ProcessEvents(w, directory, events[..k] + events[k + 1..]).tables
  {
    var before := ProcessEvents(w, directory, events[..k]);
    var failed := DispatchStep(before, directory, events[k]).world;
    FailedHandlerWritesNothing(before, directory, events[k]);
    assert events == events[..k] + ([events[k]] + events[k + 1..]);
    ProcessEventsAppend(w, directory, events[..k], [events[k]] + events[k + 1..]);
    ProcessEventsAppend(before, directory, [events[k]], events[k + 1..]);
    assert ProcessEvents(before, directory, [events[k]]) == failed by {
      assert [events[k]][..0] == [];
    }
    ProcessEventsAppend(w, directory, events[..k], events[k + 1..]);
    TablesIgnoreRetrievals(before.tables, failed.retrievals, before.retrievals, directory, events[k + 1..]);
    assert failed == World(before.tables, failed.retrievals);
  }

  /**
   * The events of `events` whose type the poller dispatches, in their order
   * (`PolledOnlyAppend` gives the order).
   */
  function PolledOnly(events: seq<S.Event>): (r: seq<S.Event>)
    ensures forall i :: 0 <= i < |r| ==> r[i].eventType in PolledEventTypes
    ensures forall e :: e in r <==> e in events && e.eventType in PolledEventTypes
    decreases |events|
  {
    if events == [] then []
    else
      var n := |events| - 1;
      PolledOnly(events[..n]) + if events[n].eventType in PolledEventTypes then [events[n]] else []
  }

  /** Filtering a concatenation is concatenating the filtered parts, so the order of the kept events is the page's. */
  lemma {:induction false} PolledOnlyAppend(a: seq<S.Event>, b: seq<S.Event>)
    ensures PolledOnly(a + b) == PolledOnly(a) + PolledOnly(b)
    decreases |b|
  {
    if b == [] {
      assert a + b == a;
    } else {
      var n := |b| - 1;
      assert (a + b)[..|a + b| - 1] == a + b[..n];
      assert (a + b)[|a + b| - 1] == b[n];
      PolledOnlyAppend(a, b[..n]);
    }
  }

  /** Events of other types could be removed from the page without changing anything. */
  lemma {:induction false} OnlyPolledTypesMatter(w: World, directory: map<S.CustomerId, S.Customer>,
                                                 events: seq<S.Event>)
    ensures ProcessEvents(w, directory, events) == ProcessEvents(w, directory, PolledOnly(events))
    decreases |events|
  {
    if events != [] {
      var n := |events| - 1;
      OnlyPolledTypesMatter(w, directory, events[..n]);
      var kept := if events[n].eventType in PolledEventTypes then [events[n]] else [];
      ProcessEventsAppend(w, directory, PolledOnly(events[..n]), kept);
      if kept != [] {
        assert kept[..0] == [];
      }
    }
  }

  lemma {:induction false} ProcessEventsPreservesValid(w: World, directory: map<S.CustomerId, S.Customer>,
                                                       events: seq<S.Event>)
    requires Valid(w.tables) && S.ConsistentDirectory(directory)
    ensures Valid(ProcessEvents(w, directory, events).tables)
    decreases |events|
  {
    if events != [] {
      var n := |events| - 1;
      ProcessEventsPreservesValid(w, directory, events[..n]);
      DispatchPreservesValid(ProcessEvents(w, directory, events[..n]), directory, events[n]);
    }
  }

  // ---------------------------------------------------------------------
  // The polling cycle
  // ---------------------------------------------------------------------

  /** The index of the first final list response. */
  function FirstFinal(responses: seq<Result<S.EventList, S.StripeError>>): (i: nat)
    requires EventuallyFinal(responses)
    ensures i < |responses| && IsFinal(responses[i])
    ensures forall j :: 0 <= j < i ==> !IsFinal(responses[j])
    decreases |responses|
  {
    if IsFinal(responses[0]) then 0
    else
      assert EventuallyFinal(responses[1..]) by {
        var i :| 0 <= i < |responses| && IsFinal(responses[i]);
        assert i != 0 && IsFinal(responses[1..][i - 1]);
      }
      var i := FirstFinal(responses[1..]);
      assert forall j :: 1 <= j <= i ==> responses[j] == responses[1..][j - 1];
      i + 1
  }

  /** The events of the pages among `responses`, in order. */
  function EventsOf(responses: seq<Result<S.EventList, S.StripeError>>): seq<S.Event>
    decreases |responses|
  {
    if responses == [] then []
    else (if responses[0].Ok? then responses[0].value.data else []) + EventsOf(responses[1..])
  }

  /**
   * A cycle consumes the responses up to and including the first final one,
   * and fails exactly when that response is a failed fetch.
   */
  lemma {:induction false} PollConsumesThroughFirstFinal(w: World, directory: map<S.CustomerId, S.Customer>,
                                                         responses: seq<Result<S.EventList, S.StripeError>>)
    requires EventuallyFinal(responses)
    ensures Poll(w, directory, responses).consumed == FirstFinal(responses) + 1
    ensures Poll(w, directory, responses).result.Err? <==> responses[FirstFinal(responses)].Err?
    ensures responses[FirstFinal(responses)].Err? ==>
              Poll(w, directory, responses).result == Err(StripeFailure(responses[FirstFinal(responses)].error))
    decreases |responses|
  {
    if !IsFinal(responses[0]) {
      var w1 := ProcessEvents(w, directory, responses[0].value.data);
      PollConsumesThroughFirstFinal(w1, directory, responses[1..]);
    }
  }

  /** A cycle handles every event of the pages it consumed exactly once, in order. */
  lemma {:induction false} PollHandlesEveryEventOnce(w: World, directory: map<S.CustomerId, S.Customer>,
                                                     responses: seq<Result<S.EventList, S.StripeError>>)
    requires EventuallyFinal(responses)
    ensures var p := Poll(w, directory, responses);
            p.world == ProcessEvents(w, directory, EventsOf(responses[..p.consumed]))
    decreases |responses|
  {
    var p := Poll(w, directory, responses);
    if IsFinal(responses[0]) {
      var first := responses[..1];
      assert first[0] == responses[0] && first[1..] == [];
      assert EventsOf(first) == (if responses[0].Ok? then responses[0].value.data else []) + EventsOf([]);
      if responses[0].Ok? {
        assert EventsOf(first) == responses[0].value.data;
      }
    } else {
      var page := responses[0].value;
      var w1 := ProcessEvents(w, directory, page.data);
      var rest := Poll(w1, directory, responses[1..]);
      PollHandlesEveryEventOnce(w1, directory, responses[1..]);
      assert responses[..p.consumed][1..] == responses[1..][..rest.consumed];
      assert EventsOf(responses[..p.consumed]) == page.data + EventsOf(responses[1..][..rest.consumed]);
      ProcessEventsAppend(w, directory, page.data, EventsOf(responses[1..][..rest.consumed]));
    }
  }

  /** A cycle keeps the store valid for any script of page answers, when Stripe returns each customer under its own id. */
  lemma {:induction false} PollPreservesValid(w: World, directory: map<S.CustomerId, S.Customer>,
                                              responses: seq<Result<S.EventList, S.StripeError>>)
    requires EventuallyFinal(responses)
    requires Valid(w.tables) && S.ConsistentDirectory(directory)
    ensures Valid(Poll(w, directory, responses).world.tables)
    decreases |responses|
  {
    if responses[0].Ok? {
      var w1 := ProcessEvents(w, directory, responses[0].value.data);
      ProcessEventsPreservesValid(w, directory, responses[0].value.data);
      if responses[0].value.hasMore {
        PollPreservesValid(w1, directory, responses[1..]);
      }
    }
  }

  // ---------------------------------------------------------------------
  // Billing customers, once created, stay
  // ---------------------------------------------------------------------

  lemma CustomersKeptTransitive(t1: Tables, t2: Tables, t3: Tables)
    requires CustomersKept(t1, t2) && CustomersKept(t2, t3)
    ensures CustomersKept(t1, t3)
  {
  }

  /** Handling an event never changes or removes a billing customer. */
  lemma DispatchKeepsCustomers(w: World, directory: map<S.CustomerId, S.Customer>, event: S.Event)
    requires Valid(w.tables) && S.ConsistentDirectory(directory)
    ensures CustomersKept(w.tables, DispatchStep(w, directory, event).world.tables)
  {
    CustomerEventKeepsCustomers(w, directory, event);
    SubscriptionEventKeepsCustomers(w, directory, event);
  }

  lemma CustomerEventKeepsCustomers(w: World, directory: map<S.CustomerId, S.Customer>, event: S.Event)
    requires Valid(w.tables) && S.ConsistentDirectory(directory)
    ensures CustomersKept(w.tables, CustomerEventStep(w, directory, event).world.tables)
  {
    if event.payload.CustomerObject? {
      ResolvePreservesValid(w, directory, S.Object(event.payload.customer));
    }
  }

  lemma SubscriptionEventKeepsCustomers(w: World, directory: map<S.CustomerId, S.Customer>, event: S.Event)
    requires Valid(w.tables) && S.ConsistentDirectory(directory)
    ensures CustomersKept(w.tables, SubscriptionEventStep(w, directory, event).world.tables)
  {
    if event.payload.SubscriptionObject? {
      var resolved := ResolveCustomer(w, directory, event.payload.subscription.customer);
      ResolvePreservesValid(w, directory, event.payload.subscription.customer);
      assert SubscriptionEventStep(w, directory, event).world.tables.customers == resolved.world.tables.customers;
    }
  }

  /** A page of events never changes or removes a billing customer. */
  lemma {:induction false} ProcessEventsKeepsCustomers(w: World, directory: map<S.CustomerId, S.Customer>,
                                                       events: seq<S.Event>)
    requires Valid(w.tables) && S.ConsistentDirectory(directory)
    ensures CustomersKept(w.tables, ProcessEvents(w, directory, events).tables)
    decreases |events|
  {
    if events != [] {
      var n := |events| - 1;
      var before := ProcessEvents(w, directory, events[..n]);
      ProcessEventsKeepsCustomers(w, directory, events[..n]);
      ProcessEventsPreservesValid(w, directory, events[..n]);
      DispatchKeepsCustomers(before, directory, events[n]);
      CustomersKeptTransitive(w.tables, before.tables, DispatchStep(before, directory, events[n]).world.tables);
    }
  }

  /** A polling cycle never changes or removes a billing customer. */
  lemma {:induction false} PollKeepsCustomers(w: World, directory: map<S.CustomerId, S.Customer>,
                                              responses: seq<Result<S.EventList, S.StripeError>>)
    requires EventuallyFinal(responses)
    requires Valid(w.tables) && S.ConsistentDirectory(directory)
    ensures CustomersKept(w.tables, Poll(w, directory, responses).world.tables)
    decreases |responses|
  {
    if responses[0].Ok? {
      var w1 := ProcessEvents(w, directory, responses[0].value.data);
      ProcessEventsKeepsCustomers(w, directory, responses[0].value.data);
      if responses[0].value.hasMore {
        ProcessEventsPreservesValid(w, directory, responses[0].value.data);
        PollKeepsCustomers(w1, directory, responses[1..]);
        CustomersKeptTransitive(w.tables, w1.tables, Poll(w1, directory, responses[1..]).world.tables);
      }
    }
  }

  /**
   * Once a billing customer exists for a Stripe customer id, every later
   * resolution of that id, after any number of events of a page, takes the
   * fast path: it returns that same row, fetches nothing and writes nothing.
   */
  lemma KnownCustomerResolvesFastAfterEvents(w: World, directory: map<S.CustomerId, S.Customer>,
                                             events: seq<S.Event>, customerOrId: S.Expandable)
    requires Valid(w.tables) && S.ConsistentDirectory(directory)
    requires customerOrId.IdOf() in w.tables.customers
    ensures var later := ProcessEvents(w, directory, events);
            ResolveCustomer(later, directory, customerOrId) ==
            Step(Ok(Some(w.tables.customers[customerOrId.IdOf()])), later)
  {
    ProcessEventsKeepsCustomers(w, directory, events);
  }

  /** The same across a whole polling cycle. */
  lemma KnownCustomerResolvesFastAfterPoll(w: World, directory: map<S.CustomerId, S.Customer>,
                                           responses: seq<Result<S.EventList, S.StripeError>>,
                                           customerOrId: S.Expandable)
    requires EventuallyFinal(responses)
    requires Valid(w.tables) && S.ConsistentDirectory(directory)
    requires customerOrId.IdOf() in w.tables.customers
    ensures var later := Poll(w, directory, responses).world;
            ResolveCustomer(later, directory, customerOrId) ==
            Step(Ok(Some(w.tables.customers[customerOrId.IdOf()])), later)
  {
    PollKeepsCustomers(w, directory, responses);
  }
}
