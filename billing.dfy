/**
 * Reconciliation of the local billing tables with Stripe: the status
 * translation, the customer resolver, the two event handlers, the polling
 * loop that dispatches events page by page, and the subscription-selection
 * rule of the management endpoint.
 *
 * Each step is given twice: as a function over a `World` value (the
 * specification) and as a method over the `Database` and `StripeClient`
 * objects that does what the Rust code does, call by call, and is proved to
 * agree with the function.
 */
module Billing {
  import opened Wrappers
  import opened DbIds
  import opened BillingSubscriptionTable
  import S = Stripe
  import opened Db

  datatype Error =
    | StripeFailure(cause: S.StripeError)
    | UnexpectedPayload(eventId: S.EventId)
    | BillingCustomerNotFound
    | SubscriptionNotFound
    | MultipleActiveSubscriptions
    | NoActiveSubscriptions

  // ---------------------------------------------------------------------
  // Status mapper
  // ---------------------------------------------------------------------

  /** `From<SubscriptionStatus> for StripeSubscriptionStatus`: every status to the one of the same name. */
  function MapStatus(s: S.SubscriptionStatus): (r: StripeSubscriptionStatus)
    ensures Encode(r) == S.WireName(s)
  {
    match s
    case Incomplete => StripeSubscriptionStatus.Incomplete
    case IncompleteExpired => StripeSubscriptionStatus.IncompleteExpired
    case Trialing => StripeSubscriptionStatus.Trialing
    case Active => StripeSubscriptionStatus.Active
    case PastDue => StripeSubscriptionStatus.PastDue
    case Canceled => StripeSubscriptionStatus.Canceled
    case Unpaid => StripeSubscriptionStatus.Unpaid
    case Paused => StripeSubscriptionStatus.Paused
  }

  // ---------------------------------------------------------------------
  // Specification: the observable state and one function per step
  // ---------------------------------------------------------------------

  /** What the reconciliation can change or be seen to do: the tables, and the customers fetched from Stripe. */
  datatype World = World(tables: Tables, retrievals: seq<S.CustomerId>)

  /** The result of one step together with the world after it. */
  datatype Step<T> = Step(result: Result<T, Error>, world: World)

  /** `find_or_create_billing_customer`. */
  function ResolveCustomer(w: World, directory: map<S.CustomerId, S.Customer>, customerOrId: S.Expandable)
    : (r: Step<Option<BillingCustomer>>)
    ensures r.world.tables.users == w.tables.users
    ensures r.world.tables.subscriptions == w.tables.subscriptions
    ensures r.world.tables.nextSubscriptionId == w.tables.nextSubscriptionId
  {
    match LookupCustomer(w.tables, customerOrId.IdOf())
    case Some(existing) => Step(Ok(Some(existing)), w)
    case None =>
      var fetched := match customerOrId
                     case Id(id) => S.Retrieve(directory, id)
                     case Object(c) => Ok(c);
      var w1 := if customerOrId.Id? then w.(retrievals := w.retrievals + [customerOrId.id]) else w;
      match fetched
      case Err(e) => Step(Err(StripeFailure(e)), w1)
      case Ok(customer) =>
        match customer.email
        case None => Step(Ok(None), w1)
        case Some(email) =>
          match LookupUser(w1.tables, email)
          case None => Step(Ok(None), w1)
          case Some(user) =>
            var created := CreateCustomer(w1.tables, user, customer.id);
            Step(Ok(Some(created.0)), w1.(tables := created.1))
  }

  /** `handle_customer_event`. */
  function CustomerEventStep(w: World, directory: map<S.CustomerId, S.Customer>, event: S.Event): (r: Step<()>)
    ensures r.world.tables.users == w.tables.users
    ensures r.world.tables.subscriptions == w.tables.subscriptions
  {
    match event.payload
    case CustomerObject(customer) =>
      var resolved := ResolveCustomer(w, directory, S.Object(customer));
      (match resolved.result
       case Err(e) => Step(Err(e), resolved.world)
       case Ok(_) => Step(Ok(()), resolved.world))
    case _ => Step(Err(UnexpectedPayload(event.id)), w)
  }

  /** `handle_customer_subscription_event`. */
  function SubscriptionEventStep(w: World, directory: map<S.CustomerId, S.Customer>, event: S.Event): (r: Step<()>)
    ensures r.world.tables.users == w.tables.users
    ensures r.result.Ok? ==> event.payload.SubscriptionObject? &&
                             event.payload.subscription.id in r.world.tables.subscriptions
  {
    match event.payload
    case SubscriptionObject(subscription) =>
      var resolved := ResolveCustomer(w, directory, subscription.customer);
      (match resolved.result
       case Err(e) => Step(Err(e), resolved.world)
       case Ok(None) => Step(Err(BillingCustomerNotFound), resolved.world)
       case Ok(Some(billingCustomer)) =>
         var tables := UpsertSubscription(resolved.world.tables, billingCustomer.id, subscription.id,
                                          MapStatus(subscription.status));
         Step(Ok(()), resolved.world.(tables := tables)))
    case _ => Step(Err(UnexpectedPayload(event.id)), w)
  }

  /** The event types the poller asks Stripe for. */
  const PolledEventTypes: seq<S.EventType> := [
    S.CustomerCreated,
    S.CustomerSubscriptionCreated,
    S.CustomerSubscriptionUpdated,
    S.CustomerSubscriptionPaused,
    S.CustomerSubscriptionResumed,
    S.CustomerSubscriptionDeleted
  ]

  /** The request sent on every iteration: the six types, 100 per page, no cursor. */
  const PollRequest: S.ListEvents := S.ListEvents(PolledEventTypes, 100)

  predicate IsSubscriptionEventType(t: S.EventType) {
    || t == S.CustomerSubscriptionCreated
    || t == S.CustomerSubscriptionUpdated
    || t == S.CustomerSubscriptionPaused
    || t == S.CustomerSubscriptionResumed
    || t == S.CustomerSubscriptionDeleted
  }

  /** The `match event.type_` of the polling loop; other types are ignored. */
  function DispatchStep(w: World, directory: map<S.CustomerId, S.Customer>, event: S.Event): (r: Step<()>)
    ensures r.world.tables.users == w.tables.users
    ensures event.eventType !in PolledEventTypes ==> r == Step(Ok(()), w)
  {
    if event.eventType == S.CustomerCreated then CustomerEventStep(w, directory, event)
    else if IsSubscriptionEventType(event.eventType) then SubscriptionEventStep(w, directory, event)
    else Step(Ok(()), w)
  }

  /** The events of a page handled in order; every handler's error is dropped. */
  function ProcessEvents(w: World, directory: map<S.CustomerId, S.Customer>, events: seq<S.Event>): (r: World)
    ensures r.tables.users == w.tables.users
    decreases |events|
  {
    if events == [] then w
    else DispatchStep(ProcessEvents(w, directory, events[..|events| - 1]), directory, events[|events| - 1]).world
  }

  /** A list response that ends the polling loop: a failed fetch, or a page with `has_more` false. */
  predicate IsFinal(response: Result<S.EventList, S.StripeError>) {
    response.Err? || !response.value.hasMore
  }

  /** The provider answers with a final response at some point. */
  ghost predicate EventuallyFinal(responses: seq<Result<S.EventList, S.StripeError>>) {
    exists i :: 0 <= i < |responses| && IsFinal(responses[i])
  }

  /** The outcome of one polling cycle and how many list responses it consumed. */
  datatype PollOutcome = PollOutcome(result: Result<(), Error>, world: World, consumed: nat)

  /** `poll_stripe_events`: fetch a page, dispatch its events, repeat while `has_more`. */
  function Poll(w: World, directory: map<S.CustomerId, S.Customer>, responses: seq<Result<S.EventList, S.StripeError>>)
    : (p: PollOutcome)
    requires EventuallyFinal(responses)
    ensures 1 <= p.consumed <= |responses|
    decreases |responses|
  {
    match responses[0]
    case Err(e) => PollOutcome(Err(StripeFailure(e)), w, 1)
    case Ok(page) =>
      var w1 := ProcessEvents(w, directory, page.data);
      if !page.hasMore then PollOutcome(Ok(()), w1, 1)
      else
        assert EventuallyFinal(responses[1..]) by {
          var i :| 0 <= i < |responses| && IsFinal(responses[i]);
          assert i != 0 && IsFinal(responses[1..][i - 1]);
        }
        var rest := Poll(w1, directory, responses[1..]);
        rest.(consumed := rest.consumed + 1)
  }

  // ---------------------------------------------------------------------
  // Implementation over the store and the Stripe client
  // ---------------------------------------------------------------------

  ghost function WorldOf(db: Database, stripe: S.StripeClient): World
    reads db, stripe
  {
    World(db.Snapshot(), stripe.retrievals)
  }

  method FindOrCreateBillingCustomer(db: Database, stripe: S.StripeClient, customerOrId: S.Expandable)
    returns (r: Result<Option<BillingCustomer>, Error>)
    modifies db, stripe`retrievals
    ensures Step(r, WorldOf(db, stripe)) == ResolveCustomer(old(WorldOf(db, stripe)), stripe.directory, customerOrId)
  {
    var customerId := customerOrId.IdOf();
    var existing := db.GetBillingCustomerByStripeCustomerId(customerId);
    if existing.Some? {
      return Ok(existing);
    }
    var customer: S.Customer;
    match customerOrId {
      case Id(id) =>
        var fetched := stripe.RetrieveCustomer(id);
        if fetched.Err? {
          return Err(StripeFailure(fetched.error));
        }
        customer := fetched.value;
      case Object(c) =>
        customer := c;
    }
    if customer.email.None? {
      return Ok(None);
    }
    var user := db.GetUserByEmail(customer.email.value);
    if user.None? {
      return Ok(None);
    }
    var billingCustomer := db.CreateBillingCustomer(user.value, customer.id);
    return Ok(Some(billingCustomer));
  }

  method HandleCustomerEvent(db: Database, stripe: S.StripeClient, event: S.Event) returns (r: Result<(), Error>)
    modifies db, stripe`retrievals
    ensures Step(r, WorldOf(db, stripe)) == CustomerEventStep(old(WorldOf(db, stripe)), stripe.directory, event)
  {
    if !event.payload.CustomerObject? {
      return Err(UnexpectedPayload(event.id));
    }
    var resolved := FindOrCreateBillingCustomer(db, stripe, S.Object(event.payload.customer));
    if resolved.Err? {
      return Err(resolved.error);
    }
    return Ok(());
  }

  method HandleCustomerSubscriptionEvent(db: Database, stripe: S.StripeClient, event: S.Event)
    returns (r: Result<(), Error>)
    modifies db, stripe`retrievals
    ensures Step(r, WorldOf(db, stripe)) == SubscriptionEventStep(old(WorldOf(db, stripe)), stripe.directory, event)
  {
    if !event.payload.SubscriptionObject? {
      return Err(UnexpectedPayload(event.id));
    }
    var subscription := event.payload.subscription;
    var resolved := FindOrCreateBillingCustomer(db, stripe, subscription.customer);
    if resolved.Err? {
      return Err(resolved.error);
    }
    if resolved.value.None? {
      return Err(BillingCustomerNotFound);
    }
    var billingCustomer := resolved.value.value;
    db.UpsertBillingSubscriptionByStripeSubscriptionId(billingCustomer.id, subscription.id,
                                                       MapStatus(subscription.status));
    return Ok(());
  }

  /** `n` copies of the same request. */
  function Repeat(request: S.ListEvents, n: nat): (r: seq<S.ListEvents>)
    ensures |r| == n && forall i :: 0 <= i < n ==> r[i] == request
  {
    if n == 0 then [] else Repeat(request, n - 1) + [request]
  }

  method PollStripeEvents(db: Database, stripe: S.StripeClient) returns (r: Result<(), Error>)
    requires EventuallyFinal(stripe.responses)
    modifies db, stripe
    ensures var p := Poll(old(WorldOf(db, stripe)), stripe.directory, old(stripe.responses));
            && r == p.result
            && WorldOf(db, stripe) == p.world
            && stripe.responses == old(stripe.responses)[p.consumed..]
            && stripe.listRequests == old(stripe.listRequests) + Repeat(PollRequest, p.consumed)
  {
    ghost var w0 := WorldOf(db, stripe);
    ghost var responses0 := stripe.responses;
    ghost var requests0 := stripe.listRequests;
    ghost var consumed: nat := 0;
    while true
      invariant EventuallyFinal(stripe.responses)
      invariant consumed <= |responses0| && stripe.responses == responses0[consumed..]
      invariant stripe.listRequests == requests0 + Repeat(PollRequest, consumed)
      invariant var p := Poll(WorldOf(db, stripe), stripe.directory, stripe.responses);
                Poll(w0, stripe.directory, responses0) == p.(consumed := p.consumed + consumed)
      decreases |stripe.responses|
    {
      ghost var before := WorldOf(db, stripe);
      ghost var remaining := stripe.responses;
      var params := PollRequest;
      var events := stripe.ListEventsCall(params);
      consumed := consumed + 1;
      assert stripe.responses == responses0[consumed..];
      if events.Err? {
        return Err(StripeFailure(events.error));
      }
      var page := events.value;
      for i := 0 to |page.data|
        invariant WorldOf(db, stripe) == ProcessEvents(before, stripe.directory, page.data[..i])
        invariant stripe.responses == remaining[1..] && stripe.listRequests == requests0 + Repeat(PollRequest, consumed)
      {
        var event := page.data[i];
        assert page.data[..i + 1][..i] == page.data[..i];
        if event.eventType == S.CustomerCreated {
          var _ := HandleCustomerEvent(db, stripe, event);
        } else if IsSubscriptionEventType(event.eventType) {
          var _ := HandleCustomerSubscriptionEvent(db, stripe, event);
        }
      }
      assert page.data[..|page.data|] == page.data;
      if !page.hasMore {
        return Ok(());
      }
      assert EventuallyFinal(stripe.responses) by {
        var i :| 0 <= i < |remaining| && IsFinal(remaining[i]);
        assert i != 0 && IsFinal(remaining[1..][i - 1]);
      }
    }
  }

  // ---------------------------------------------------------------------
  // Subscription selection in `manage_billing_subscription`
  // ---------------------------------------------------------------------

  /**
   * Which subscription the management endpoint acts on. `byId` stands for
   * `get_billing_subscription_by_id` and `active` for the answer of
   * `get_active_billing_subscriptions` for the user.
   */
  function SelectSubscription(requested: Option<BillingSubscriptionId>,
                              byId: map<BillingSubscriptionId, BillingSubscription>,
                              active: seq<BillingSubscription>): (r: Result<BillingSubscription, Error>)
    ensures requested.Some? ==>
              && (r.Ok? <==> requested.value in byId)
              && (r.Ok? ==> r.value == byId[requested.value])
              && (r.Err? ==> r.error == SubscriptionNotFound)
    ensures requested.None? ==>
              && (r.Ok? <==> |active| == 1)
              && (r.Ok? ==> r.value == active[0])
              && (|active| > 1 ==> r == Err(MultipleActiveSubscriptions))
              && (|active| == 0 ==> r == Err(NoActiveSubscriptions))
  {
    match requested
    case Some(id) => if id in byId then Ok(byId[id]) else Err(SubscriptionNotFound)
    case None =>
      if |active| > 1 then Err(MultipleActiveSubscriptions)
      else if |active| == 0 then Err(NoActiveSubscriptions)
      else Ok(active[0])
  }
}
