/**
 * The part of the Stripe API the reconciliation reads: customers,
 * subscriptions, events and the list/retrieve calls, with the provider
 * abstracted as a customer directory and a finite script of answers to
 * successive event-list calls.
 */
module Stripe {
  import opened Wrappers

  type CustomerId = string
  type SubscriptionId = string
  type EventId = string

  /** Stripe's own subscription-status vocabulary. */
  datatype SubscriptionStatus =
    | Incomplete
    | IncompleteExpired
    | Trialing
    | Active
    | PastDue
    | Canceled
    | Unpaid
    | Paused

  /** The snake_case spelling Stripe's API uses for each status. */
  function WireName(s: SubscriptionStatus): string {
    match s
    case Incomplete => "incomplete"
    case IncompleteExpired => "incomplete_expired"
    case Trialing => "trialing"
    case Active => "active"
    case PastDue => "past_due"
    case Canceled => "canceled"
    case Unpaid => "unpaid"
    case Paused => "paused"
  }

  /** A Stripe customer; only the fields the reconciliation reads. */
  datatype Customer = Customer(id: CustomerId, email: Option<string>)

  /** `Expandable<Customer>`: a bare id, or the customer record embedded in the payload. */
  datatype Expandable = Id(id: CustomerId) | Object(customer: Customer) {

    /** The customer id carried either way (no network call needed). */
    function IdOf(): CustomerId {
      match this
      case Id(id) => id
      case Object(c) => c.id
    }
  }

  datatype Subscription = Subscription(id: SubscriptionId, customer: Expandable, status: SubscriptionStatus)

  /** The event types the reconciliation knows by name; every other type is `OtherEventType`. */
  datatype EventType =
    | CustomerCreated
    | CustomerSubscriptionCreated
    | CustomerSubscriptionUpdated
    | CustomerSubscriptionPaused
    | CustomerSubscriptionResumed
    | CustomerSubscriptionDeleted
    | OtherEventType(name: string)

  /** `EventObject`: the payload embedded in an event. */
  datatype EventObject =
    | CustomerObject(customer: Customer)
    | SubscriptionObject(subscription: Subscription)
    | OtherObject

  datatype Event = Event(id: EventId, eventType: EventType, payload: EventObject)

  /** One page of `Event::list`. */
  datatype EventList = EventList(data: seq<Event>, hasMore: bool)

  /** The parameters of an `Event::list` request; it has no pagination cursor. */
  datatype ListEvents = ListEvents(types: seq<EventType>, limit: nat)

  datatype StripeError = NoSuchCustomer(id: CustomerId) | ApiError(message: string)

  /** The provider stores every customer under its own id. */
  ghost predicate ConsistentDirectory(directory: map<CustomerId, Customer>) {
    forall id :: id in directory ==> directory[id].id == id
  }

  /** `Customer::retrieve`: fails for an id the provider does not know. */
  function Retrieve(directory: map<CustomerId, Customer>, id: CustomerId): (r: Result<Customer, StripeError>)
    ensures r.Ok? <==> id in directory
    ensures ConsistentDirectory(directory) && r.Ok? ==> r.value.id == id
  {
    if id in directory then Ok(directory[id]) else Err(NoSuchCustomer(id))
  }

  /**
   * A Stripe client. `responses` is what the provider will answer to the
   * coming `Event::list` calls, in order, one per call; `retrievals` and
   * `listRequests` record the calls made.
   */
  class StripeClient {
    const directory: map<CustomerId, Customer>
    var responses: seq<Result<EventList, StripeError>>
    var retrievals: seq<CustomerId>
    var listRequests: seq<ListEvents>

    constructor (directory: map<CustomerId, Customer>, responses: seq<Result<EventList, StripeError>>)
      ensures this.directory == directory && this.responses == responses
      ensures retrievals == [] && listRequests == []
    {
      this.directory := directory;
      this.responses := responses;
      retrievals := [];
      listRequests := [];
    }

    method RetrieveCustomer(id: CustomerId) returns (r: Result<Customer, StripeError>)
      modifies this`retrievals
      ensures r == Retrieve(directory, id)
      ensures retrievals == old(retrievals) + [id]
    {
      r := Retrieve(directory, id);
      retrievals := retrievals + [id];
    }

    method ListEventsCall(params: ListEvents) returns (r: Result<EventList, StripeError>)
      requires responses != []
      modifies this`responses, this`listRequests
      ensures r == old(responses[0]) && responses == old(responses[1..])
      ensures listRequests == old(listRequests) + [params]
    {
      r := responses[0];
      responses := responses[1..];
      listRequests := listRequests + [params];
    }
  }
}
