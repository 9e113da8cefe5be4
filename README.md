# Stripe billing reconciliation and language-model settings, in Dafny

This project models two parts of the collaboration server and editor:

- **Billing reconciliation** (`crates/collab/src/api/billing.rs`). The server polls Stripe for customer and
  subscription events, page by page. It resolves each event's Stripe customer to a local billing customer,
  creating one when the customer's email matches a user. It then upserts the local subscription row with
  the status translated from Stripe's vocabulary. The model also covers the rule
  `manage_billing_subscription` uses to pick the subscription it acts on.
- **The subscription table** (`crates/collab/src/db/tables/billing_subscription.rs`). This is the
  eight-variant status enum, with its stored strings and default, and the subscription record that belongs
  to a billing customer.
- **Language-model settings** (`crates/language_model/src/settings.rs`). `AllLanguageModelSettings::load`
  folds an ordered sequence of settings sources over the defaults. For each field the last source that
  supplies it wins, and timeouts are converted from seconds.

## Layout

| file | module | contents |
|---|---|---|
| `wrappers.dfy` | `Wrappers` | `Option`, `Result` |
| `billing_subscription.dfy` | `DbIds`, `BillingSubscriptionTable` | the status enum, its string codec and default, the subscription record |
| `stripe.dfy` | `Stripe` | customers, subscriptions, events, pages; `StripeClient`, the Stripe side as an object |
| `db.dfy` | `Db` | the store as a value (`Tables`), its integrity predicate `Valid`, and the `Database` class |
| `billing.dfy` | `Billing` | the status mapper, the specification functions, the methods, and the selection rule |
| `billing_properties.dfy` | `BillingProperties` | what the reconciliation guarantees, as lemmas |
| `billing_findings.dfy` | `BillingFindings` | the cursorless polling loop as written, and a cursor-driven variant |
| `settings.dfy` | `LanguageModelSettings` | `merge`, the `load` loop, and its specification and lemmas |

### How billing is modelled

The store is a `Database` object with three maps:

- users by email;
- billing customers keyed by `stripe_customer_id`;
- subscriptions keyed by `stripe_subscription_id`.

Surrogate keys come from two counters. The Stripe side is a `StripeClient` object holding three things:

- A fixed customer directory. `Customer::retrieve` fails for an unknown id.
- The script of answers the provider gives to successive `Event::list` calls, used up one per call.
- A log of the retrieve calls and list requests made.

Each operation is written twice:

- as a method that makes the same calls in the same order as the Rust function (`FindOrCreateBillingCustomer`,
  `HandleCustomerEvent`, `HandleCustomerSubscriptionEvent`, `PollStripeEvents`, with the `loop`, the inner
  `for` and the `break` on `!has_more`);
- as a function over a `World` value, which holds the tables and the retrieve log.

Each method's postcondition says that its result and new state are exactly what its function gives. All
of the lemmas in `BillingProperties` are therefore also facts about the methods.

`poll_stripe_events` builds the same `ListEvents` request, which has no cursor, on every iteration. So it
ends only when the provider answers with a failure or with a page whose `has_more` is false. The model
states this reliance as the precondition `EventuallyFinal` on the scripted answers. A provider that
answers the same request the same way never meets it once the first page has `has_more` set; see
the Findings section.
`PollStripeEvents` proves that every request sent is that same request: the six types, a limit of 100.

The database's `upsert_billing_subscription_by_stripe_subscription_id` is not part of this model. It is
modelled by the contract its call implies:

- the row for the Stripe subscription id ends with the given customer and status;
- an existing row keeps its surrogate key;
- a new row takes the next key.

With an explicit subscription id, the selection rule takes the row `get_billing_subscription_by_id`
returns. The code does not check that this row belongs to the requesting user, and neither does the model.

### How settings are modelled

`Load` is the `for` loop of `load`, one field at a time in the same order. `Merge` is the `merge` helper,
and the timeout branches are written out. The loop is proved to compute `Loaded`. For each field, `Loaded`
takes the last source that supplies a value (`LastOf`) over the default. The provider model types are
opaque.

## Model

| member | source | states |
|---|---|---|
| BillingSubscriptionTable.DefaultStatus | crates/collab/src/db/tables/billing_subscription.rs:40-42 | the default status is `Incomplete`, stored as "incomplete" |
| BillingSubscriptionTable.Encode | crates/collab/src/db/tables/billing_subscription.rs:41-56 | the `string_value` table: each variant's column value, a non-empty lower-case snake_case word |
| BillingSubscriptionTable.Decode | crates/collab/src/db/tables/billing_subscription.rs:38-57 | a stored string that decodes gives a status whose string value is that string |
| BillingSubscriptionTable.VariantSet | crates/collab/src/db/tables/billing_subscription.rs:39-57 | the enum has exactly eight variants, listed once each |
| BillingSubscriptionTable.EncodeInjective | crates/collab/src/db/tables/billing_subscription.rs:41-56 | distinct variants have distinct string values |
| BillingSubscriptionTable.RoundTrip | crates/collab/src/db/tables/billing_subscription.rs:38-57 | decoding the string value of any status gives that status back |
| BillingSubscriptionTable.DecodeOnlyStoredValues | crates/collab/src/db/tables/billing_subscription.rs:38-57 | a string decodes if and only if it is one of the eight string values |
| Stripe.Retrieve | crates/collab/src/api/billing.rs:363 | retrieval succeeds exactly for known ids and returns the customer with that id |
| Stripe.StripeClient.RetrieveCustomer | crates/collab/src/api/billing.rs:363 | returns the directory's answer and records the call |
| Stripe.StripeClient.ListEventsCall | crates/collab/src/api/billing.rs:255 | returns the provider's next answer, uses it up, and records the request |
| Db.Valid | crates/collab/src/db/tables/billing_subscription.rs:18-23 | the store's integrity: one row per Stripe customer id and per Stripe subscription id, each under its own id; distinct surrogate keys below the counters; every subscription's `billing_customer_id` is the id of an existing billing customer |
| Db.EmptyStoreValid | crates/collab/src/db/tables/billing_subscription.rs:18-23 | a store with users and no billing rows is valid |
| Db.Database.constructor | crates/collab/src/db/tables/billing_subscription.rs:18-23 | the store starts with the users, no billing rows, both counters at zero, and valid |
| Db.LookupCustomer | crates/collab/src/api/billing.rs:352-355 | finds a billing customer exactly when one is stored under the Stripe customer id |
| Db.LookupUser | crates/collab/src/api/billing.rs:371 | finds a user exactly when one has the email |
| Db.CreateCustomer | crates/collab/src/api/billing.rs:375-381 | the new row has the next key, the user and the Stripe id, and is stored under that id; nothing else changes |
| Db.UpsertSubscription | crates/collab/src/api/billing.rs:313-319 | exactly one row for the Stripe subscription id, holding the customer and status; its key is kept or is the next; other rows are unchanged |
| Db.Database.GetBillingCustomerByStripeCustomerId | crates/collab/src/api/billing.rs:352-355 | agrees with `LookupCustomer` on the current contents |
| Db.Database.GetUserByEmail | crates/collab/src/api/billing.rs:371 | agrees with `LookupUser` on the current contents |
| Db.Database.CreateBillingCustomer | crates/collab/src/api/billing.rs:375-381 | returns the row and leaves the store as `CreateCustomer` gives |
| Db.Database.UpsertBillingSubscriptionByStripeSubscriptionId | crates/collab/src/api/billing.rs:313-319 | leaves the store as `UpsertSubscription` gives |
| Billing.MapStatus | crates/collab/src/api/billing.rs:324-337 | each Stripe status maps to the local status stored under Stripe's own name for it |
| Billing.ResolveCustomer | crates/collab/src/api/billing.rs:340-384 | lookup by Stripe customer id, else the record (fetched only for a bare id), the user by email, and a new row; it never touches users or subscriptions |
| Billing.CustomerEventStep | crates/collab/src/api/billing.rs:284-297 | the payload check and the resolution of the embedded customer, whose value is dropped; subscriptions and users are untouched |
| Billing.SubscriptionEventStep | crates/collab/src/api/billing.rs:299-322 | the payload check, resolution, the not-found error and the upsert; on success a row for the subscription id exists |
| Billing.DispatchStep | crates/collab/src/api/billing.rs:257-273 | the `match` on the event type: `customer.created` to the customer handler, the five subscription types to the subscription handler; any other type changes nothing |
| Billing.ProcessEvents | crates/collab/src/api/billing.rs:256-274 | the `for` over a page: each event dispatched in order on the state the previous ones left, errors dropped; users are never changed |
| Billing.Poll | crates/collab/src/api/billing.rs:248-281 | a polling cycle uses at least one and at most all of the provider's answers |
| Billing.FindOrCreateBillingCustomer | crates/collab/src/api/billing.rs:340-384 | result, tables and fetches are those of `ResolveCustomer` |
| Billing.HandleCustomerEvent | crates/collab/src/api/billing.rs:284-297 | result, tables and fetches are those of `CustomerEventStep` |
| Billing.HandleCustomerSubscriptionEvent | crates/collab/src/api/billing.rs:299-322 | result, tables and fetches are those of `SubscriptionEventStep` |
| Billing.PollStripeEvents | crates/collab/src/api/billing.rs:228-282 | result and final state are those of `Poll`; exactly the answers `Poll` uses are used up, and each request sent is the six-type, 100-per-page request |
| Billing.SelectSubscription | crates/collab/src/api/billing.rs:156-172 | an explicit id selects its row or fails as not found; without one, exactly one active subscription is selected, and more or fewer is the matching error |
| BillingProperties.MapStatusInjective | crates/collab/src/api/billing.rs:324-337 | no two Stripe statuses map to the same local status |
| BillingProperties.MapStatusSurjective | crates/collab/src/api/billing.rs:324-337 | every local status is the image of some Stripe status |
| BillingProperties.MapStatusStoredAsStripeName | crates/collab/src/api/billing.rs:317 | the stored value of a mapped status is Stripe's name and decodes back to the mapped status |
| BillingProperties.ResolveFastPath | crates/collab/src/api/billing.rs:345-358 | an existing billing customer is returned with no fetch and no write |
| BillingProperties.ResolveFetchesOnlyOnBareIdMiss | crates/collab/src/api/billing.rs:362-365 | Stripe is asked for the customer exactly when only an id was given and the lookup missed |
| BillingProperties.ResolveUsesEmbeddedRecord | crates/collab/src/api/billing.rs:362-365 | with an embedded customer, the outcome does not depend on Stripe's directory |
| BillingProperties.ResolveFetchFailure | crates/collab/src/api/billing.rs:363 | a failed fetch is an error and writes nothing |
| BillingProperties.ResolveUnlinkable | crates/collab/src/api/billing.rs:367-373 | no email, or no user with the email, gives `Ok(None)` and creates no row |
| BillingProperties.ResolveCreates | crates/collab/src/api/billing.rs:375-383 | otherwise exactly one row is created for the matched user and the Stripe id, under that id, and returned |
| BillingProperties.ResolveNoneWritesNothing | crates/collab/src/api/billing.rs:340-384 | a resolver call that returns no billing customer leaves the tables unchanged |
| BillingProperties.ResolveIdempotent | crates/collab/src/api/billing.rs:352-358 | after a call returned a billing customer, the same call takes the fast path and returns the same row |
| BillingProperties.ResolveStoresUnderStripeId | crates/collab/src/api/billing.rs:352-381 | a returned billing customer is the row stored under the Stripe customer id |
| BillingProperties.CreatePreservesValid | crates/collab/src/api/billing.rs:375-381 | creating a row for a fresh Stripe id keeps the store valid and changes no existing row |
| BillingProperties.ResolvePreservesValid | crates/collab/src/api/billing.rs:340-384 | the resolver keeps at most one row per Stripe customer id, keeps keys distinct, and never changes a row |
| BillingProperties.UpsertTwiceKeepsLatest | crates/collab/src/api/billing.rs:313-319 | two upserts for one subscription id equal one upsert with the later values |
| BillingProperties.UpsertPreservesValid | crates/collab/src/db/tables/billing_subscription.rs:18-23 | an upsert for an existing billing customer keeps every subscription linked to an existing customer |
| BillingProperties.WrongPayloadWritesNothing | crates/collab/src/api/billing.rs:289-291 | either handler rejects a payload of the wrong kind, naming the event, and writes nothing |
| BillingProperties.UnlinkedCustomerEventSucceeds | crates/collab/src/api/billing.rs:293-296 | a customer event that resolves to nothing still succeeds and writes nothing |
| BillingProperties.UnresolvedSubscriptionIsError | crates/collab/src/api/billing.rs:308-311 | a subscription whose customer resolves to nothing is an error and nothing is upserted |
| BillingProperties.SubscriptionEventUpserts | crates/collab/src/api/billing.rs:308-321 | on success there is exactly one row for the subscription id, with the resolved customer and the mapped status; other rows are unchanged |
| BillingProperties.ResolveKeepsSubscriptions | crates/collab/src/api/billing.rs:340-384 | the resolver never touches the subscription table |
| BillingProperties.PolledTypesAreDispatched | crates/collab/src/api/billing.rs:232-273 | the six requested event types are exactly the six that reach a handler |
| BillingProperties.FailedHandlerWritesNothing | crates/collab/src/api/billing.rs:256-273 | a handler that fails has written nothing |
| BillingProperties.CustomerEventPreservesValid | crates/collab/src/api/billing.rs:284-297 | a customer event keeps the store valid |
| BillingProperties.SubscriptionEventPreservesValid | crates/collab/src/api/billing.rs:299-322 | a subscription event keeps the store valid, including the link to an existing billing customer |
| BillingProperties.DispatchPreservesValid | crates/collab/src/api/billing.rs:257-273 | handling any event keeps the store valid |
| BillingProperties.ProcessEventsAppend | crates/collab/src/api/billing.rs:256-274 | handling two runs of events one after the other is handling their concatenation |
| BillingProperties.ResolveIgnoresRetrievals | crates/collab/src/api/billing.rs:340-384 | the resolver's result and tables do not depend on earlier Stripe fetches |
| BillingProperties.DispatchIgnoresRetrievals | crates/collab/src/api/billing.rs:257-273 | a handler's result and tables do not depend on earlier Stripe fetches |
| BillingProperties.TablesIgnoreRetrievals | crates/collab/src/api/billing.rs:256-274 | how the tables evolve does not depend on earlier Stripe fetches |
| BillingProperties.FailedEventIsSkipped | crates/collab/src/api/billing.rs:259-270 | a failing event leaves the tables as if it were not in the page, so later events are handled in full |
| BillingProperties.PolledOnly | crates/collab/src/api/billing.rs:232-246 | an event is kept if and only if it is in the page and of one of the six requested types |
| BillingProperties.PolledOnlyAppend | crates/collab/src/api/billing.rs:256-273 | filtering a concatenation concatenates the filtered parts, so kept events stay in page order |
| BillingProperties.OnlyPolledTypesMatter | crates/collab/src/api/billing.rs:257-273 | dropping events of other types from a page changes nothing |
| BillingProperties.ProcessEventsPreservesValid | crates/collab/src/api/billing.rs:256-274 | a page of events keeps the store valid |
| BillingProperties.FirstFinal | crates/collab/src/api/billing.rs:255-278 | the first answer that fails or has `has_more` false |
| BillingProperties.PollConsumesThroughFirstFinal | crates/collab/src/api/billing.rs:248-281 | a cycle uses the answers up to and including the first final one, and fails, with that fetch's error, exactly when it is a failed fetch |
| BillingProperties.PollHandlesEveryEventOnce | crates/collab/src/api/billing.rs:248-281 | the final state is that of handling every event of every fetched page once, in order |
| BillingProperties.PollPreservesValid | crates/collab/src/api/billing.rs:228-282 | a polling cycle keeps the store valid for any script of page answers, provided Stripe returns each retrieved customer under the id asked for |
| BillingProperties.CustomersKeptTransitive | crates/collab/src/api/billing.rs:248-281 | keeping every billing customer composes over successive steps |
| BillingProperties.CustomerEventKeepsCustomers | crates/collab/src/api/billing.rs:284-297 | a customer event never changes or removes a billing customer |
| BillingProperties.SubscriptionEventKeepsCustomers | crates/collab/src/api/billing.rs:299-322 | a subscription event never changes or removes a billing customer |
| BillingProperties.DispatchKeepsCustomers | crates/collab/src/api/billing.rs:257-273 | handling any event never changes or removes a billing customer |
| BillingProperties.ProcessEventsKeepsCustomers | crates/collab/src/api/billing.rs:256-274 | a page of events never changes or removes a billing customer |
| BillingProperties.PollKeepsCustomers | crates/collab/src/api/billing.rs:248-281 | a polling cycle never changes or removes a billing customer |
| BillingProperties.KnownCustomerResolvesFastAfterEvents | crates/collab/src/api/billing.rs:352-358 | once a billing customer exists for a Stripe id, resolving that id after any run of events returns the same row with no fetch and no write |
| BillingProperties.KnownCustomerResolvesFastAfterPoll | crates/collab/src/api/billing.rs:352-358 | the same after a whole polling cycle |
| BillingFindings.RepeatedPageNeverFinal | crates/collab/src/api/billing.rs:248-279 | a provider that repeats a page with `has_more` set never gives the answer that ends the loop, for any number of calls |
| BillingFindings.PageAt | crates/collab/src/api/billing.rs:251-255 | the page a cursor-honouring provider returns: the next at most 100 events of the log from the cursor, with `has_more` exactly when events remain after them |
| BillingFindings.PollWithCursorHandlesEveryEventOnce | crates/collab/src/api/billing.rs:248-279 | the cursor-driven loop ends and handles every event of the log from the cursor exactly once, in order |
| LanguageModelSettings.FromSecs | crates/language_model/src/settings.rs:106 | the duration is that many seconds |
| LanguageModelSettings.Merge | crates/language_model/src/settings.rs:87-91 | `Some(v)` sets the target to exactly `v`; `None` leaves it |
| LanguageModelSettings.LastOf | crates/language_model/src/settings.rs:95-185 | a field's value in the last source that supplies it; nothing only when no source does |
| LanguageModelSettings.Loaded | crates/language_model/src/settings.rs:93-185 | the settings the fold produces: for each field the last supplied value over the default, timeouts converted from seconds; no sources give the defaults |
| LanguageModelSettings.Load | crates/language_model/src/settings.rs:86-188 | the loop always returns `Ok`, and its value is `Loaded` of the sources over the defaults |
| LanguageModelSettings.LastOfIsLastSupplied | crates/language_model/src/settings.rs:93-175 | nothing is found if and only if no source supplies the field; otherwise it is the value of a source that no later source overrides |
| LanguageModelSettings.LastOfDependsOnlyOnField | crates/language_model/src/settings.rs:95-185 | a field's last value depends only on that field of each source |
| LanguageModelSettings.AbsentSectionChangesNothing | crates/language_model/src/settings.rs:96-184 | a source whose provider section is absent leaves that provider's settings unchanged |
| LanguageModelSettings.AnthropicReadsOwnSection | crates/language_model/src/settings.rs:96-114 | the Anthropic settings are read from the Anthropic section only |
| LanguageModelSettings.OllamaReadsOwnSection | crates/language_model/src/settings.rs:116-127 | the Ollama settings are read from the Ollama section only |
| LanguageModelSettings.OpenAiReadsOwnSection | crates/language_model/src/settings.rs:129-147 | the OpenAI settings are read from the OpenAI section only |
| LanguageModelSettings.ZedDotDevReadsOwnSection | crates/language_model/src/settings.rs:149-155 | the zed.dev settings, only `available_models`, are read from the zed.dev section only |
| LanguageModelSettings.GoogleReadsOwnSection | crates/language_model/src/settings.rs:157-175 | the Google settings are read from the Google section only |
| LanguageModelSettings.CopilotChatReadsOwnSection | crates/language_model/src/settings.rs:177-184 | the Copilot Chat settings, only the timeout, are read from the Copilot Chat section only |
| LanguageModelSettings.MergeStepIsLastOf | crates/language_model/src/settings.rs:96-99 | merging one more source is taking the last value over the longer sequence |
| LanguageModelSettings.LastSupplierWins | crates/language_model/src/settings.rs:93-175 | the value of the last source that supplies a field is the result |
| LanguageModelSettings.TimeoutFromLastSeconds | crates/language_model/src/settings.rs:100-107 | a timeout is `Some` of the seconds given by the last source that gives them |
| LanguageModelSettings.TimeoutWithoutSecondsKeepsDefault | crates/language_model/src/settings.rs:100-107 | a timeout that no source gives keeps its default |

## Left out

- Checkout and billing-portal session construction (`create_billing_subscription`, the portal flow of
  `manage_billing_subscription`): these only assemble Stripe request parameters and fixed URLs.
- Stripe customer creation in `create_billing_subscription`: a call into the Stripe service with no local
  logic beyond it.
- `poll_stripe_events_periodically`: a detached task with an endless sleep loop, which is timers and
  concurrency. The model has no notion of its early return when no Stripe client is configured.
- The quote trimming of event-type names: it depends on the Stripe crate's `Display`, so the model's
  event types are an enum and the request carries them as values.
- `CustomerId::from_str` parsing, the sea_orm derives and the `Related`/`ActiveModelBehavior` plumbing:
  framework code.
- `created_at` timestamps and the database's own clock.
- Logging, and the `log_err` output of dropped handler errors; the errors are dropped, as in the code.
- Interleavings of concurrent resolvers: the code runs one loop, and so does the model.
- Database failures: every database call succeeds in the model. Only Stripe calls fail, as an unknown
  customer id or a failed page fetch.
- Transient `Customer::retrieve` failures: Stripe's customer directory is fixed for the whole run, so
  retrieving a known id never fails and always gives the same customer. A retrieve that fails on a network
  error and succeeds later cannot be expressed.
- Db.CreateCustomer: the row is stored under the customer id Stripe returned. If a retrieve for one id
  returns a customer with a different id that already has a row, the model replaces that row. The real
  `create_billing_customer` inserts another row, or fails on a uniqueness constraint. This divergence is
  only reachable when Stripe violates the assumption below.
- `get_billing_subscription_by_id` and `get_active_billing_subscriptions`: their answers are
  parameters of `SelectSubscription`.
- The integer widths of the surrogate keys: the keys are unbounded, so counter overflow is not modelled.
- Billing.PollStripeEvents: proved only when the provider eventually gives a final answer, because
  without a cursor the loop does not end otherwise (see the Findings section).
- BillingProperties.ResolveCreates: assumes Stripe returns a retrieved customer with the id it was asked for.
- BillingProperties.ResolveIdempotent: assumes Stripe returns a retrieved customer with the id it was asked for.
- BillingProperties.ResolveStoresUnderStripeId: assumes Stripe returns a retrieved customer with the id it was asked for.
- BillingProperties.ResolvePreservesValid: assumes Stripe returns a retrieved customer with the id it was asked for.
- BillingProperties.CustomerEventPreservesValid: assumes Stripe returns a retrieved customer with the id it was asked for.
- BillingProperties.SubscriptionEventPreservesValid: assumes Stripe returns a retrieved customer with the id it was asked for.
- BillingProperties.DispatchPreservesValid: assumes Stripe returns a retrieved customer with the id it was asked for.
- BillingProperties.ProcessEventsPreservesValid: assumes Stripe returns a retrieved customer with the id it was asked for.
- BillingProperties.PollPreservesValid: assumes Stripe returns a retrieved customer with the id it was asked for.
- BillingProperties.CustomerEventKeepsCustomers, SubscriptionEventKeepsCustomers, DispatchKeepsCustomers,
  ProcessEventsKeepsCustomers, PollKeepsCustomers, KnownCustomerResolvesFastAfterEvents and
  KnownCustomerResolvesFastAfterPoll: the same assumption, together with a valid store at the start.
- The provider settings types: only the fields `load` writes are modelled (`api_url`,
  `low_speed_timeout`, `available_models`), and the model types are opaque.
- LanguageModelSettings.Merge: modelled as a function that returns the new value of the field. It does not
  write through a `&mut` reference; `Load` assigns the result to the field.
- `Settings::register`, `init` and the construction of `SettingsSources`: `Load` takes the sources, in
  `defaults_and_customizations` order, and the default value as parameters.

## Findings

| source | as written | input that shows it | evidently intended | confidence | as-written member | corrected member |
|---|---|---|---|---|---|---|
| crates/collab/src/api/billing.rs:248-279 | every iteration sends the same `ListEvents` (types and limit, no `starting_after`), and the loop repeats while `has_more` | a provider holding more than 100 matching events answers the same request with the same first page and `has_more = true` on every call: the loop never ends and never reaches an event past that page | each request continues after the last event handled, so the cycle ends once the log is exhausted, having handled every event once | medium, not executed; depends on the provider answering a repeated request identically | BillingFindings.RepeatedPageNeverFinal | BillingFindings.PollWithCursorHandlesEveryEventOnce |

The corrected loop (`BillingFindings.PollWithCursor`) is modelled over a fixed log of events served 100 at a
time from a cursor. The rest of the model keeps the loop as written, with its `EventuallyFinal`
precondition.
