/**
 * The polling loop sends the same cursorless request on every iteration.
 * Against a provider that answers the same request the same way, a first
 * page with `has_more` set is answered again and again, so the loop never
 * ends and never sees an event past the first page. This module states that
 * of the loop as written, and gives a cursor-driven variant with the
 * intended property: it ends and handles every event of the log exactly
 * once, in order.
 */
module BillingFindings {
  import opened Wrappers
  import S = Stripe
  import opened Db
  import opened Billing
  import opened BillingProperties

  /**
   * As written: a provider that repeats a page with `has_more` set never
   * gives the final answer the loop needs to stop, however many calls are
   * made.
   */
  lemma RepeatedPageNeverFinal(page: S.EventList, n: nat)
    requires page.hasMore
    ensures !EventuallyFinal(seq(n, _ => Ok(page)))
  {
  }

  /** The page a cursor-honouring provider returns for `cursor` into a log of events. */
  function PageAt(log: seq<S.Event>, cursor: nat): (page: S.EventList)
    requires cursor <= |log|
    ensures |page.data| <= PollRequest.limit
    ensures page.hasMore <==> cursor + PollRequest.limit < |log|
    ensures page.data == log[cursor..if page.hasMore then cursor + PollRequest.limit else |log|]
  {
    if cursor + PollRequest.limit < |log| then S.EventList(log[cursor..cursor + PollRequest.limit], true)
    else S.EventList(log[cursor..], false)
  }

  /** Corrected: each request starts after the last event handled. */
  function PollWithCursor(w: World, directory: map<S.CustomerId, S.Customer>, log: seq<S.Event>, cursor: nat)
    : World
    requires cursor <= |log|
    decreases |log| - cursor
  {
    var page := PageAt(log, cursor);
    var w1 := ProcessEvents(w, directory, page.data);
    if !page.hasMore then w1 else PollWithCursor(w1, directory, log, cursor + PollRequest.limit)
  }

  /** The corrected loop ends and handles every event from the cursor on exactly once, in order. */
  lemma {:induction false} PollWithCursorHandlesEveryEventOnce(w: World, directory: map<S.CustomerId, S.Customer>,
                                                               log: seq<S.Event>, cursor: nat)
    requires cursor <= |log|
    ensures PollWithCursor(w, directory, log, cursor) == ProcessEvents(w, directory, log[cursor..])
    decreases |log| - cursor
  {
    var page := PageAt(log, cursor);
    if page.hasMore {
      var next := cursor + PollRequest.limit;
      assert log[cursor..] == page.data + log[next..];
      PollWithCursorHandlesEveryEventOnce(ProcessEvents(w, directory, page.data), directory, log, next);
      ProcessEventsAppend(w, directory, page.data, log[next..]);
    }
  }
}
