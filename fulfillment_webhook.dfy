/** The fulfillments/create webhook (app/routes/webhooks.fulfillments.create.tsx):
    it projects the shipped line items to a product list and inserts a tracker
    row whose feedback is due seven days later. */
module FulfillmentWebhook {
  import opened Common
  import opened Text
  import opened Store
  import opened FeedbackJob

  /** Seven days, in the milliseconds of a JavaScript `Date`. */
  const FEEDBACK_DELAY: int := 7 * 24 * 60 * 60 * 1000

  datatype LineItem = LineItem(productId: Option<int>, name: string, quantity: int, variantId: int)

  /** The verified webhook payload: fulfillment id, order id, and line items
      (absent on some payloads). */
  datatype Payload = Payload(id: int, orderId: int, lineItems: Option<seq<LineItem>>)

  /** `{ success: true, trackingId }` or `{ error }`. */
  datatype WebhookBody = Tracked(trackingId: nat) | WebhookFailed(error: string)

  /** `{ id: item.product_id?.toString(), title: item.name, quantity, variantId }` */
  function ProductEntry(item: LineItem): StoredProduct {
    StoredProduct(
      if item.productId.Some? then Some(IntText(item.productId.value)) else None,
      item.name, None, item.quantity, item.variantId)
  }

  /** `payload.line_items?.map(...) || []` */
  function ProductsOf(lineItems: Option<seq<LineItem>>): seq<StoredProduct> {
    match lineItems
    case None => []
    case Some(items) => seq(|items|, k requires 0 <= k < |items| => ProductEntry(items[k]))
  }

  /** The row the handler creates (its id is assigned by the table). */
  function NewTracker(p: Payload, now: int): Tracker {
    Tracker(0, IntText(p.id), IntText(p.orderId), FULFILLED, now, now + FEEDBACK_DELAY, None,
      Json(ProductsOf(p.lineItems)))
  }

  /** One stored product per line item, in order; none without line items. Each
      carries the item's product id as text (absent when the item has none),
      its name as title, its quantity and variant id, and no image. */
  lemma ProductListFromLineItems(lineItems: Option<seq<LineItem>>)
    ensures lineItems.None? ==> ProductsOf(lineItems) == []
    ensures lineItems.Some? ==> |ProductsOf(lineItems)| == |lineItems.value|
    ensures lineItems.Some? ==> forall k :: 0 <= k < |lineItems.value| ==>
      var item, p := lineItems.value[k], ProductsOf(lineItems)[k];
      && (p.id.Some? <==> item.productId.Some?)
      && (p.id.Some? ==> ParseInt(p.id.value) == item.productId)
      && p.title == item.name
      && p.quantity == item.quantity
      && p.variantId == item.variantId
      && p.imageUrl.None?
  {
    if lineItems.Some? {
      forall k | 0 <= k < |lineItems.value| && lineItems.value[k].productId.Some? {
        IntTextRoundTrip(lineItems.value[k].productId.value);
      }
    }
  }

  /** The new tracker is "fulfilled", not yet sent, carries the ids as text, and
      is due exactly one week after it was fulfilled. */
  lemma NewTrackerFields(p: Payload, now: int)
    ensures NewTracker(p, now).status == FULFILLED
    ensures NewTracker(p, now).feedbackSentAt.None?
    ensures NewTracker(p, now).fulfilledAt == now
    ensures NewTracker(p, now).feedbackScheduledFor == now + FEEDBACK_DELAY > now
    ensures ParseInt(NewTracker(p, now).shopifyFulfillmentId) == Some(p.id)
    ensures ParseInt(NewTracker(p, now).orderId) == Some(p.orderId)
  {
    IntTextRoundTrip(p.id);
    IntTextRoundTrip(p.orderId);
  }

  /** A sweep at `sweepTime` selects the new tracker exactly when a week has
      passed (the comparison is inclusive). */
  lemma DueAfterOneWeek(p: Payload, now: int, id: nat, sweepTime: int)
    ensures Due(NewTracker(p, now).(id := id), sweepTime) <==> sweepTime >= now + FEEDBACK_DELAY
  {
  }

  /** Round trip from webhook to sweep: once the tracker is due, its order has a
      questionnaire, the email goes out and the database does not fail, the
      sweep marks it and inserts one pending row per line item, whose product
      id is the item's product id as text ("unknown" when it had none) and
      whose title is the item's name; the email lists the same ids and titles. */
  lemma WebhookThenSweep(p: Payload, now: int, t: Tables, id: nat, sweepTime: int, env: Env)
    requires id < |t.trackers|
    requires QuestionnaireForOrder(t.questionnaires, IntText(p.orderId)).Some?
    requires env.fault(id) == NoFault
    requires
      var q := QuestionnaireForOrder(t.questionnaires, IntText(p.orderId)).value;
      env.send(EmailFor(q, ProductsOf(p.lineItems), env.appUrl))
    ensures
      var f := NewTracker(p, now).(id := id);
      var items := if p.lineItems.Some? then p.lineItems.value else [];
      var o := Outcome(t.questionnaires, |t.trackers|, f, sweepTime, env);
      var q := QuestionnaireForOrder(t.questionnaires, IntText(p.orderId)).value;
      && o.Marked?
      && |o.added| == |items|
      && |EmailFor(q, ProductsOf(p.lineItems), env.appUrl).products| == |items|
      && forall k :: 0 <= k < |items| ==>
        && o.added[k].productId == (if items[k].productId.Some? then IntText(items[k].productId.value) else "unknown")
        && o.added[k].productTitle == items[k].name
        && EmailFor(q, ProductsOf(p.lineItems), env.appUrl).products[k].title == items[k].name
        && EmailFor(q, ProductsOf(p.lineItems), env.appUrl).products[k].id ==
             (if items[k].productId.Some? then Some(IntText(items[k].productId.value)) else None)
  {
    var f := NewTracker(p, now).(id := id);
    var qs := t.questionnaires;
    MarkedRowPlaceholders(qs, |t.trackers|, f, sweepTime, env);
    ProductListFromLineItems(p.lineItems);
  }

  /** The handler. A missing payload throws a 400 Response that the handler's
      own catch turns into a 500, as it does a database failure. */
  method HandleFulfillmentCreated(db: Database, payload: Option<Payload>, now: int, storeFails: bool)
    returns (reply: Reply<WebhookBody>)
    requires db.Valid()
    modifies db
    ensures db.Valid()
    ensures payload.None? || storeFails ==>
      reply == Reply(500, WebhookFailed("Webhook processing failed")) && db.State() == old(db.State())
    ensures payload.Some? && !storeFails ==>
      && reply == Reply(200, Tracked(|old(db.trackers)|))
      && db.State() == old(db.State()).(trackers := old(db.trackers) + [NewTracker(payload.value, now).(id := |old(db.trackers)|)])
  {
    if payload.None? || storeFails {
      return Reply(500, WebhookFailed("Webhook processing failed"));
    }
    var id := db.CreateTracker(NewTracker(payload.value, now));
    reply := Reply(200, Tracked(id));
  }
}
