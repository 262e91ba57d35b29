/** The customer's feedback form (app/components/FeedbackQuestionnaire.tsx): a
    record of drafts keyed by product id, merged one field at a time, whose
    values are the payload sent to the submission endpoint. */
module FeedbackForm {
  import opened Common
  import opened FeedbackSubmit

  /** A draft; rating and comments stay undefined until first set. */
  datatype Draft = Draft(productId: string, productTitle: string, rating: Option<int>, comments: Option<string>)

  /** The `Record<string, ProductFeedback>` state: its entries, and its keys in
      insertion order (the order `Object.values` lists them in). */
  datatype Form = Form(order: seq<string>, drafts: map<string, Draft>)

  /** The fields the page edits. */
  datatype Edit = SetRating(rating: int) | SetComments(comments: string)

  /** The keys in order without repeats, and each entry filed under its own
      product id. */
  ghost predicate WellFormed(f: Form) {
    && (forall i, j :: 0 <= i < j < |f.order| ==> f.order[i] != f.order[j])
    && (forall k :: k in f.drafts <==> k in f.order)
    && (forall k :: k in f.drafts ==> f.drafts[k].productId == k)
  }

  const EmptyForm := Form([], map[])

  /** `{ ...prev, [productId]: { ...prev[productId], productId, productTitle, [field]: value } }` */
  function UpdateFeedback(f: Form, productId: string, productTitle: string, e: Edit): Form {
    var prev := if productId in f.drafts then f.drafts[productId] else Draft(productId, productTitle, None, None);
    var merged := prev.(productId := productId, productTitle := productTitle);
    var next := match e
      case SetRating(r) => merged.(rating := Some(r))
      case SetComments(c) => merged.(comments := Some(c));
    Form(if productId in f.drafts then f.order else f.order + [productId], f.drafts[productId := next])
  }

  /** An update files the entry under its product id with the given id, title
      and field, keeps the entry's other field, leaves every other entry as it
      was, and adds a key only for a product not seen before; the form stays
      well formed. */
  lemma UpdateFeedbackSpec(f: Form, productId: string, productTitle: string, e: Edit)
    requires WellFormed(f)
    ensures
      var g := UpdateFeedback(f, productId, productTitle, e);
      && WellFormed(g)
      && productId in g.drafts
      && g.drafts[productId].productId == productId
      && g.drafts[productId].productTitle == productTitle
      && (e.SetRating? ==> g.drafts[productId].rating == Some(e.rating))
      && (e.SetComments? ==> g.drafts[productId].comments == Some(e.comments))
      && (e.SetRating? ==>
            g.drafts[productId].comments == (if productId in f.drafts then f.drafts[productId].comments else None))
      && (e.SetComments? ==>
            g.drafts[productId].rating == (if productId in f.drafts then f.drafts[productId].rating else None))
      && (forall k :: k in f.drafts && k != productId ==> k in g.drafts && g.drafts[k] == f.drafts[k])
      && g.drafts.Keys == f.drafts.Keys + {productId}
      && (productId in f.drafts ==> g.order == f.order)
      && (productId !in f.drafts ==> g.order == f.order + [productId])
  {
    var g := UpdateFeedback(f, productId, productTitle, e);
    if productId !in f.drafts {
      forall i, j | 0 <= i < j < |g.order|
        ensures g.order[i] != g.order[j]
      {
        if j == |f.order| {
          assert g.order[i] == f.order[i];
        }
      }
    }
  }

  /** `Object.values(feedback)` */
  function Payload(f: Form): (r: seq<Draft>)
    requires WellFormed(f)
    ensures |r| == |f.order|
  {
    seq(|f.order|, k requires 0 <= k < |f.order| => f.drafts[f.order[k]])
  }

  /** The payload holds one item per product the customer touched, each exactly
      once, and nothing for products never touched. */
  lemma PayloadOnePerTouchedProduct(f: Form)
    requires WellFormed(f)
    ensures forall k :: 0 <= k < |Payload(f)| ==> Payload(f)[k] == f.drafts[Payload(f)[k].productId]
    ensures forall i, j :: 0 <= i < j < |Payload(f)| ==> Payload(f)[i].productId != Payload(f)[j].productId
    ensures forall pid :: pid in f.drafts <==> exists k :: 0 <= k < |Payload(f)| && Payload(f)[k].productId == pid
  {
    var p := Payload(f);
    forall pid | pid in f.drafts
      ensures exists k :: 0 <= k < |p| && p[k].productId == pid
    {
      var k :| 0 <= k < |f.order| && f.order[k] == pid;
      assert p[k].productId == pid;
    }
  }

  /** A click or keystroke on the page: the product it belongs to and the edit. */
  datatype UiEvent = UiEvent(productId: string, productTitle: string, edit: Edit)

  /** Only the five star buttons set a rating. */
  predicate FromPage(e: UiEvent) {
    e.edit.SetRating? ==> 1 <= e.edit.rating <= 5
  }

  function ApplyEvents(f: Form, events: seq<UiEvent>): Form
    decreases |events|
  {
    if |events| == 0 then f
    else
      var last := events[|events| - 1];
      UpdateFeedback(ApplyEvents(f, events[..|events| - 1]), last.productId, last.productTitle, last.edit)
  }

  ghost predicate RatingsInRange(f: Form) {
    forall k :: k in f.drafts && f.drafts[k].rating.Some? ==> 1 <= f.drafts[k].rating.value <= 5
  }

  /** Starting from the empty record, whatever the customer clicks and types,
      the form stays well formed and every rating it holds is between 1 and 5. */
  lemma {:induction false} PageRatingsInRange(events: seq<UiEvent>)
    requires forall i :: 0 <= i < |events| ==> FromPage(events[i])
    ensures WellFormed(ApplyEvents(EmptyForm, events))
    ensures RatingsInRange(ApplyEvents(EmptyForm, events))
    decreases |events|
  {
    if |events| > 0 {
      var rest := events[..|events| - 1];
      var last := events[|events| - 1];
      assert forall i :: 0 <= i < |rest| ==> rest[i] == events[i];
      PageRatingsInRange(rest);
      UpdateFeedbackSpec(ApplyEvents(EmptyForm, rest), last.productId, last.productTitle, last.edit);
    }
  }

  /** The item the page sends for a draft: it carries no fulfillment id and no
      image. */
  function SubmittedItem(d: Draft): FeedbackItem {
    FeedbackItem(d.productId, Some(d.productTitle), None, None, d.rating, d.comments)
  }

  /** Rows stored from the page's payload have the drafts' product ids, titles
      and ratings, and "unknown" as their fulfillment id, since the page never
      sends one. */
  lemma PageRowsLackFulfillment(f: Form, questionnaireId: nat, now: int)
    requires WellFormed(f)
    ensures
      var items := seq(|Payload(f)|, k requires 0 <= k < |Payload(f)| => SubmittedItem(Payload(f)[k]));
      var rows := ResponseRows(questionnaireId, items, now);
      && |rows| == |f.order|
      && forall k :: 0 <= k < |rows| ==>
        && rows[k].fulfillmentId == "unknown"
        && rows[k].productId == f.order[k]
        && rows[k].productTitle == (if f.drafts[f.order[k]].productTitle != "" then f.drafts[f.order[k]].productTitle else "Unknown Product")
        && rows[k].rating == f.drafts[f.order[k]].rating
  {
    var items := seq(|Payload(f)|, k requires 0 <= k < |Payload(f)| => SubmittedItem(Payload(f)[k]));
    ResponseRowFields(questionnaireId, items, now);
  }
}
