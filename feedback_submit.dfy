/** The customer's feedback submission (app/routes/api.feedback.submit.tsx):
    validate the body, check that the questionnaire exists, then insert one new
    responded feedback row per submitted item. Existing rows, including the
    sweep's pending placeholders, are never updated. */
module FeedbackSubmit {
  import opened Common
  import opened Store

  /** One element of the request's `feedback` array. */
  datatype FeedbackItem = FeedbackItem(
    productId: string,
    productTitle: Option<string>,
    fulfillmentId: Option<string>,
    productImageUrl: Option<string>,
    rating: Option<int>,
    comments: Option<string>)

  /** The request's `feedback` field: missing (or falsy), some non-array value,
      or an array. */
  datatype FeedbackField = Absent | NotAnArray | Items(items: seq<FeedbackItem>)

  datatype SubmitRequest = SubmitRequest(questionnaireId: Option<string>, feedback: FeedbackField)

  /** `{ success: true, feedbackCount }` or `{ error }`. */
  datatype SubmitBody = Saved(feedbackCount: nat) | SubmitError(error: string)

  /** The handler's two checks before it writes anything. */
  datatype Decision = Invalid | UnknownQuestionnaire | Accept(questionnaire: Questionnaire, items: seq<FeedbackItem>)

  function Decide(req: SubmitRequest, qs: seq<Questionnaire>): (d: Decision)
    ensures d.Invalid? <==> !Truthy(req.questionnaireId) || !req.feedback.Items?
    ensures d.UnknownQuestionnaire? <==>
      Truthy(req.questionnaireId) && req.feedback.Items? &&
      forall k :: 0 <= k < |qs| ==> QuestionnaireKey(qs[k].id) != req.questionnaireId.value
    ensures d.Accept? ==>
      && d.questionnaire in qs
      && QuestionnaireKey(d.questionnaire.id) == req.questionnaireId.value
      && d.items == req.feedback.items
  {
    if !Truthy(req.questionnaireId) || !req.feedback.Items? then Invalid
    else match QuestionnaireWithKey(qs, req.questionnaireId.value)
      case None => UnknownQuestionnaire
      case Some(q) => Accept(q, req.feedback.items)
  }

  /** A submission carrying the id from a questionnaire's feedback link is
      accepted for that questionnaire, whatever its list of items (even empty). */
  lemma LinkedSubmissionAccepted(t: Tables, q: Questionnaire, items: seq<FeedbackItem>)
    requires WellKeyed(t)
    requires q in t.questionnaires
    ensures Decide(SubmitRequest(Some(QuestionnaireKey(q.id)), Items(items)), t.questionnaires) == Accept(q, items)
  {
    KeyFindsRow(t, QuestionnaireKey(q.id));
    assert t.questionnaires[q.id] == q;
  }

  /** The row inserted for one item, stamped with the time of the request. */
  function ResponseRow(questionnaireId: nat, item: FeedbackItem, now: int): (r: Feedback)
    ensures r.respondedAt == Some(now)
  {
    Feedback(questionnaireId, OrElse(item.fulfillmentId, "unknown"), item.productId,
      OrElse(item.productTitle, "Unknown Product"), item.productImageUrl, item.rating,
      Some(OrElse(item.comments, "")), None, Some(now))
  }

  function ResponseRows(questionnaireId: nat, items: seq<FeedbackItem>, now: int): (r: seq<Feedback>)
    ensures |r| == |items|
  {
    seq(|items|, k requires 0 <= k < |items| => ResponseRow(questionnaireId, items[k], now))
  }

  /** Each inserted row keeps the item's product id, rating (with no range
      check) and image; a missing or empty fulfillment id, title or comment
      becomes "unknown", "Unknown Product" or ""; the row is marked responded. */
  lemma ResponseRowFields(questionnaireId: nat, items: seq<FeedbackItem>, now: int)
    ensures forall k :: 0 <= k < |items| ==>
      var r, item := ResponseRows(questionnaireId, items, now)[k], items[k];
      && r.questionnaireId == questionnaireId
      && r.productId == item.productId
      && r.rating == item.rating
      && r.productImageUrl == item.productImageUrl
      && r.fulfillmentId == (if Truthy(item.fulfillmentId) then item.fulfillmentId.value else "unknown")
      && r.productTitle == (if Truthy(item.productTitle) then item.productTitle.value else "Unknown Product")
      && r.comments == Some(if Truthy(item.comments) then item.comments.value else "")
      && r.respondedAt == Some(now)
      && r.emailSentAt.None?
  {
  }

  /** The handler. `body` is None when `request.json()` throws; `lookupFails`
      stands for a database error in the questionnaire query; `insertFailsAfter`
      is the number of inserts that succeed before one throws, if one does. Every
      throw lands in the handler's catch: the reply is then 500 and the rows
      already written stay. */
  method Submit(db: Database, body: Option<SubmitRequest>, now: int, lookupFails: bool, insertFailsAfter: Option<nat>)
    returns (reply: Reply<SubmitBody>)
    requires db.Valid()
    modifies db
    ensures db.Valid()
    ensures body.None? ==>
      reply == Reply(500, SubmitError("Failed to submit feedback")) && db.State() == old(db.State())
    ensures body.Some? && Decide(body.value, old(db.questionnaires)).Invalid? ==>
      reply == Reply(400, SubmitError("Invalid request data")) && db.State() == old(db.State())
    ensures body.Some? && !Decide(body.value, old(db.questionnaires)).Invalid? && lookupFails ==>
      reply == Reply(500, SubmitError("Failed to submit feedback")) && db.State() == old(db.State())
    ensures body.Some? && !lookupFails && Decide(body.value, old(db.questionnaires)).UnknownQuestionnaire? ==>
      reply == Reply(404, SubmitError("Questionnaire not found")) && db.State() == old(db.State())
    ensures body.Some? && !lookupFails && Decide(body.value, old(db.questionnaires)).Accept? ==>
      var d := Decide(body.value, old(db.questionnaires));
      var rows := ResponseRows(d.questionnaire.id, d.items, now);
      if insertFailsAfter.Some? && insertFailsAfter.value < |rows| then
        && reply == Reply(500, SubmitError("Failed to submit feedback"))
        && db.State() == old(db.State()).(feedback := old(db.feedback) + rows[..insertFailsAfter.value])
      else
        && reply == Reply(200, Saved(|d.items|))
        && db.State() == old(db.State()).(feedback := old(db.feedback) + rows)
  {
    if body.None? {
      return Reply(500, SubmitError("Failed to submit feedback"));
    }
    var d := Decide(body.value, db.questionnaires);
    if d.Invalid? {
      return Reply(400, SubmitError("Invalid request data"));
    }
    if lookupFails {
      return Reply(500, SubmitError("Failed to submit feedback"));
    }
    if d.UnknownQuestionnaire? {
      return Reply(404, SubmitError("Questionnaire not found"));
    }
    var rows := ResponseRows(d.questionnaire.id, d.items, now);
    ghost var before := db.State();
    var k := 0;
    while k < |rows|
      invariant 0 <= k <= |rows|
      invariant insertFailsAfter.Some? ==> k <= insertFailsAfter.value
      invariant db.Valid()
      invariant db.State() == before.(feedback := before.feedback + rows[..k])
    {
      if insertFailsAfter.Some? && k == insertFailsAfter.value {
        return Reply(500, SubmitError("Failed to submit feedback"));
      }
      db.CreateFeedback(rows[k]);
      assert rows[..k + 1] == rows[..k] + [rows[k]];
      k := k + 1;
    }
    assert rows[..k] == rows;
    reply := Reply(200, Saved(|d.items|));
  }
}
