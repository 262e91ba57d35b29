/** The three database tables the feedback workflow reads and writes
    (SubscriptionQuestionnaire, FulfillmentTracking, ProductFeedback), held in
    memory. A row's id is its position in its table, as an autoincrement key
    would give it; the questionnaire's public id is that number in decimal. */
module Store {
  import opened Common
  import opened Text

  const FULFILLED := "fulfilled"
  const FEEDBACK_SENT := "feedback_sent"

  datatype Questionnaire = Questionnaire(
    id: nat,
    orderId: string,
    dogName: string,
    dogGender: Option<string>,
    dogSize: Option<string>,
    breed: string,
    birthday: Option<int>,
    adoptionDay: Option<int>,
    toyPreference: Option<string>,
    allergies: Option<string>,
    email: string,
    subscriptionPlan: Option<string>)

  /** One entry of the product list a tracker stores as JSON text. */
  datatype StoredProduct = StoredProduct(
    id: Option<string>,
    title: string,
    imageUrl: Option<string>,
    quantity: int,
    variantId: int)

  /** The `products` column: what `JSON.parse` makes of it. */
  datatype ProductList = Json(items: seq<StoredProduct>) | Unparseable

  datatype Tracker = Tracker(
    id: nat,
    shopifyFulfillmentId: string,
    orderId: string,
    status: string,
    fulfilledAt: int,
    feedbackScheduledFor: int,
    feedbackSentAt: Option<int>,
    products: ProductList)

  datatype Feedback = Feedback(
    questionnaireId: nat,
    fulfillmentId: string,
    productId: string,
    productTitle: string,
    productImageUrl: Option<string>,
    rating: Option<int>,
    comments: Option<string>,
    emailSentAt: Option<int>,
    respondedAt: Option<int>)

  datatype Tables = Tables(
    questionnaires: seq<Questionnaire>,
    trackers: seq<Tracker>,
    feedback: seq<Feedback>)

  /** Every row's id is its position in its table. */
  ghost predicate WellKeyed(t: Tables) {
    && (forall i :: 0 <= i < |t.questionnaires| ==> t.questionnaires[i].id == i)
    && (forall i :: 0 <= i < |t.trackers| ==> t.trackers[i].id == i)
  }

  /** The id by which routes and links address a questionnaire. */
  function QuestionnaireKey(id: nat): string {
    NatText(id)
  }

  /** `findUnique({ where: { orderId } })`. */
  function QuestionnaireForOrder(qs: seq<Questionnaire>, orderId: string): (r: Option<Questionnaire>)
    ensures r.Some? ==> r.value in qs && r.value.orderId == orderId
    ensures r.None? <==> forall k :: 0 <= k < |qs| ==> qs[k].orderId != orderId
  {
    match FindFirstIndex(qs, (q: Questionnaire) => q.orderId == orderId)
    case None => None
    case Some(i) => Some(qs[i])
  }

  /** `findUnique({ where: { id } })` for an id received as text. */
  function QuestionnaireWithKey(qs: seq<Questionnaire>, key: string): (r: Option<Questionnaire>)
    ensures r.Some? ==> r.value in qs && QuestionnaireKey(r.value.id) == key
    ensures r.None? <==> forall k :: 0 <= k < |qs| ==> QuestionnaireKey(qs[k].id) != key
  {
    match FindFirstIndex(qs, (q: Questionnaire) => QuestionnaireKey(q.id) == key)
    case None => None
    case Some(i) => Some(qs[i])
  }

  /** In a well-keyed table the key of row i finds row i, and only keys of
      rows find anything. */
  lemma KeyFindsRow(t: Tables, key: string)
    requires WellKeyed(t)
    ensures forall i :: 0 <= i < |t.questionnaires| && key == QuestionnaireKey(i) ==>
      QuestionnaireWithKey(t.questionnaires, key) == Some(t.questionnaires[i])
    ensures QuestionnaireWithKey(t.questionnaires, key).Some? <==>
      exists i :: 0 <= i < |t.questionnaires| && key == QuestionnaireKey(i)
  {
    var qs := t.questionnaires;
    var r := QuestionnaireWithKey(qs, key);
    forall i | 0 <= i < |qs| && key == QuestionnaireKey(i)
      ensures r == Some(qs[i])
    {
      assert QuestionnaireKey(qs[i].id) == key;
      var q := r.value;
      NatTextInjective(q.id, i);
      assert q == qs[q.id];
    }
    if r.Some? {
      assert r.value == qs[r.value.id];
    }
  }

  /** The tracker after the sweep has recorded its email. */
  function Sent(f: Tracker, at: int): Tracker {
    f.(status := FEEDBACK_SENT, feedbackSentAt := Some(at))
  }

  /** `update({ where: { id }, data: { status, feedbackSentAt } })` on the
      tracker table; a missing id changes nothing (the update throws). */
  function MarkSent(ts: seq<Tracker>, id: nat, at: int): (r: seq<Tracker>)
    ensures |r| == |ts|
  {
    if id < |ts| then ts[id := Sent(ts[id], at)] else ts
  }

  /** The database, whose tables the handlers change in place. */
  class Database {
    var questionnaires: seq<Questionnaire>
    var trackers: seq<Tracker>
    var feedback: seq<Feedback>

    function State(): Tables
      reads this
    {
      Tables(questionnaires, trackers, feedback)
    }

    ghost predicate Valid()
      reads this
    {
      WellKeyed(State())
    }

    constructor ()
      ensures Valid() && State() == Tables([], [], [])
    {
      questionnaires, trackers, feedback := [], [], [];
    }

    /** `subscriptionQuestionnaire.create`: the new row gets the next id. */
    method CreateQuestionnaire(q: Questionnaire) returns (id: nat)
      requires Valid()
      modifies this
      ensures Valid()
      ensures id == |old(questionnaires)|
      ensures State() == old(State()).(questionnaires := old(questionnaires) + [q.(id := id)])
    {
      id := |questionnaires|;
      questionnaires := questionnaires + [q.(id := id)];
    }

    /** `fulfillmentTracking.create`: the new row gets the next id. */
    method CreateTracker(f: Tracker) returns (id: nat)
      requires Valid()
      modifies this
      ensures Valid()
      ensures id == |old(trackers)|
      ensures State() == old(State()).(trackers := old(trackers) + [f.(id := id)])
    {
      id := |trackers|;
      trackers := trackers + [f.(id := id)];
    }

    /** `fulfillmentTracking.update` setting the sent status and time;
        `found` is false where the real update throws. */
    method UpdateSent(id: nat, at: int) returns (found: bool)
      requires Valid()
      modifies this
      ensures Valid()
      ensures found == (id < |old(trackers)|)
      ensures State() == old(State()).(trackers := MarkSent(old(trackers), id, at))
    {
      found := id < |trackers|;
      trackers := MarkSent(trackers, id, at);
    }

    /** `productFeedback.create`. */
    method CreateFeedback(row: Feedback)
      requires Valid()
      modifies this
      ensures Valid()
      ensures State() == old(State()).(feedback := old(feedback) + [row])
    {
      feedback := feedback + [row];
    }
  }
}
