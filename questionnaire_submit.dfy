/** The intake questionnaire submission (app/routes/api.questionnaire.submit.tsx):
    check the required fields, store the questionnaire, and write it as a note
    on the Shopify order. */
module QuestionnaireSubmit {
  import opened Common
  import opened Text
  import opened Store
  import opened ShopifyService

  /** The JSON body; every field may be missing. Dates arrive as text. */
  datatype IntakeForm = IntakeForm(
    orderId: Option<string>,
    dogName: Option<string>,
    dogGender: Option<string>,
    dogSize: Option<string>,
    breed: Option<string>,
    birthday: Option<string>,
    adoptionDay: Option<string>,
    toyPreference: Option<string>,
    allergies: Option<string>,
    email: Option<string>,
    subscriptionPlan: Option<string>)

  /** `{ success: true, questionnaireId }` or `{ error }`. */
  datatype QuestionnaireBody = Accepted(questionnaireId: string) | QuestionnaireFailed(error: string)

  /** The `addOrderNote` call the handler makes: order GID and note text. */
  datatype NoteCall = NoteCall(orderGid: string, text: string)

  predicate HasRequiredFields(form: IntakeForm) {
    Truthy(form.orderId) && Truthy(form.dogName) && Truthy(form.breed) && Truthy(form.email)
  }

  /** `value ? new Date(value) : null`; `parseDate` is the `Date` constructor. */
  function DateField(value: Option<string>, parseDate: string -> int): (r: Option<int>)
    ensures r.Some? <==> Truthy(value)
    ensures r.Some? ==> r.value == parseDate(value.value)
  {
    if Truthy(value) then Some(parseDate(value.value)) else None
  }

  /** The row created from a complete form (its id is assigned by the table). */
  function StoredQuestionnaire(form: IntakeForm, parseDate: string -> int): Questionnaire
    requires HasRequiredFields(form)
  {
    Questionnaire(0, form.orderId.value, form.dogName.value, form.dogGender, form.dogSize,
      form.breed.value, DateField(form.birthday, parseDate), DateField(form.adoptionDay, parseDate),
      form.toyPreference, form.allergies, form.email.value, form.subscriptionPlan)
  }

  /** What the handler hands to `formatQuestionnaireAsNote`. */
  function NoteDataOf(form: IntakeForm, parseDate: string -> int): NoteData {
    NoteData(form.dogName, form.dogGender, form.dogSize, form.breed,
      DateField(form.birthday, parseDate), DateField(form.adoptionDay, parseDate),
      form.toyPreference, form.allergies, form.subscriptionPlan)
  }

  const GID_PREFIX := "gid://"
  const ORDER_GID_PREFIX := "gid://shopify/Order/"

  /** An order id as a Shopify GID: kept when it already is one, prefixed
      otherwise. */
  function OrderGid(orderId: string): string {
    if StartsWith(orderId, GID_PREFIX) then orderId else ORDER_GID_PREFIX + orderId
  }

  /** The result is always a GID, converting twice is converting once, and a
      plain id can be read back from behind the prefix. */
  lemma OrderGidProperties(orderId: string)
    ensures StartsWith(OrderGid(orderId), GID_PREFIX)
    ensures OrderGid(OrderGid(orderId)) == OrderGid(orderId)
    ensures !StartsWith(orderId, GID_PREFIX) ==>
      StartsWith(OrderGid(orderId), ORDER_GID_PREFIX) && OrderGid(orderId)[|ORDER_GID_PREFIX|..] == orderId
  {
    var g := OrderGid(orderId);
    if !StartsWith(orderId, GID_PREFIX) {
      assert g[..|ORDER_GID_PREFIX|] == ORDER_GID_PREFIX;
      assert g[..|GID_PREFIX|] == ORDER_GID_PREFIX[..|GID_PREFIX|];
    }
  }

  /** A numeric order id, as the thank-you page passes it, becomes
      "gid://shopify/Order/<number>", and the number reads back. */
  lemma NumericOrderGid(n: nat)
    ensures OrderGid(NatText(n)) == ORDER_GID_PREFIX + NatText(n)
    ensures ParseInt(OrderGid(NatText(n))[|ORDER_GID_PREFIX|..]) == Some(n)
  {
    var s := NatText(n);
    assert IsDigit(s[0]) && !IsDigit(GID_PREFIX[0]);
    if |GID_PREFIX| <= |s| {
      assert s[..|GID_PREFIX|][0] == s[0];
    }
    IntTextRoundTrip(n);
    assert OrderGid(s)[|ORDER_GID_PREFIX|..] == s;
  }

  /** The order note shows what was stored: read back line by line (no value
      holding a line break), it gives the stored row's name, gender, size,
      breed, toy preference, allergies and plan, and it has a Birthday or
      Adoption Day line exactly when the row stores that date, showing it. */
  lemma NoteShowsStoredRow(form: IntakeForm, parseDate: string -> int, showDate: int -> string)
    requires HasRequiredFields(form)
    requires SingleLineValues(NoteDataOf(form, parseDate), showDate)
    ensures
      var q := StoredQuestionnaire(form, parseDate);
      var lines := Split(FormatNote(NoteDataOf(form, parseDate), showDate), '\n');
      && NoteValue(lines, "Dog Name") == Some(q.dogName)
      && NoteValue(lines, "Gender") == Some(Template(q.dogGender))
      && NoteValue(lines, "Size") == Some(Template(q.dogSize))
      && NoteValue(lines, "Breed") == Some(q.breed)
      && NoteValue(lines, "Birthday") == (if q.birthday.Some? then Some(showDate(q.birthday.value)) else None)
      && NoteValue(lines, "Adoption Day") == (if q.adoptionDay.Some? then Some(showDate(q.adoptionDay.value)) else None)
      && NoteValue(lines, "Toy Preference") == Some(Template(q.toyPreference))
      && NoteValue(lines, "Allergies") == Some(Template(q.allergies))
      && NoteValue(lines, "Subscription Plan") == Some(Template(q.subscriptionPlan))
  {
    NoteReadsBack(NoteDataOf(form, parseDate), showDate);
  }

  /** Once stored, the questionnaire is the one the feedback sweep finds for
      its order, as long as no earlier questionnaire names the same order. */
  lemma SubmittedQuestionnaireFound(qs: seq<Questionnaire>, form: IntakeForm, parseDate: string -> int)
    requires HasRequiredFields(form)
    requires forall k :: 0 <= k < |qs| ==> qs[k].orderId != form.orderId.value
    ensures
      var row := StoredQuestionnaire(form, parseDate).(id := |qs|);
      QuestionnaireForOrder(qs + [row], form.orderId.value) == Some(row)
  {
    var row := StoredQuestionnaire(form, parseDate).(id := |qs|);
    var all := qs + [row];
    assert all[|qs|] == row;
    assert forall k :: 0 <= k < |qs| ==> all[k] == qs[k];
  }

  /** The handler. `body` is None when `request.json()` throws; `createFails`
      stands for a database error on create; both land in the handler's catch.
      The answer of `addOrderNote` is ignored (it catches its own errors), so
      the note call is an output. */
  method SubmitQuestionnaire(db: Database, body: Option<IntakeForm>, parseDate: string -> int,
                             showDate: int -> string, createFails: bool)
    returns (reply: Reply<QuestionnaireBody>, note: Option<NoteCall>)
    requires db.Valid()
    modifies db
    ensures db.Valid()
    ensures body.None? ==>
      reply == Reply(500, QuestionnaireFailed("Failed to submit questionnaire")) && note.None? &&
      db.State() == old(db.State())
    ensures body.Some? && !HasRequiredFields(body.value) ==>
      reply == Reply(400, QuestionnaireFailed("Missing required fields")) && note.None? &&
      db.State() == old(db.State())
    ensures body.Some? && HasRequiredFields(body.value) && createFails ==>
      reply == Reply(500, QuestionnaireFailed("Failed to submit questionnaire")) && note.None? &&
      db.State() == old(db.State())
    ensures body.Some? && HasRequiredFields(body.value) && !createFails ==>
      var form, id := body.value, |old(db.questionnaires)|;
      && reply == Reply(200, Accepted(QuestionnaireKey(id)))
      && note == Some(NoteCall(OrderGid(form.orderId.value), FormatNote(NoteDataOf(form, parseDate), showDate)))
      && db.State() == old(db.State()).(questionnaires := old(db.questionnaires) + [StoredQuestionnaire(form, parseDate).(id := id)])
  {
    if body.None? {
      return Reply(500, QuestionnaireFailed("Failed to submit questionnaire")), None;
    }
    var form := body.value;
    if !HasRequiredFields(form) {
      return Reply(400, QuestionnaireFailed("Missing required fields")), None;
    }
    if createFails {
      return Reply(500, QuestionnaireFailed("Failed to submit questionnaire")), None;
    }
    var id := db.CreateQuestionnaire(StoredQuestionnaire(form, parseDate));
    var text := FormatNote(NoteDataOf(form, parseDate), showDate);
    note := Some(NoteCall(OrderGid(form.orderId.value), text));
    reply := Reply(200, Accepted(QuestionnaireKey(id)));
  }
}
