/** The periodic sweep that sends feedback-request emails
    (app/jobs/sendFeedbackEmails.server.ts). It selects the trackers that are
    due, and for each one looks up the order's questionnaire, sends the email
    and, when the sender reports success, marks the tracker sent and inserts one
    pending feedback row per shipped product. Errors are caught per row.

    The email sender, the clock, the environment's APP_URL and the database
    failures are parameters: `Env` bundles them. */
module FeedbackJob {
  import opened Common
  import opened Text
  import opened Store

  datatype EmailProduct = EmailProduct(id: Option<string>, title: string, imageUrl: Option<string>)

  /** What `sendFeedbackEmail` receives. */
  datatype EmailData = EmailData(
    customerEmail: string,
    dogName: string,
    feedbackUrl: string,
    products: seq<EmailProduct>)

  /** A database call that throws while one tracker is processed. */
  datatype RowFault =
    | NoFault
    | LookupThrows                      // the questionnaire query
    | UpdateThrows                      // the tracker update
    | InsertThrowsAfter(written: nat)   // the feedback inserts, after `written` rows

  /** The sweep's collaborators: APP_URL, the email sender (a sender that throws
      acts as one that returns false), the database's per-tracker failures, and
      the error thrown by the selection query, if any. */
  datatype Env = Env(
    appUrl: Option<string>,
    send: EmailData -> bool,
    fault: nat -> RowFault,
    selectError: Option<Thrown>)

  /** `{ success: true, processed }` or `{ success: false, error }`. */
  datatype SweepResult = Completed(processed: nat) | Failed(error: string)

  datatype Swept = Swept(state: Tables, result: SweepResult)

  /** What processing one selected tracker does: nothing, or mark it sent and
      add these feedback rows. */
  datatype RowOutcome = Untouched | Marked(added: seq<Feedback>)

  /** The selection filter: status "fulfilled", due at or before `now`, not yet sent. */
  predicate Due(f: Tracker, now: int) {
    f.status == FULFILLED && f.feedbackScheduledFor <= now && f.feedbackSentAt.None?
  }

  predicate IdsIncreasing(ts: seq<Tracker>) {
    forall a, b :: 0 <= a < b < |ts| ==> ts[a].id < ts[b].id
  }

  /** The rows `findMany` returns, in table order. */
  function Selected(ts: seq<Tracker>, now: int): (r: seq<Tracker>)
    ensures forall f :: f in r <==> f in ts && Due(f, now)
    ensures IdsIncreasing(ts) ==> IdsIncreasing(r)
  {
    if ts == [] then []
    else
      var rest := Selected(ts[1..], now);
      assert forall f :: f in rest ==> f in ts[1..];
      assert IdsIncreasing(ts) ==> IdsIncreasing(ts[1..]);
      assert IdsIncreasing(ts) ==> forall b :: 0 <= b < |rest| ==> ts[0].id < rest[b].id by {
        if IdsIncreasing(ts) {
          forall b | 0 <= b < |rest| ensures ts[0].id < rest[b].id {
            assert rest[b] in ts[1..];
            var j :| 0 <= j < |ts[1..]| && ts[1..][j] == rest[b];
            assert ts[j + 1] == rest[b];
          }
        }
      }
      if Due(ts[0], now) then [ts[0]] + rest else rest
  }

  function FeedbackUrl(appUrl: Option<string>, q: Questionnaire): string {
    Template(appUrl) + "/feedback/" + QuestionnaireKey(q.id)
  }

  function EmailFor(q: Questionnaire, items: seq<StoredProduct>, appUrl: Option<string>): EmailData {
    EmailData(q.email, q.dogName, FeedbackUrl(appUrl, q),
      seq(|items|, k requires 0 <= k < |items| => EmailProduct(items[k].id, items[k].title, items[k].imageUrl)))
  }

  /** The pending feedback row created for one shipped product. */
  function Placeholder(q: Questionnaire, f: Tracker, p: StoredProduct, now: int): Feedback {
    Feedback(q.id, f.shopifyFulfillmentId, OrElse(p.id, "unknown"), p.title, p.imageUrl,
      None, None, Some(now), None)
  }

  function Placeholders(q: Questionnaire, f: Tracker, items: seq<StoredProduct>, now: int): (r: seq<Feedback>)
    ensures |r| == |items|
  {
    seq(|items|, k requires 0 <= k < |items| => Placeholder(q, f, items[k], now))
  }

  /** How many of `n` inserts succeed under `fault`. */
  function InsertCount(fault: RowFault, n: nat): (r: nat)
    ensures r <= n
  {
    if fault.InsertThrowsAfter? && fault.written < n then fault.written else n
  }

  /** The effect of one loop iteration on tracker `f`, given the questionnaire
      table and the number of trackers (neither changes during a sweep). */
  function Outcome(qs: seq<Questionnaire>, trackerCount: nat, f: Tracker, now: int, env: Env): RowOutcome {
    var fault := env.fault(f.id);
    if fault.LookupThrows? then Untouched
    else match QuestionnaireForOrder(qs, f.orderId)
      case None => Untouched
      case Some(q) =>
        match f.products
        case Unparseable => Untouched
        case Json(items) =>
          if !env.send(EmailFor(q, items, env.appUrl)) || fault.UpdateThrows? || f.id >= trackerCount then Untouched
          else Marked(Placeholders(q, f, items, now)[..InsertCount(fault, |items|)])
  }

  function ProcessRow(t: Tables, f: Tracker, now: int, env: Env): Tables {
    match Outcome(t.questionnaires, |t.trackers|, f, now, env)
    case Untouched => t
    case Marked(added) => Tables(t.questionnaires, MarkSent(t.trackers, f.id, now), t.feedback + added)
  }

  /** The loop over the selected rows, one `ProcessRow` per row in order. */
  function ProcessRows(t: Tables, rows: seq<Tracker>, now: int, env: Env): Tables
    decreases |rows|
  {
    if rows == [] then t
    else ProcessRow(ProcessRows(t, rows[..|rows| - 1], now, env), rows[|rows| - 1], now, env)
  }

  /** The whole job. */
  function Sweep(t: Tables, now: int, env: Env): Swept {
    if env.selectError.Some? then Swept(t, Failed(ErrorMessage(env.selectError.value)))
    else
      var pending := Selected(t.trackers, now);
      Swept(ProcessRows(t, pending, now, env), Completed(|pending|))
  }

  /** The ids of the rows among `rows` that the loop marks sent. */
  function MarkedIds(qs: seq<Questionnaire>, n: nat, rows: seq<Tracker>, now: int, env: Env): set<nat>
    decreases |rows|
  {
    if rows == [] then {}
    else
      var last := rows[|rows| - 1];
      MarkedIds(qs, n, rows[..|rows| - 1], now, env) +
        (if Outcome(qs, n, last, now, env).Marked? then {last.id} else {})
  }

  /** The feedback rows the loop inserts for `rows`, in order. */
  function NewRows(qs: seq<Questionnaire>, n: nat, rows: seq<Tracker>, now: int, env: Env): seq<Feedback>
    decreases |rows|
  {
    if rows == [] then []
    else
      NewRows(qs, n, rows[..|rows| - 1], now, env) +
        match Outcome(qs, n, rows[|rows| - 1], now, env)
        case Untouched => []
        case Marked(added) => added
  }

  /** Whether processing `f` during a sweep over `t` marks it sent. */
  predicate Delivered(t: Tables, f: Tracker, now: int, env: Env) {
    Outcome(t.questionnaires, |t.trackers|, f, now, env).Marked?
  }

  /** A row the sweep inserts: pending (no rating, comments or response),
      stamped with the sweep's time, for tracker `f` and its order's questionnaire. */
  predicate PlaceholderFor(r: Feedback, qs: seq<Questionnaire>, f: Tracker, now: int) {
    && r.rating.None? && r.comments.None? && r.respondedAt.None?
    && r.emailSentAt == Some(now)
    && r.fulfillmentId == f.shopifyFulfillmentId
    && QuestionnaireForOrder(qs, f.orderId).Some?
    && r.questionnaireId == QuestionnaireForOrder(qs, f.orderId).value.id
  }

  // ---- one row -------------------------------------------------------------

  /** A selected tracker is marked sent exactly when the questionnaire query
      succeeds and finds one, its product list parses, the sender reports
      success, and the tracker update succeeds. */
  lemma DeliveryCondition(qs: seq<Questionnaire>, n: nat, f: Tracker, now: int, env: Env)
    ensures Outcome(qs, n, f, now, env).Marked? <==>
      && !env.fault(f.id).LookupThrows?
      && QuestionnaireForOrder(qs, f.orderId).Some?
      && f.products.Json?
      && env.send(EmailFor(QuestionnaireForOrder(qs, f.orderId).value, f.products.items, env.appUrl))
      && !env.fault(f.id).UpdateThrows?
      && f.id < n
  {
  }

  /** The email goes to the questionnaire's address, names its dog, lists each
      stored product's id, title and image, and links to
      APP_URL/feedback/<questionnaire id>. */
  lemma EmailContents(q: Questionnaire, items: seq<StoredProduct>, appUrl: Option<string>)
    ensures EmailFor(q, items, appUrl).customerEmail == q.email
    ensures EmailFor(q, items, appUrl).dogName == q.dogName
    ensures EmailFor(q, items, appUrl).feedbackUrl == Template(appUrl) + "/feedback/" + QuestionnaireKey(q.id)
    ensures |EmailFor(q, items, appUrl).products| == |items|
    ensures forall k :: 0 <= k < |items| ==>
      EmailFor(q, items, appUrl).products[k] == EmailProduct(items[k].id, items[k].title, items[k].imageUrl)
  {
  }

  /** The link in the email leads back to the questionnaire it was built from:
      the id after "/feedback/" finds that questionnaire and no other. */
  lemma FeedbackLinkFindsQuestionnaire(t: Tables, q: Questionnaire, appUrl: Option<string>)
    requires WellKeyed(t)
    requires q in t.questionnaires
    ensures StartsWith(FeedbackUrl(appUrl, q), Template(appUrl) + "/feedback/")
    ensures
      var prefix := Template(appUrl) + "/feedback/";
      QuestionnaireWithKey(t.questionnaires, FeedbackUrl(appUrl, q)[|prefix|..]) == Some(q)
  {
    var prefix := Template(appUrl) + "/feedback/";
    assert FeedbackUrl(appUrl, q)[|prefix|..] == QuestionnaireKey(q.id);
    assert FeedbackUrl(appUrl, q)[..|prefix|] == prefix;
    KeyFindsRow(t, QuestionnaireKey(q.id));
    assert t.questionnaires[q.id] == q;
  }

  /** With no database failure, a marked tracker gets exactly one pending row
      per stored product, in order, whose product id is the stored id or
      "unknown". */
  lemma MarkedRowPlaceholders(qs: seq<Questionnaire>, n: nat, f: Tracker, now: int, env: Env)
    requires env.fault(f.id) == NoFault
    requires Outcome(qs, n, f, now, env).Marked?
    ensures f.products.Json? && QuestionnaireForOrder(qs, f.orderId).Some?
    ensures |Outcome(qs, n, f, now, env).added| == |f.products.items|
    ensures forall k :: 0 <= k < |f.products.items| ==>
      var r := Outcome(qs, n, f, now, env).added[k];
      var p := f.products.items[k];
      && PlaceholderFor(r, qs, f, now)
      && r.productId == OrElse(p.id, "unknown")
      && r.productTitle == p.title
      && r.productImageUrl == p.imageUrl
  {
    var added := Outcome(qs, n, f, now, env).added;
    var q := QuestionnaireForOrder(qs, f.orderId).value;
    var items := f.products.items;
    assert added == Placeholders(q, f, items, now);
  }

  /** The tracker is updated before the feedback rows are inserted, so an insert
      that throws leaves the tracker marked sent with fewer rows than products. */
  lemma PartialInsertLeavesRowSent(t: Tables, f: Tracker, now: int, env: Env, k: nat)
    requires env.fault(f.id) == InsertThrowsAfter(k)
    requires QuestionnaireForOrder(t.questionnaires, f.orderId).Some?
    requires f.products.Json? && k < |f.products.items|
    requires env.send(EmailFor(QuestionnaireForOrder(t.questionnaires, f.orderId).value, f.products.items, env.appUrl))
    requires f.id < |t.trackers|
    ensures ProcessRow(t, f, now, env).trackers[f.id] == Sent(t.trackers[f.id], now)
    ensures |ProcessRow(t, f, now, env).feedback| == |t.feedback| + k < |t.feedback| + |f.products.items|
  {
  }

  // ---- the loop ------------------------------------------------------------

  lemma {:induction false} MarkedIdsMember(qs: seq<Questionnaire>, n: nat, rows: seq<Tracker>, now: int, env: Env, i: nat)
    ensures i in MarkedIds(qs, n, rows, now, env) <==>
      exists k :: 0 <= k < |rows| && rows[k].id == i && Outcome(qs, n, rows[k], now, env).Marked?
    decreases |rows|
  {
    if rows != [] {
      var init := rows[..|rows| - 1];
      MarkedIdsMember(qs, n, init, now, env, i);
      if i in MarkedIds(qs, n, init, now, env) {
        var k :| 0 <= k < |init| && init[k].id == i && Outcome(qs, n, init[k], now, env).Marked?;
        assert rows[k] == init[k];
      }
      if exists k :: 0 <= k < |rows| && rows[k].id == i && Outcome(qs, n, rows[k], now, env).Marked? {
        var k :| 0 <= k < |rows| && rows[k].id == i && Outcome(qs, n, rows[k], now, env).Marked?;
        if k < |init| {
          assert init[k] == rows[k];
        }
      }
    }
  }

  /** One iteration changes at most tracker `f.id` and only appends feedback rows. */
  lemma ProcessRowEffect(s: Tables, f: Tracker, now: int, env: Env)
    ensures ProcessRow(s, f, now, env).questionnaires == s.questionnaires
    ensures |ProcessRow(s, f, now, env).trackers| == |s.trackers|
    ensures forall i :: 0 <= i < |s.trackers| ==>
      ProcessRow(s, f, now, env).trackers[i] ==
        if i == f.id && Delivered(s, f, now, env) then Sent(s.trackers[i], now) else s.trackers[i]
    ensures ProcessRow(s, f, now, env).feedback == s.feedback +
      match Outcome(s.questionnaires, |s.trackers|, f, now, env)
      case Untouched => []
      case Marked(added) => added
  {
  }

  /** One more row on top of a state already described by a set of marked ids
      and a list of appended rows keeps that description, with the row's own
      outcome added. */
  lemma ProcessRowStep(t: Tables, s: Tables, f: Tracker, now: int, env: Env, marked: set<nat>, added: seq<Feedback>)
    requires s.questionnaires == t.questionnaires && |s.trackers| == |t.trackers|
    requires forall i :: 0 <= i < |t.trackers| ==>
      s.trackers[i] == if i in marked then Sent(t.trackers[i], now) else t.trackers[i]
    requires s.feedback == t.feedback + added
    ensures
      var o := Outcome(t.questionnaires, |t.trackers|, f, now, env);
      var u := ProcessRow(s, f, now, env);
      && u.questionnaires == t.questionnaires
      && |u.trackers| == |t.trackers|
      && (forall i :: 0 <= i < |t.trackers| ==>
            u.trackers[i] ==
              if i in marked + (if o.Marked? then {f.id} else {}) then Sent(t.trackers[i], now) else t.trackers[i])
      && u.feedback == t.feedback + (added + match o case Untouched => [] case Marked(more) => more)
  {
    ProcessRowEffect(s, f, now, env);
    var o := Outcome(t.questionnaires, |t.trackers|, f, now, env);
    assert Delivered(s, f, now, env) == o.Marked?;
  }

  /** The loop never changes the questionnaire table or the number of trackers;
      it marks exactly the trackers whose rows it delivers and only appends
      feedback rows. */
  lemma {:induction false} ProcessRowsEffect(t: Tables, rows: seq<Tracker>, now: int, env: Env)
    ensures ProcessRows(t, rows, now, env).questionnaires == t.questionnaires
    ensures |ProcessRows(t, rows, now, env).trackers| == |t.trackers|
    ensures forall i :: 0 <= i < |t.trackers| ==>
      ProcessRows(t, rows, now, env).trackers[i] ==
        if i in MarkedIds(t.questionnaires, |t.trackers|, rows, now, env) then Sent(t.trackers[i], now) else t.trackers[i]
    ensures ProcessRows(t, rows, now, env).feedback == t.feedback + NewRows(t.questionnaires, |t.trackers|, rows, now, env)
    decreases |rows|
  {
    if rows != [] {
      var init, last := rows[..|rows| - 1], rows[|rows| - 1];
      ProcessRowsEffect(t, init, now, env);
      ProcessRowStep(t, ProcessRows(t, init, now, env), last, now, env,
        MarkedIds(t.questionnaires, |t.trackers|, init, now, env),
        NewRows(t.questionnaires, |t.trackers|, init, now, env));
    }
  }

  /** Rows the loop leaves untouched leave the tables as they are. */
  lemma {:induction false} UntouchedRowsChangeNothing(t: Tables, rows: seq<Tracker>, now: int, env: Env)
    requires forall k :: 0 <= k < |rows| ==> !Delivered(t, rows[k], now, env)
    ensures ProcessRows(t, rows, now, env) == t
    decreases |rows|
  {
    if rows != [] {
      UntouchedRowsChangeNothing(t, rows[..|rows| - 1], now, env);
    }
  }

  /** Every row the loop inserts is a pending placeholder for a tracker it marked. */
  lemma {:induction false} NewRowsArePlaceholders(qs: seq<Questionnaire>, n: nat, rows: seq<Tracker>, now: int, env: Env)
    ensures forall r :: r in NewRows(qs, n, rows, now, env) ==>
      exists k :: 0 <= k < |rows| && Outcome(qs, n, rows[k], now, env).Marked? && PlaceholderFor(r, qs, rows[k], now)
    decreases |rows|
  {
    if rows != [] {
      var init, last := rows[..|rows| - 1], rows[|rows| - 1];
      NewRowsArePlaceholders(qs, n, init, now, env);
      forall r | r in NewRows(qs, n, rows, now, env)
        ensures exists k :: 0 <= k < |rows| && Outcome(qs, n, rows[k], now, env).Marked? && PlaceholderFor(r, qs, rows[k], now)
      {
        if r in NewRows(qs, n, init, now, env) {
          var k :| 0 <= k < |init| && Outcome(qs, n, init[k], now, env).Marked? && PlaceholderFor(r, qs, init[k], now);
          assert rows[k] == init[k];
        } else {
          var o := Outcome(qs, n, last, now, env);
          assert o.Marked? && r in o.added;
          var q := QuestionnaireForOrder(qs, last.orderId).value;
          var all := Placeholders(q, last, last.products.items, now);
          assert r in all;
          assert PlaceholderFor(r, qs, last, now);
          assert rows[|rows| - 1] == last;
        }
      }
    }
  }

  // ---- the whole sweep -----------------------------------------------------

  /** One sweep: the result counts every selected row (skipped and failed ones
      too); a tracker ends marked sent, at the sweep's `now`, exactly when it was
      due and delivered, and is otherwise unchanged (in particular when it was
      not selected, or its order has no questionnaire); questionnaires are
      untouched and feedback rows are only appended. */
  lemma SweepEffect(t: Tables, now: int, env: Env)
    requires WellKeyed(t)
    requires env.selectError.None?
    ensures Sweep(t, now, env).result == Completed(|Selected(t.trackers, now)|)
    ensures WellKeyed(Sweep(t, now, env).state)
    ensures Sweep(t, now, env).state.questionnaires == t.questionnaires
    ensures |Sweep(t, now, env).state.trackers| == |t.trackers|
    ensures forall i :: 0 <= i < |t.trackers| ==>
      Sweep(t, now, env).state.trackers[i] ==
        if Due(t.trackers[i], now) && Delivered(t, t.trackers[i], now, env) then Sent(t.trackers[i], now)
        else t.trackers[i]
    ensures forall i :: 0 <= i < |t.trackers| && QuestionnaireForOrder(t.questionnaires, t.trackers[i].orderId).None? ==>
      Sweep(t, now, env).state.trackers[i] == t.trackers[i]
    ensures Sweep(t, now, env).state.feedback ==
      t.feedback + NewRows(t.questionnaires, |t.trackers|, Selected(t.trackers, now), now, env)
  {
    var ts := t.trackers;
    ProcessRowsEffect(t, Selected(ts, now), now, env);
    forall i | 0 <= i < |ts| {
      MarkedBySweep(t, now, env, i);
    }
  }

  /** In a well-keyed table, the sweep marks tracker i exactly when it is due
      and delivered. */
  lemma MarkedBySweep(t: Tables, now: int, env: Env, i: nat)
    requires WellKeyed(t)
    requires i < |t.trackers|
    ensures i in MarkedIds(t.questionnaires, |t.trackers|, Selected(t.trackers, now), now, env) <==>
      Due(t.trackers[i], now) && Delivered(t, t.trackers[i], now, env)
  {
    var ts := t.trackers;
    var pending := Selected(ts, now);
    MarkedIdsMember(t.questionnaires, |ts|, pending, now, env, i);
    if Due(ts[i], now) && Delivered(t, ts[i], now, env) {
      assert ts[i] in pending;
      var k :| 0 <= k < |pending| && pending[k] == ts[i];
      assert pending[k].id == i;
    }
    if i in MarkedIds(t.questionnaires, |ts|, pending, now, env) {
      var k :| 0 <= k < |pending| && pending[k].id == i && Outcome(t.questionnaires, |ts|, pending[k], now, env).Marked?;
      assert pending[k] in ts && Due(pending[k], now);
      var j :| 0 <= j < |ts| && ts[j] == pending[k];
      assert j == i;
    }
  }

  /** A tracker the sweep marks sent is never selected again, at any later time. */
  lemma SentRowsNeverReselected(t: Tables, now: int, env: Env, later: int)
    requires WellKeyed(t)
    requires env.selectError.None?
    ensures |Sweep(t, now, env).state.trackers| == |t.trackers|
    ensures forall i :: 0 <= i < |t.trackers| && Sweep(t, now, env).state.trackers[i] != t.trackers[i] ==>
      Sweep(t, now, env).state.trackers[i] == Sent(t.trackers[i], now) &&
      !Due(Sweep(t, now, env).state.trackers[i], later)
  {
    SweepEffect(t, now, env);
  }

  /** Running the sweep again at the same time, with the same collaborators,
      changes nothing: the rows it marked are no longer selected and the rows it
      skipped are skipped again. */
  lemma SweepIdempotent(t: Tables, now: int, env: Env)
    requires WellKeyed(t)
    requires env.selectError.None?
    ensures Sweep(Sweep(t, now, env).state, now, env).state == Sweep(t, now, env).state
  {
    SweepEffect(t, now, env);
    var s := Sweep(t, now, env).state;
    var again := Selected(s.trackers, now);
    forall k | 0 <= k < |again|
      ensures !Delivered(s, again[k], now, env)
    {
      var f := again[k];
      assert f in s.trackers && Due(f, now);
      var i := f.id;
      assert s.trackers[i] == f;
      assert f == t.trackers[i];
    }
    UntouchedRowsChangeNothing(s, again, now, env);
  }

  /** When the selection query throws, the job reports its message and changes nothing. */
  lemma SelectionFailureChangesNothing(t: Tables, now: int, env: Env)
    requires env.selectError.Some?
    ensures Sweep(t, now, env) == Swept(t, Failed(ErrorMessage(env.selectError.value)))
  {
  }

  // ---- the job as the source runs it ---------------------------------------

  /** One iteration of the loop, inside its try/catch: every early `return`
      is a `continue` or a caught exception. */
  method ProcessOne(db: Database, f: Tracker, now: int, env: Env)
    requires db.Valid()
    modifies db
    ensures db.Valid()
    ensures db.State() == ProcessRow(old(db.State()), f, now, env)
  {
    var fault := env.fault(f.id);
    if fault.LookupThrows? {
      return;
    }
    var found := QuestionnaireForOrder(db.questionnaires, f.orderId);
    if found.None? {
      return;
    }
    var q := found.value;
    if f.products.Unparseable? {
      return;
    }
    var items := f.products.items;
    var sent := env.send(EmailFor(q, items, env.appUrl));
    if !sent || fault.UpdateThrows? {
      return;
    }
    var updated := db.UpdateSent(f.id, now);
    if !updated {
      return;
    }
    ghost var marked := db.State();
    var rows := Placeholders(q, f, items, now);
    var j := 0;
    while j < |rows|
      invariant 0 <= j <= |rows|
      invariant fault.InsertThrowsAfter? ==> j <= fault.written
      invariant db.Valid()
      invariant db.State() == marked.(feedback := marked.feedback + rows[..j])
    {
      if fault.InsertThrowsAfter? && j == fault.written {
        return;
      }
      db.CreateFeedback(rows[j]);
      assert rows[..j + 1] == rows[..j] + [rows[j]];
      j := j + 1;
    }
    assert rows[..j] == rows[..InsertCount(fault, |items|)];
  }

  /** `sendScheduledFeedbackEmails`, with the single `now` read at its start. */
  method RunSweep(db: Database, now: int, env: Env) returns (result: SweepResult)
    requires db.Valid()
    modifies db
    ensures db.Valid()
    ensures Swept(db.State(), result) == Sweep(old(db.State()), now, env)
  {
    if env.selectError.Some? {
      return Failed(ErrorMessage(env.selectError.value));
    }
    ghost var before := db.State();
    var pending := Selected(db.trackers, now);
    var k := 0;
    while k < |pending|
      invariant 0 <= k <= |pending|
      invariant db.Valid()
      invariant db.State() == ProcessRows(before, pending[..k], now, env)
    {
      assert pending[..k + 1][..k] == pending[..k];
      ProcessOne(db, pending[k], now, env);
      k := k + 1;
    }
    assert pending[..k] == pending;
    result := Completed(|pending|);
  }
}
