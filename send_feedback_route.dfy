/** The endpoint a cron service calls to run the feedback sweep
    (app/routes/api.jobs.send-feedback.tsx): a bearer-secret gate in front of
    the job, whose result it returns as is. */
module SendFeedbackRoute {
  import opened Common
  import opened Text
  import opened Store
  import opened FeedbackJob

  const BEARER := "Bearer "

  datatype TriggerBody = Denied(error: string) | JobResult(result: SweepResult) | UseHint(message: string)

  /** The gate: with no (or an empty) secret configured anyone may call;
      otherwise the Authorization header must be exactly "Bearer <secret>". */
  predicate Authorized(header: Option<string>, secret: Option<string>) {
    !Truthy(secret) || header == Some(BEARER + secret.value)
  }

  /** The gate admits a call exactly when no secret is set or the header is the
      "Bearer " scheme followed by the secret itself. */
  lemma AuthorizedMeans(header: Option<string>, secret: Option<string>)
    ensures Authorized(header, secret) <==>
      !Truthy(secret) ||
      (header.Some? && StartsWith(header.value, BEARER) && header.value[|BEARER|..] == secret.value)
  {
    if Truthy(secret) && header.Some? && StartsWith(header.value, BEARER) && header.value[|BEARER|..] == secret.value {
      assert header.value == header.value[..|BEARER|] + header.value[|BEARER|..];
    }
    if Truthy(secret) && header == Some(BEARER + secret.value) {
      assert header.value[..|BEARER|] == BEARER;
      assert header.value[|BEARER|..] == secret.value;
    }
  }

  /** POST: 401 without touching the database when the gate refuses; otherwise
      the sweep runs and its result is returned with status 200, a failed sweep
      included (the job catches its own errors, so the route's 500 branch is
      never taken). */
  method Trigger(db: Database, header: Option<string>, secret: Option<string>, now: int, env: Env)
    returns (reply: Reply<TriggerBody>)
    requires db.Valid()
    modifies db
    ensures db.Valid()
    ensures !Authorized(header, secret) ==>
      reply == Reply(401, Denied("Unauthorized")) && db.State() == old(db.State())
    ensures Authorized(header, secret) ==>
      var swept := Sweep(old(db.State()), now, env);
      reply == Reply(200, JobResult(swept.result)) && db.State() == swept.state
  {
    if !Authorized(header, secret) {
      return Reply(401, Denied("Unauthorized"));
    }
    var result := RunSweep(db, now, env);
    reply := Reply(200, JobResult(result));
  }

  /** GET: a fixed 405 pointing at POST. */
  function Loader(): (reply: Reply<TriggerBody>)
    ensures reply.status == 405 && reply.body.UseHint?
  {
    Reply(405, UseHint("Use POST to trigger the job"))
  }
}
