/**
 * `GET /api/ytdl/check`: polls a job by its id. The `job_id` query parameter is
 * required; it is passed on URI-encoded, with the API key in the query and,
 * when one is configured, in a header, and the answer is relayed. The
 * handler has no `try`, so a fetch that throws is left to the framework.
 */
module YtdlCheck {
  import opened Wrappers
  import opened Strings
  import opened Js
  import opened Http
  import opened Ytdl
  import UriComponent

  const Base := "https://ytdl.siputzx.my.id/check/job?job_id="

  /**
   * Up to the upstream call: a missing or empty `job_id` is 400
   * `job_id wajib`; otherwise a GET carrying only the key header. `jobId` is
   * `searchParams.get("job_id")` (`None` for `null`) and `env` is `process.env.YTDL_API_KEY`.
   */
  function Plan(jobId: Option<string>, env: Option<string>): (s: Step<()>)
    ensures s.Call? <==> jobId.Some? && jobId.value != ""
    ensures s.Respond? ==> s.reply == ErrorReply(400, "job_id wajib")
    ensures s.Call? ==>
      && s.request.verb == GET
      && s.request.url == QueryUrl(Base, jobId.value, ApiKey(env))
      && s.request.headers == KeyHeader(ApiKey(env))
      && s.request.body == None
  {
    if jobId.None? || jobId.value == "" then Respond(ErrorReply(400, "job_id wajib"))
    else
      var key := ApiKey(env);
      Call(Request(GET, QueryUrl(Base, jobId.value, key), KeyHeader(key), None), ())
  }

  /**
   * The upstream reads back exactly the `job_id` that was given: the value
   * after the base, up to the first `&`, decodes to it.
   */
  lemma ValueRoundTrip(jobId: string, env: Option<string>)
    requires jobId != ""
    ensures var u := Plan(Some(jobId), env).request.url;
      && IsPrefix(Base, u)
      && UriComponent.Decode(UpTo(u[|Base|..], '&')) == Some(jobId)
  {
    QueryUrlCarries(Base, jobId, ApiKey(env));
  }

  /**
   * After the upstream call: an answer is relayed; a thrown fetch, or a
   * relay that throws, escapes the handler.
   */
  function Finish(fetched: Fetched): (r: Reply)
    ensures fetched.Thrown? ==> r == Uncaught(fetched.message)
    ensures fetched.Answer? && Relay(fetched.status, fetched.body).Done? ==> r == Relay(fetched.status, fetched.body).value
    ensures fetched.Answer? && Relay(fetched.status, fetched.body).Threw? ==> r == Uncaught(NullBodyError(fetched.status))
  {
    match fetched
    case Thrown(m) => Uncaught(m)
    case Answer(status, body) =>
      match Relay(status, body)
      case Done(reply) => reply
      case Threw => Uncaught(NullBodyError(status))
  }

  function Handle(jobId: Option<string>, env: Option<string>, fetched: Fetched): (r: Reply)
    ensures Plan(jobId, env).Call? && fetched.Answer? && IsOk(fetched.status) && fetched.body.Ok?
      ==> r == Reply(200, fetched.body.value)
    ensures Plan(jobId, env).Call? && fetched.Answer? && !IsOk(fetched.status) && !NullBodyStatus(fetched.status)
      ==> r.Reply? && r.status == fetched.status
    ensures r.Uncaught? <==> (Plan(jobId, env).Call? && (fetched.Thrown? || (fetched.Answer? && fetched.status == 304)))
  {
    match Plan(jobId, env)
    case Respond(reply) => reply
    case Call(_, _) => Finish(fetched)
  }

  /** A rejected request gets its reply whatever the upstream would have done: no call is made. */
  lemma RejectedWithoutUpstream(jobId: Option<string>, env: Option<string>, f1: Fetched, f2: Fetched)
    requires Plan(jobId, env).Respond?
    ensures Handle(jobId, env, f1) == Handle(jobId, env, f2) == ErrorReply(400, "job_id wajib")
  {
  }
}
