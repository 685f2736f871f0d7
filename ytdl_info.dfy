/**
 * `GET /api/ytdl/info`: asks for the metadata of a url. The `url` query parameter is
 * required; it is passed on URI-encoded, with the API key in the query and,
 * when one is configured, in a header, and the answer is relayed. The
 * handler has no `try`, so a fetch that throws is left to the framework.
 */
module YtdlInfo {
  import opened Wrappers
  import opened Strings
  import opened Js
  import opened Http
  import opened Ytdl
  import UriComponent

  const Base := "https://ytdl.siputzx.my.id/get/info?url="

  /**
   * Up to the upstream call: a missing or empty `url` is 400
   * `url wajib`; otherwise a GET carrying only the key header. `url` is
   * `searchParams.get("url")` (`None` for `null`) and `env` is `process.env.YTDL_API_KEY`.
   */
  function Plan(url: Option<string>, env: Option<string>): (s: Step<()>)
    ensures s.Call? <==> url.Some? && url.value != ""
    ensures s.Respond? ==> s.reply == ErrorReply(400, "url wajib")
    ensures s.Call? ==>
      && s.request.verb == GET
      && s.request.url == QueryUrl(Base, url.value, ApiKey(env))
      && s.request.headers == KeyHeader(ApiKey(env))
      && s.request.body == None
  {
    if url.None? || url.value == "" then Respond(ErrorReply(400, "url wajib"))
    else
      var key := ApiKey(env);
      Call(Request(GET, QueryUrl(Base, url.value, key), KeyHeader(key), None), ())
  }

  /**
   * The upstream reads back exactly the `url` that was given: the value
   * after the base, up to the first `&`, decodes to it.
   */
  lemma ValueRoundTrip(url: string, env: Option<string>)
    requires url != ""
    ensures var u := Plan(Some(url), env).request.url;
      && IsPrefix(Base, u)
      && UriComponent.Decode(UpTo(u[|Base|..], '&')) == Some(url)
  {
    QueryUrlCarries(Base, url, ApiKey(env));
  }

  /**
   * After the upstream call: an answer is relayed; a thrown fetch, or a
   * relay that throws, escapes the handler.
   */
  function Finish(fetched: Fetched): (r: Reply)
    ensures fetched.Thrown? ==> r == Uncaught(fetched.message)
    ensures fetched.Answer? && Relay(fetched.status, fetched.body).Done? ==> r == Relay(fetched.status, fetched.body).value
    ensures fetched.Answer? && Relay(fetched.status, fetched.body).Threw? ==> r == Uncaught(NullBodyError(fetched.status))
  {
    match fetched
    case Thrown(m) => Uncaught(m)
    case Answer(status, body) =>
      match Relay(status, body)
      case Done(reply) => reply
      case Threw => Uncaught(NullBodyError(status))
  }

  function Handle(url: Option<string>, env: Option<string>, fetched: Fetched): (r: Reply)
    ensures Plan(url, env).Call? && fetched.Answer? && IsOk(fetched.status) && fetched.body.Ok?
      ==> r == Reply(200, fetched.body.value)
    ensures Plan(url, env).Call? && fetched.Answer? && !IsOk(fetched.status) && !NullBodyStatus(fetched.status)
      ==> r.Reply? && r.status == fetched.status
    ensures r.Uncaught? <==> (Plan(url, env).Call? && (fetched.Thrown? || (fetched.Answer? && fetched.status == 304)))
  {
    match Plan(url, env)
    case Respond(reply) => reply
    case Call(_, _) => Finish(fetched)
  }

  /** A rejected request gets its reply whatever the upstream would have done: no call is made. */
  lemma RejectedWithoutUpstream(url: Option<string>, env: Option<string>, f1: Fetched, f2: Fetched)
    requires Plan(url, env).Respond?
    ensures Handle(url, env, f1) == Handle(url, env, f2) == ErrorReply(400, "url wajib")
  {
  }
}
