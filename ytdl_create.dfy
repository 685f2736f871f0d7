/**
 * `POST /api/ytdl/create`: starts a download job. It reads `url` and
 * `format_id` (default `null`) from the body, posts them to the job service
 * with the API key in the query and, when one is configured, in a header,
 * and relays the answer.
 */
module YtdlCreate {
  import opened Wrappers
  import opened Strings
  import opened Js
  import opened Http
  import opened Ytdl

  const JobBase := "https://ytdl.siputzx.my.id/create/job?apikey="

  /** The headers: JSON content, and the key header exactly when a key is configured. */
  function Headers(key: string): (h: map<string, string>)
    ensures "Content-Type" in h && h["Content-Type"] == "application/json"
    ensures "x-api-key" in h <==> key != ""
    ensures "x-api-key" in h ==> h["x-api-key"] == key
    ensures forall k :: k in h ==> k == "Content-Type" || k == "x-api-key"
  {
    map["Content-Type" := "application/json"] + KeyHeader(key)
  }

  /** `{ url, format_id }` with `format_id = null` when the body has none. */
  function JobBody(url: Json, formatId: Option<Json>): (b: Json)
    ensures b.Obj? && b.fields.Keys == {"url", "format_id"}
    ensures b.fields["url"] == url
    ensures b.fields["format_id"] == formatId.GetOr(Null)
  {
    Obj(map["url" := url, "format_id" := formatId.GetOr(Null)])
  }

  /**
   * Up to the upstream call: a body that does not parse is caught (500 with
   * its message); a falsy url is 400 `url wajib`; otherwise the POST to the
   * job service. `env` stands for `process.env.YTDL_API_KEY`.
   */
  function Plan(body: Result<Json, string>, env: Option<string>): (s: Step<()>)
    ensures body.Err? ==> s == Respond(ErrorReply(500, MessageOr(body.error, "internal error")))
    ensures s.Call? <==> (body.Ok? && Truthy(Get(OrElse(Some(body.value), Obj(map[])), "url")))
    ensures body.Ok? && !Truthy(Get(OrElse(Some(body.value), Obj(map[])), "url"))
      ==> s == Respond(ErrorReply(400, "url wajib"))
    ensures s.Call? ==> var src := OrElse(Some(body.value), Obj(map[]));
      && s.request.verb == POST
      && s.request.url == JobBase + ApiKey(env)
      && s.request.headers == Headers(ApiKey(env))
      && s.request.body == Some(JobBody(Get(src, "url").value, Get(src, "format_id")))
  {
    match body
    case Err(m) => Respond(ErrorReply(500, MessageOr(m, "internal error")))
    case Ok(b) =>
      var src := OrElse(Some(b), Obj(map[]));
      var url := Get(src, "url");
      if !Truthy(url) then Respond(ErrorReply(400, "url wajib"))
      else
        var key := ApiKey(env);
        Call(Request(POST, JobBase + key, Headers(key), Some(JobBody(url.value, Get(src, "format_id")))), ())
  }

  /** The query always carries the key, empty when none is configured. */
  lemma QueryCarriesKey(body: Result<Json, string>, env: Option<string>)
    requires Plan(body, env).Call?
    ensures IsPrefix(JobBase, Plan(body, env).request.url)
    ensures Plan(body, env).request.url[|JobBase|..] == ApiKey(env)
  {
    var u := Plan(body, env).request.url;
    assert u == JobBase + ApiKey(env);
    assert u[|JobBase|..] == ApiKey(env);
  }

  /**
   * After the upstream call: a thrown fetch, or a relay that throws, is
   * caught (500 with its message or `internal error`); an answer is relayed.
   */
  function Finish(fetched: Fetched): (r: Reply)
    ensures r.Reply?
    ensures fetched.Thrown? ==> r.status == 500 && r.body == ErrorBody(Str(MessageOr(fetched.message, "internal error")))
    ensures fetched.Answer? && Relay(fetched.status, fetched.body).Done? ==> r == Relay(fetched.status, fetched.body).value
    ensures fetched.Answer? && Relay(fetched.status, fetched.body).Threw?
      ==> r == ErrorReply(500, NullBodyError(fetched.status))
  {
    match fetched
    case Thrown(m) => ErrorReply(500, MessageOr(m, "internal error"))
    case Answer(status, body) =>
      match Relay(status, body)
      case Done(reply) => reply
      case Threw => ErrorReply(500, MessageOr(NullBodyError(status), "internal error"))
  }

  function Handle(body: Result<Json, string>, env: Option<string>, fetched: Fetched): (r: Reply)
    ensures r.Reply?
    ensures Plan(body, env).Call? && fetched.Answer? && IsOk(fetched.status) && fetched.body.Ok?
      ==> r == Reply(200, fetched.body.value)
    ensures Plan(body, env).Call? && fetched.Answer? && !IsOk(fetched.status) && !NullBodyStatus(fetched.status)
      ==> r.status == fetched.status
    ensures Plan(body, env).Call? && fetched.Answer? && fetched.status == 304 ==> r.status == 500
  {
    match Plan(body, env)
    case Respond(reply) => reply
    case Call(_, _) => Finish(fetched)
  }

  /** A rejected request gets its reply whatever the upstream would have done: no call is made. */
  lemma RejectedWithoutUpstream(body: Result<Json, string>, env: Option<string>, f1: Fetched, f2: Fetched)
    requires Plan(body, env).Respond?
    ensures Handle(body, env, f1) == Handle(body, env, f2) == Plan(body, env).reply
  {
  }
}
