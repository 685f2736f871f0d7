/**
 * `POST /api/dl`: the generic tunnel handler. It reads `url` and
 * `videoQuality` from the body (an absent or `null` body counts as `{}`),
 * always asks the upstream for video with audio (`downloadMode: "auto"`)
 * with fixed flags, and relays the upstream answer.
 */
module Tunnel {
  import opened Wrappers
  import opened Strings
  import opened Js
  import opened Http

  const Endpoint := "https://dl.siputzx.my.id/"

  /**
   * `videoQuality = "1080"` in the destructuring, then `String(videoQuality)`,
   * which throws on a value that cannot be converted.
   */
  function Quality(requested: Option<Json>): (q: Eval<string>)
    ensures requested.None? ==> q == Done("1080")
    ensures requested.Some? && requested.value.Str? ==> q == Done(requested.value.s)
    ensures requested.Some? && requested.value.Num? ==> q == Done(IntToString(requested.value.n))
    ensures q.Threw? <==> requested.Some? && ToStringThrows(requested.value)
  {
    match requested
    case None => Done("1080")
    case Some(v) => JsonToString(v)
  }

  /** `downloadMode === "auto" ? "auto" : "auto"`: whatever was requested. */
  function Mode(requested: Option<Json>): (m: string)
    ensures m == "auto"
  {
    var dm := requested.GetOr(Str("auto"));
    if dm == Str("auto") then "auto" else "auto"
  }

  /** The upstream body: the url, the quality as a string, the forced mode and the fixed flags. */
  function UpstreamBody(url: Json, quality: string, mode: Option<Json>): (b: Json)
    ensures b.Obj? && b.fields.Keys == {"url", "videoQuality", "downloadMode", "allowH265", "alwaysProxy", "convertGif"}
    ensures b.fields["url"] == url && b.fields["videoQuality"] == Str(quality)
    ensures b.fields["downloadMode"] == Str("auto")
    ensures b.fields["allowH265"] == Bool(false) && b.fields["alwaysProxy"] == Bool(false)
    ensures b.fields["convertGif"] == Bool(true)
  {
    Obj(map[
      "url" := url,
      "videoQuality" := Str(quality),
      "downloadMode" := Str(Mode(mode)),
      "allowH265" := Bool(false),
      "alwaysProxy" := Bool(false),
      "convertGif" := Bool(true)])
  }

  /** `body || {}`: the destructuring source, never `null`. */
  function Source(b: Json): (src: Json)
    ensures !Nullish(Some(src))
    ensures Truthy(Some(b)) ==> src == b
  {
    OrElse(Some(b), Obj(map[]))
  }

  /**
   * Up to the upstream call: a body that does not parse is caught (500 with
   * the parse error's message); a falsy url is 400 `url wajib`; a quality
   * that cannot be converted is caught (500 with the TypeError's message);
   * otherwise the POST to the tunnel service.
   */
  function Plan(body: Result<Json, string>): (s: Step<()>)
    ensures body.Err? ==> s == Respond(ErrorReply(500, MessageOr(body.error, "internal error")))
    ensures s.Call? <==> (body.Ok? && Truthy(Get(Source(body.value), "url"))
      && Quality(Get(Source(body.value), "videoQuality")).Done?)
    ensures body.Ok? && !Truthy(Get(Source(body.value), "url")) ==> s == Respond(ErrorReply(400, "url wajib"))
    ensures (body.Ok? && Truthy(Get(Source(body.value), "url"))
      && Quality(Get(Source(body.value), "videoQuality")).Threw?)
      ==> s == Respond(ErrorReply(500, ConversionError))
    ensures s.Call? ==> var src := Source(body.value);
      && s.request.verb == POST && s.request.url == Endpoint
      && s.request.headers == map["Accept" := "application/json", "Content-Type" := "application/json"]
      && s.request.body == Some(UpstreamBody(Get(src, "url").value, Quality(Get(src, "videoQuality")).value,
                                             Get(src, "downloadMode")))
  {
    match body
    case Err(m) => Respond(ErrorReply(500, MessageOr(m, "internal error")))
    case Ok(b) =>
      var src := Source(b);
      var url := Get(src, "url");
      if !Truthy(url) then Respond(ErrorReply(400, "url wajib"))
      else
        match Quality(Get(src, "videoQuality"))
        case Threw => Respond(ErrorReply(500, MessageOr(ConversionError, "internal error")))
        case Done(quality) =>
          Call(Request(POST, Endpoint,
                       map["Accept" := "application/json", "Content-Type" := "application/json"],
                       Some(UpstreamBody(url.value, quality, Get(src, "downloadMode")))), ())
  }

  /** An object quality whose `toString` is a plain value is caught: 500, no upstream call. */
  lemma UnconvertibleQualityIsCaught(url: string)
    requires url != ""
    ensures Plan(Ok(Obj(map["url" := Str(url), "videoQuality" := Obj(map["toString" := Num(0)])])))
      == Respond(ErrorReply(500, ConversionError))
  {
  }

  /** A body that is `null` has no url: 400, no upstream call. */
  lemma NullBodyRejected()
    ensures Plan(Ok(Null)) == Respond(ErrorReply(400, "url wajib"))
  {
  }

  /** Whatever mode the caller asks for, the upstream is asked for `auto`. */
  lemma ModeIsForced(url: string, mode: Json)
    requires url != ""
    ensures var s := Plan(Ok(Obj(map["url" := Str(url), "downloadMode" := mode])));
      s.Call? && s.request.body.value.fields["downloadMode"] == Str("auto")
  {
  }

  /**
   * After the upstream call: a thrown fetch, or a relay that throws, is
   * caught (500 with its message or `internal error`); an answer is relayed.
   */
  function Finish(fetched: Fetched): (r: Reply)
    ensures r.Reply?
    ensures fetched.Thrown? ==> r.status == 500 && r.body == ErrorBody(Str(MessageOr(fetched.message, "internal error")))
    ensures fetched.Answer? && Relay(fetched.status, fetched.body).Done? ==> r == Relay(fetched.status, fetched.body).value
    ensures fetched.Answer? && Relay(fetched.status, fetched.body).Threw?
      ==> r == ErrorReply(500, NullBodyError(fetched.status))
  {
    match fetched
    case Thrown(m) => ErrorReply(500, MessageOr(m, "internal error"))
    case Answer(status, body) =>
      match Relay(status, body)
      case Done(reply) => reply
      case Threw => ErrorReply(500, MessageOr(NullBodyError(status), "internal error"))
  }

  function Handle(body: Result<Json, string>, fetched: Fetched): (r: Reply)
    ensures r.Reply?
    ensures Plan(body).Call? && fetched.Answer? && IsOk(fetched.status) && fetched.body.Ok?
      ==> r == Reply(200, fetched.body.value)
    ensures Plan(body).Call? && fetched.Answer? && !IsOk(fetched.status) && !NullBodyStatus(fetched.status)
      ==> r.status == fetched.status
    ensures Plan(body).Call? && fetched.Answer? && fetched.status == 304 ==> r.status == 500
  {
    match Plan(body)
    case Respond(reply) => reply
    case Call(_, _) => Finish(fetched)
  }

  /** A rejected request gets its reply whatever the upstream would have done: no call is made. */
  lemma RejectedWithoutUpstream(body: Result<Json, string>, f1: Fetched, f2: Fetched)
    requires Plan(body).Respond?
    ensures Handle(body, f1) == Handle(body, f2) == Plan(body).reply
  {
  }
}
