/**
 * `POST /api/youtube`: the shared validation pipeline with the host tests
 * `youtube.com` and `youtu.be`, the all-in-one upstream service, and a file
 * named after the upstream title.
 */
module YouTube {
  import opened Wrappers
  import opened Strings
  import opened Js
  import opened Http
  import opened Aggregator

  const FetchFailure := "Failed to fetch from YouTube API"
  const ProcessFailure := "Failed to process YouTube URL"

  /** The host test: the lower-cased hostname names YouTube or its short-link domain. */
  predicate AcceptedHost(h: string) {
    Contains(Lower(h), "youtube.com") || Contains(Lower(h), "youtu.be")
  }

  /** Up to the upstream call: a missing url, an unparseable url or a foreign host is answered at once. */
  function Plan(body: Result<Json, string>, parseHost: string -> Option<string>): (s: Step<Json>)
    ensures s.Call? <==> (ReadUrl(body).Ok? && HostOf(ReadUrl(body).value, parseHost).Some?
      && AcceptedHost(HostOf(ReadUrl(body).value, parseHost).value))
    ensures s.Call? ==> Get(body.value, "url") == Some(s.kept) && !ToStringThrows(s.kept)
    ensures s.Call? ==> s.request == Upstream("aio", JsonToString(s.kept).value)
    ensures s.Respond? ==> IsFailure(s.reply)
    ensures ReadUrl(body).Ok? && ToStringThrows(ReadUrl(body).value) ==> s == Respond(InternalError)
    ensures ReadUrl(body).Ok? && HostOf(ReadUrl(body).value, parseHost).Some?
      && !AcceptedHost(HostOf(ReadUrl(body).value, parseHost).value)
      ==> s == Respond(ErrorReply(400, "Invalid YouTube URL"))
  {
    HostPlan(body, parseHost, ["youtube.com", "youtu.be"], "Invalid YouTube URL", "aio")
  }

  /**
   * `${data.result.title}.mp4`: the title as a string, then the extension;
   * the template literal throws on a title that cannot be converted.
   */
  function Filename(title: Option<Json>): (f: Eval<string>)
    ensures f.Threw? <==> title.Some? && ToStringThrows(title.value)
    ensures title.Some? && title.value.Str? ==> f == Done(title.value.s + ".mp4")
    ensures title.None? ==> f == Done("undefined.mp4")
  {
    match ToString(title)
    case Threw => Threw
    case Done(t) =>
      assert title.None? ==> t + ".mp4" == "undefined.mp4";
      Done(t + ".mp4")
  }

  /**
   * The success envelope: `title` and `download_url` copied from
   * `data.result` (left out when undefined) and the file name built from
   * the title, which throws when the title cannot be converted.
   */
  function Envelope(data: Json): (r: Eval<Json>)
    ensures r.Done? <==> Inner(data, "result").Done? && Filename(Get(Inner(data, "result").value, "title")).Done?
    ensures r.Done? ==> var result := Inner(data, "result").value;
      && r.value.Obj?
      && r.value.fields.Keys <= {"status", "title", "download_url", "filename"}
      && Get(r.value, "status") == Some(Str("success"))
      && Get(r.value, "title") == Get(result, "title")
      && Get(r.value, "download_url") == Get(result, "download_url")
      && Get(r.value, "filename") == Some(Str(Filename(Get(result, "title")).value))
  {
    match Inner(data, "result")
    case Threw => Threw
    case Done(result) =>
      var m := With(With(SuccessFields,
        "title", Get(result, "title")),
        "download_url", Get(result, "download_url"));
      match Filename(Get(result, "title"))
      case Threw => Threw
      case Done(name) => Done(Obj(m["filename" := Str(name)]))
  }

  /** After the upstream call. */
  function Finish(fetched: Fetched): (r: Reply)
    ensures WellFormed(r)
    ensures IsOk(r.status) <==> (Gate(fetched, FetchFailure, ProcessFailure).Ok?
      && Envelope(Gate(fetched, FetchFailure, ProcessFailure).value).Done?)
    ensures IsOk(r.status) ==> r.body == Envelope(fetched.body.value).value
  {
    var g := Gate(fetched, FetchFailure, ProcessFailure);
    Conclude(g, if g.Ok? then Envelope(g.value) else Threw)
  }

  /**
   * The handler: `parseHost` stands for `new URL(...).hostname` and
   * `fetched` for what the upstream call gives back.
   */
  function Handle(body: Result<Json, string>, parseHost: string -> Option<string>, fetched: Fetched): (r: Reply)
    ensures WellFormed(r)
  {
    match Plan(body, parseHost)
    case Respond(reply) => reply
    case Call(_, _) => Finish(fetched)
  }

  /** A rejected request gets its reply whatever the upstream would have done: no call is made. */
  lemma RejectedWithoutUpstream(body: Result<Json, string>, parseHost: string -> Option<string>,
                                f1: Fetched, f2: Fetched)
    requires Plan(body, parseHost).Respond?
    ensures Handle(body, parseHost, f1) == Handle(body, parseHost, f2) == Plan(body, parseHost).reply
  {
  }
}
