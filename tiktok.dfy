/**
 * `POST /api/tiktok`: the shared validation pipeline with the host test
 * `tiktok.com`, then an envelope copying the upstream result's fields and
 * naming the file `TikTok_<timestamp>.mp4`.
 */
module TikTok {
  import opened Wrappers
  import opened Strings
  import opened Js
  import opened Http
  import opened Aggregator

  const FetchFailure := "Failed to fetch from TikTok API"
  const ProcessFailure := "Failed to process TikTok URL"

  /** Up to the upstream call: a missing url, an unparseable url or a foreign host is answered at once. */
  function Plan(body: Result<Json, string>, parseHost: string -> Option<string>): (s: Step<Json>)
    ensures s.Call? <==> (ReadUrl(body).Ok? && HostOf(ReadUrl(body).value, parseHost).Some?
      && Contains(Lower(HostOf(ReadUrl(body).value, parseHost).value), "tiktok.com"))
    ensures s.Call? ==> Get(body.value, "url") == Some(s.kept) && !ToStringThrows(s.kept)
    ensures s.Call? ==> s.request == Upstream("tiktok-hd", JsonToString(s.kept).value)
    ensures s.Respond? ==> IsFailure(s.reply)
    ensures ReadUrl(body).Ok? && ToStringThrows(ReadUrl(body).value) ==> s == Respond(InternalError)
    ensures ReadUrl(body).Ok? && HostOf(ReadUrl(body).value, parseHost).Some?
      && !Contains(Lower(HostOf(ReadUrl(body).value, parseHost).value), "tiktok.com")
      ==> s == Respond(ErrorReply(400, "Invalid TikTok URL"))
  {
    HostPlan(body, parseHost, ["tiktok.com"], "Invalid TikTok URL", "tiktok-hd")
  }

  /** `TikTok_${Date.now()}.mp4`. */
  function Filename(ts: nat): string {
    Stamped("TikTok_", ts, ".mp4")
  }

  /** The fields the envelope copies from `data.result`, in order. */
  const Copied: seq<string> := ["title", "region", "duration", "links"]

  /** The copied fields clash with neither `status` nor `filename`. */
  lemma CopiedKeysAreOwn()
    ensures "status" !in Copied && "filename" !in Copied
  {
  }

  /**
   * The success envelope: `title`, `region`, `duration` and `links` copied
   * from `data.result` (left out when undefined), and the stamped file name.
   */
  function Envelope(data: Json, ts: nat): (r: Eval<Json>)
    ensures r.Done? <==> Inner(data, "result").Done?
    ensures r.Done? ==>
      && r.value.Obj?
      && (forall k :: k in r.value.fields ==> k in Copied || k == "status" || k == "filename")
      && Get(r.value, "status") == Some(Str("success"))
      && (forall k :: k in Copied ==> Get(r.value, k) == Get(Inner(data, "result").value, k))
      && Get(r.value, "filename") == Some(Str(Filename(ts)))
  {
    match Inner(data, "result")
    case Threw => Threw
    case Done(result) =>
      CopiedKeysAreOwn();
      Done(SuccessEnvelope(result, Copied, Filename(ts)))
  }

  /** After the upstream call. */
  function Finish(fetched: Fetched, ts: nat): (r: Reply)
    ensures WellFormed(r)
    ensures IsOk(r.status) <==> (Gate(fetched, FetchFailure, ProcessFailure).Ok?
      && Envelope(Gate(fetched, FetchFailure, ProcessFailure).value, ts).Done?)
    ensures IsOk(r.status) ==> r.body == Envelope(fetched.body.value, ts).value
  {
    var g := Gate(fetched, FetchFailure, ProcessFailure);
    Conclude(g, if g.Ok? then Envelope(g.value, ts) else Threw)
  }

  /**
   * The handler: `parseHost` stands for `new URL(...).hostname`, `fetched`
   * for what the upstream call gives back and `ts` for `Date.now()`.
   */
  function Handle(body: Result<Json, string>, parseHost: string -> Option<string>, fetched: Fetched, ts: nat): (r: Reply)
    ensures WellFormed(r)
  {
    match Plan(body, parseHost)
    case Respond(reply) => reply
    case Call(_, _) => Finish(fetched, ts)
  }

  /** A rejected request gets its reply whatever the upstream would have done: no call is made. */
  lemma RejectedWithoutUpstream(body: Result<Json, string>, parseHost: string -> Option<string>,
                                f1: Fetched, ts1: nat, f2: Fetched, ts2: nat)
    requires Plan(body, parseHost).Respond?
    ensures Handle(body, parseHost, f1, ts1) == Handle(body, parseHost, f2, ts2) == Plan(body, parseHost).reply
  {
  }
}
