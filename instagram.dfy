/**
 * `POST /api/instagram`: the shared validation pipeline with the host test
 * `instagram.com`, then the per-item correction of the media `type` and the
 * success envelope `{ status, author, caption, media, filename }`.
 */
module Instagram {
  import opened Wrappers
  import opened Strings
  import opened Js
  import opened Http
  import opened Aggregator

  const FetchFailure := "Failed to fetch from Instagram API"
  const ProcessFailure := "Failed to process Instagram URL"

  /** Up to the upstream call: a missing url, an unparseable url or a foreign host is answered at once. */
  function Plan(body: Result<Json, string>, parseHost: string -> Option<string>): (s: Step<Json>)
    ensures s.Call? <==> (ReadUrl(body).Ok? && HostOf(ReadUrl(body).value, parseHost).Some?
      && Contains(Lower(HostOf(ReadUrl(body).value, parseHost).value), "instagram.com"))
    ensures s.Call? ==> Get(body.value, "url") == Some(s.kept) && !ToStringThrows(s.kept)
    ensures s.Call? ==> s.request == Upstream("instagram", JsonToString(s.kept).value)
    ensures s.Respond? ==> IsFailure(s.reply)
    ensures ReadUrl(body).Ok? && ToStringThrows(ReadUrl(body).value) ==> s == Respond(InternalError)
    ensures ReadUrl(body).Ok? && HostOf(ReadUrl(body).value, parseHost).Some?
      && !Contains(Lower(HostOf(ReadUrl(body).value, parseHost).value), "instagram.com")
      ==> s == Respond(ErrorReply(400, "Invalid Instagram URL"))
  {
    HostPlan(body, parseHost, ["instagram.com"], "Invalid Instagram URL", "instagram")
  }

  /** A url that cannot be converted to a string makes `new URL` throw: 500, whatever its text names. */
  lemma UnconvertibleUrlIsCaught(parseHost: string -> Option<string>)
    ensures Plan(Ok(Obj(map["url" := Arr([Str("https://instagram.com/p/1"), Obj(map["toString" := Num(0)])])])), parseHost)
      == Respond(InternalError)
  {
    var xs := [Str("https://instagram.com/p/1"), Obj(map["toString" := Num(0)])];
    assert ToStringThrows(xs[1]);
  }

  /** The correction turns an item into a video: the request url or the item's url says so. */
  predicate SaysVideo(url: Json, item: Json) {
    Includes(Some(url), "/reels/") == Done(true) || Includes(Get(item, "url"), ".mp4") == Done(true)
  }

  /**
   * One step of `data.result.media.map(...)`: read `item.type`, test the
   * request url for `/reels/` and, only when that fails, the item's url for
   * `.mp4`; the item is copied with `type` replaced. Reading from a `null`
   * item, or calling `includes` on a value that has none, throws.
   */
  function CorrectItem(url: Json, item: Json): (r: Eval<Json>)
    ensures r.Done? <==> (!item.Null? && (Includes(Some(url), "/reels/") == Done(true)
      || (Includes(Some(url), "/reels/") == Done(false) && Includes(Get(item, "url"), ".mp4").Done?)))
    ensures r.Done? ==> r.value.Obj?
    ensures r.Done? ==> Get(r.value, "type") == (if SaysVideo(url, item) then Some(Str("video")) else Get(item, "type"))
    ensures r.Done? && item.Obj? ==> forall k :: k != "type" ==> Get(r.value, k) == Get(item, k)
  {
    match Member(Some(item), "type")
    case Threw => Threw
    case Done(t) =>
      match Includes(Some(url), "/reels/")
      case Threw => Threw
      case Done(reels) =>
        if reels then Done(Obj(With(Spread(item), "type", Some(Str("video")))))
        else
          match Includes(Get(item, "url"), ".mp4")
          case Threw => Threw
          case Done(mp4) => Done(Obj(With(Spread(item), "type", if mp4 then Some(Str("video")) else t)))
  }

  /**
   * `media.map(...)`: it throws when some item throws; otherwise it keeps the
   * length and the order, each item replaced by its corrected copy.
   */
  function CorrectMedia(url: Json, items: seq<Json>): (r: Eval<seq<Json>>)
    ensures r.Done? <==> forall i :: 0 <= i < |items| ==> CorrectItem(url, items[i]).Done?
    ensures r.Done? ==> |r.value| == |items|
    ensures r.Done? ==> forall i :: 0 <= i < |items| ==> r.value[i] == CorrectItem(url, items[i]).value
    decreases |items|
  {
    if items == [] then Done([])
    else
      match CorrectItem(url, items[0])
      case Threw => Threw
      case Done(x) =>
        match CorrectMedia(url, items[1..])
        case Threw => Threw
        case Done(xs) =>
          assert forall i :: 1 <= i < |items| ==> items[i] == items[1..][i - 1];
          Done([x] + xs)
  }

  /** Correcting a corrected item changes nothing. */
  lemma CorrectItemIdempotent(url: Json, item: Json)
    requires CorrectItem(url, item).Done?
    ensures CorrectItem(url, CorrectItem(url, item).value) == CorrectItem(url, item)
  {
    var r := CorrectItem(url, item).value;
    var t := Get(r, "type");
    if Includes(Some(url), "/reels/") != Done(true) {
      assert item.Obj?;
      assert Get(r, "url") == Get(item, "url");
    }
    assert With(Spread(r), "type", t) == r.fields;
  }

  /** Correcting the media twice is correcting it once. */
  lemma CorrectMediaIdempotent(url: Json, items: seq<Json>)
    requires CorrectMedia(url, items).Done?
    ensures CorrectMedia(url, CorrectMedia(url, items).value) == CorrectMedia(url, items)
  {
    var fixed := CorrectMedia(url, items).value;
    forall i | 0 <= i < |items|
      ensures CorrectItem(url, fixed[i]) == Done(fixed[i])
    {
      CorrectItemIdempotent(url, items[i]);
    }
    assert CorrectMedia(url, fixed).value == fixed;
  }

  /** `Instagram_${Date.now()}`: no extension. */
  function Filename(ts: nat): string {
    Stamped("Instagram_", ts, "")
  }

  /** The filename is `Instagram_` and the timestamp's digits, and has no `.` at all. */
  lemma FilenameHasNoExtension(ts: nat)
    ensures IsPrefix("Instagram_", Filename(ts))
    ensures '.' !in Filename(ts)
  {
    StampedShape("Instagram_", ts, "");
    var f := Filename(ts);
    assert f == "Instagram_" + NatToString(ts);
    assert forall k :: |"Instagram_"| <= k < |f| ==> IsDigit(f[k]) by {
      forall k | |"Instagram_"| <= k < |f| ensures IsDigit(f[k]) {
        assert f[k] == f[|"Instagram_"|..|f|][k - |"Instagram_"|];
      }
    }
  }

  /**
   * The success envelope: `data.result.media` must be an array and every
   * item must correct; `author` and `caption` are copied when defined.
   */
  function Envelope(url: Json, data: Json, ts: nat): (r: Eval<Json>)
    ensures r.Done? <==> (Inner(data, "result").Done? && Get(Inner(data, "result").value, "media").Some?
      && Get(Inner(data, "result").value, "media").value.Arr?
      && CorrectMedia(url, Get(Inner(data, "result").value, "media").value.items).Done?)
    ensures r.Done? ==> var result := Inner(data, "result").value;
      && r.value.Obj?
      && r.value.fields.Keys <= {"status", "author", "caption", "media", "filename"}
      && Get(r.value, "status") == Some(Str("success"))
      && Get(r.value, "author") == Get(result, "author")
      && Get(r.value, "caption") == Get(result, "caption")
      && Get(r.value, "media") == Some(Arr(CorrectMedia(url, Get(result, "media").value.items).value))
      && Get(r.value, "filename") == Some(Str(Filename(ts)))
  {
    match Inner(data, "result")
    case Threw => Threw
    case Done(result) =>
      match Get(result, "media")
      case Some(Arr(items)) =>
        (match CorrectMedia(url, items)
         case Threw => Threw
         case Done(fixed) =>
           var m := With(With(SuccessFields, "author", Get(result, "author")), "caption", Get(result, "caption"));
           Done(Obj(m["media" := Arr(fixed)]["filename" := Str(Filename(ts))])))
      case _ => Threw
  }

  /** After the upstream call. */
  function Finish(url: Json, fetched: Fetched, ts: nat): (r: Reply)
    ensures WellFormed(r)
    ensures IsOk(r.status) <==> (Gate(fetched, FetchFailure, ProcessFailure).Ok?
      && Envelope(url, Gate(fetched, FetchFailure, ProcessFailure).value, ts).Done?)
    ensures IsOk(r.status) ==> r.body == Envelope(url, fetched.body.value, ts).value
    ensures IsOk(r.status) ==> Get(r.body, "media").Some? && Get(r.body, "media").value.Arr?
  {
    var g := Gate(fetched, FetchFailure, ProcessFailure);
    Conclude(g, if g.Ok? then Envelope(url, g.value, ts) else Threw)
  }

  /**
   * The handler: `parseHost` stands for `new URL(...).hostname`, `fetched`
   * for what the upstream call gives back and `ts` for `Date.now()`.
   */
  function Handle(body: Result<Json, string>, parseHost: string -> Option<string>, fetched: Fetched, ts: nat): (r: Reply)
    ensures WellFormed(r)
    ensures IsOk(r.status) ==> Get(r.body, "media").Some? && Get(r.body, "media").value.Arr?
  {
    match Plan(body, parseHost)
    case Respond(reply) => reply
    case Call(_, url) => Finish(url, fetched, ts)
  }

  /** A rejected request gets its reply whatever the upstream would have done: no call is made. */
  lemma RejectedWithoutUpstream(body: Result<Json, string>, parseHost: string -> Option<string>,
                                f1: Fetched, ts1: nat, f2: Fetched, ts2: nat)
    requires Plan(body, parseHost).Respond?
    ensures Handle(body, parseHost, f1, ts1) == Handle(body, parseHost, f2, ts2) == Plan(body, parseHost).reply
  {
  }
}
