/**
 * `POST /api/spotify`: the url is validated by a substring test on the
 * whole value, with no hostname parsing; the envelope renames the upstream
 * fields `artis` and `download` and names the file `<artist> - <title>.mp3`.
 */
module Spotify {
  import opened Wrappers
  import opened Strings
  import opened Js
  import opened Http
  import opened Aggregator

  const FetchFailure := "Failed to fetch from Spotify API"
  const ProcessFailure := "Failed to process Spotify URL"

  /**
   * Up to the upstream call: a missing url is 400; `url.includes(...)` is
   * a case-sensitive substring test on a string (and an element test on an
   * array), and throws (500) on any other value; a url that passes and
   * cannot be converted to a string makes `encodeURIComponent` throw (500).
   */
  function Plan(body: Result<Json, string>): (s: Step<Json>)
    ensures s.Call? <==> (ReadUrl(body).Ok? && Includes(Some(ReadUrl(body).value), "open.spotify.com") == Done(true)
      && !ToStringThrows(ReadUrl(body).value))
    ensures s.Call? ==> Get(body.value, "url") == Some(s.kept) && !ToStringThrows(s.kept)
    ensures s.Call? ==> s.request == Upstream("spotify", JsonToString(s.kept).value)
    ensures s.Respond? ==> IsFailure(s.reply)
    ensures ReadUrl(body).Ok? && Includes(Some(ReadUrl(body).value), "open.spotify.com") == Done(false)
      ==> s == Respond(ErrorReply(400, "Invalid Spotify URL"))
    ensures ReadUrl(body).Ok? && Includes(Some(ReadUrl(body).value), "open.spotify.com").Threw?
      ==> s == Respond(InternalError)
    ensures (ReadUrl(body).Ok? && Includes(Some(ReadUrl(body).value), "open.spotify.com") == Done(true)
      && ToStringThrows(ReadUrl(body).value)) ==> s == Respond(InternalError)
  {
    match ReadUrl(body)
    case Err(e) => Respond(e)
    case Ok(url) =>
      match Includes(Some(url), "open.spotify.com")
      case Threw => Respond(InternalError)
      case Done(found) =>
        if !found then Respond(ErrorReply(400, "Invalid Spotify URL"))
        else
          match JsonToString(url)
          case Threw => Respond(InternalError)
          case Done(text) => Call(Upstream("spotify", text), url)
  }

  /** A request whose body is `{ url }` for the string `u`. */
  function UrlBody(u: string): Result<Json, string> {
    Ok(Obj(map["url" := Str(u)]))
  }

  /** The fragment passes wherever it stands in the string: no hostname is checked. */
  lemma AcceptedAnywhere(before: string, after: string)
    ensures Plan(UrlBody(before + "open.spotify.com" + after)).Call?
  {
    var u := before + "open.spotify.com" + after;
    assert u[|before|..|before| + |"open.spotify.com"|] == "open.spotify.com";
    OccursAtContains(u, "open.spotify.com", |before|);
  }

  /** A string url is accepted exactly when it contains the fragment, in that letter case. */
  lemma AcceptedIff(u: string)
    ensures Plan(UrlBody(u)).Call? <==> Contains(u, "open.spotify.com")
  {
  }

  /**
   * An array url holding the fragment passes `includes`, yet when another
   * element cannot be converted, `encodeURIComponent` throws: 500, no call.
   */
  lemma UnconvertibleUrlIsCaught()
    ensures Plan(Ok(Obj(map["url" := Arr([Str("open.spotify.com"), Obj(map["toString" := Num(0)])])])))
      == Respond(InternalError)
  {
    var xs := [Str("open.spotify.com"), Obj(map["toString" := Num(0)])];
    assert ToStringThrows(xs[1]);
    assert Str("open.spotify.com") in xs;
  }

  /** The test is case-sensitive: a url without lower-case letters never passes, whatever it names. */
  lemma UpperCaseRejected(u: string)
    requires u != ""
    requires forall i :: 0 <= i < |u| ==> !('a' <= u[i] <= 'z')
    ensures Plan(UrlBody(u)) == Respond(ErrorReply(400, "Invalid Spotify URL"))
  {
    assert "open.spotify.com"[0] == 'o';
    MissingCharNotContained(u, "open.spotify.com", 'o');
  }

  /**
   * `${data.data.artis} - ${data.data.title}.mp3`; the template literal
   * throws when either value cannot be converted.
   */
  function Filename(artis: Option<Json>, title: Option<Json>): (f: Eval<string>)
    ensures f.Threw? <==> (artis.Some? && ToStringThrows(artis.value)) || (title.Some? && ToStringThrows(title.value))
    ensures artis.Some? && artis.value.Str? && title.Some? && title.value.Str?
      ==> f == Done(artis.value.s + " - " + title.value.s + ".mp3")
  {
    match ToString(artis)
    case Threw => Threw
    case Done(a) =>
      match ToString(title)
      case Threw => Threw
      case Done(t) => Done(a + " - " + t + ".mp3")
  }

  /** An artist `A` and a title `T` give the file `A - T.mp3`. */
  lemma FilenameExample()
    ensures Filename(Some(Str("A")), Some(Str("T"))) == Done("A - T.mp3")
  {
    assert "A" + " - " + "T" + ".mp3" == "A - T.mp3";
  }

  /**
   * The success envelope, read from `data.data`: `title` and `image` as
   * they are, `artist` from `artis`, `download_url` from `download` (each
   * left out when undefined), and the file name from artist and title,
   * which throws when either cannot be converted.
   */
  function Envelope(data: Json): (r: Eval<Json>)
    ensures r.Done? <==> (Inner(data, "data").Done?
      && Filename(Get(Inner(data, "data").value, "artis"), Get(Inner(data, "data").value, "title")).Done?)
    ensures r.Done? ==> var d := Inner(data, "data").value;
      && r.value.Obj?
      && r.value.fields.Keys <= {"status", "title", "artist", "image", "download_url", "filename"}
      && Get(r.value, "status") == Some(Str("success"))
      && Get(r.value, "title") == Get(d, "title")
      && Get(r.value, "artist") == Get(d, "artis")
      && Get(r.value, "image") == Get(d, "image")
      && Get(r.value, "download_url") == Get(d, "download")
      && Get(r.value, "filename") == Some(Str(Filename(Get(d, "artis"), Get(d, "title")).value))
  {
    match Inner(data, "data")
    case Threw => Threw
    case Done(d) =>
      var m := With(With(With(With(SuccessFields,
        "title", Get(d, "title")),
        "artist", Get(d, "artis")),
        "image", Get(d, "image")),
        "download_url", Get(d, "download"));
      match Filename(Get(d, "artis"), Get(d, "title"))
      case Threw => Threw
      case Done(name) => Done(Obj(m["filename" := Str(name)]))
  }

  /** After the upstream call. */
  function Finish(fetched: Fetched): (r: Reply)
    ensures WellFormed(r)
    ensures IsOk(r.status) <==> (Gate(fetched, FetchFailure, ProcessFailure).Ok?
      && Envelope(Gate(fetched, FetchFailure, ProcessFailure).value).Done?)
    ensures IsOk(r.status) ==> r.body == Envelope(fetched.body.value).value
  {
    var g := Gate(fetched, FetchFailure, ProcessFailure);
    Conclude(g, if g.Ok? then Envelope(g.value) else Threw)
  }

  /** The handler: `fetched` stands for what the upstream call gives back. */
  function Handle(body: Result<Json, string>, fetched: Fetched): (r: Reply)
    ensures WellFormed(r)
  {
    match Plan(body)
    case Respond(reply) => reply
    case Call(_, _) => Finish(fetched)
  }

  /** A rejected request gets its reply whatever the upstream would have done: no call is made. */
  lemma RejectedWithoutUpstream(body: Result<Json, string>, f1: Fetched, f2: Fetched)
    requires Plan(body).Respond?
    ensures Handle(body, f1) == Handle(body, f2) == Plan(body).reply
  {
  }
}
