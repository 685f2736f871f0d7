/**
 * The download action of the page: which route it calls for the detected
 * platform, which answers it accepts, and the message it shows otherwise.
 * The page's state (`url`, `loading`, `result`, `progress`) is a class
 * whose `HandleDownload` runs one download from start to `finally`.
 */
module Client {
  import opened Wrappers
  import opened Strings
  import opened Js
  import opened Http
  import opened Platforms
  import Aggregator
  import Instagram

  /** The page's own API routes. */
  datatype Endpoint = SpotifyApi | YouTubeApi | TikTokApi | FacebookApi | InstagramApi | TunnelApi

  /** The route for a platform: the five known platforms have their own, everything else goes to the tunnel. */
  function Route(p: Platform): (e: Endpoint)
    ensures e == TunnelApi <==> p == Twitter || p == Other
  {
    match p
    case Spotify => SpotifyApi
    case YouTube => YouTubeApi
    case TikTok => TikTokApi
    case Facebook => FacebookApi
    case Instagram => InstagramApi
    case _ => TunnelApi
  }

  function Path(e: Endpoint): string {
    match e
    case SpotifyApi => "/api/spotify"
    case YouTubeApi => "/api/youtube"
    case TikTokApi => "/api/tiktok"
    case FacebookApi => "/api/facebook"
    case InstagramApi => "/api/instagram"
    case TunnelApi => "/api/dl"
  }

  /** Each route has its own path. */
  lemma PathInjective(e1: Endpoint, e2: Endpoint)
    requires Path(e1) == Path(e2)
    ensures e1 == e2
  {
  }

  /**
   * The POST the page sends: JSON `{ url }` with the url as typed (not
   * trimmed), and `downloadMode: "auto"` as well for the tunnel.
   */
  function ApiRequest(e: Endpoint, url: string): (q: Request)
    ensures q.verb == POST && q.url == Path(e)
    ensures q.headers == map["Content-Type" := "application/json"]
    ensures q.body.Some? && q.body.value.Obj? && "url" in q.body.value.fields
    ensures q.body.value.fields["url"] == Str(url)
    ensures e == TunnelApi ==> (q.body.value.fields.Keys == {"url", "downloadMode"}
      && q.body.value.fields["downloadMode"] == Str("auto"))
    ensures e != TunnelApi ==> q.body.value.fields.Keys == {"url"}
  {
    var body := if e == TunnelApi then map["url" := Str(url), "downloadMode" := Str("auto")] else map["url" := Str(url)];
    Request(POST, Path(e), map["Content-Type" := "application/json"], Some(Obj(body)))
  }

  /** What the page shows: one of the result shapes it renders, or an error message. */
  datatype Shown =
    | SingleLink(link: Option<Json>, filename: Option<Json>)
    | LinkList(links: Option<Json>, filename: Option<Json>, title: Option<Json>, duration: Option<Json>)
    | VideoSet(video: Option<Json>, filename: Option<Json>, title: Option<Json>, duration: Option<Json>,
               music: Option<Json>, thumbnail: Option<Json>)
    | Gallery(media: Option<Json>, filename: Option<Json>, author: Option<Json>, caption: Option<Json>)
    | Failure(message: string)

  /** `e?.message || "Terjadi kesalahan"` for an error thrown with message `m`. */
  function ErrorText(m: string): (t: string)
    ensures t != ""
    ensures m != "" ==> t == m
  {
    if m != "" then m else "Terjadi kesalahan"
  }

  /** The field whose presence a platform route's answer must have. */
  function KeyField(e: Endpoint): string
    requires e != TunnelApi
  {
    match e
    case SpotifyApi => "download_url"
    case YouTubeApi => "download_url"
    case TikTokApi => "links"
    case FacebookApi => "video"
    case InstagramApi => "media"
  }

  /** The result an accepted answer of a platform route is shown as. */
  function Shape(e: Endpoint, data: Json): Shown
    requires e != TunnelApi
  {
    var d := Some(data);
    match e
    case SpotifyApi => SingleLink(OptionalMember(d, "download_url"), OptionalMember(d, "filename"))
    case YouTubeApi => SingleLink(OptionalMember(d, "download_url"), OptionalMember(d, "filename"))
    case TikTokApi =>
      LinkList(OptionalMember(d, "links"), OptionalMember(d, "filename"), OptionalMember(d, "title"),
               OptionalMember(d, "duration"))
    case FacebookApi =>
      VideoSet(OptionalMember(d, "video"), OptionalMember(d, "filename"), OptionalMember(d, "title"),
               OptionalMember(d, "duration"), OptionalMember(d, "music"), OptionalMember(d, "thumbnail"))
    case InstagramApi =>
      Gallery(OptionalMember(d, "media"), OptionalMember(d, "filename"), OptionalMember(d, "author"),
              OptionalMember(d, "caption"))
  }

  /**
   * `throw new Error(data?.error || "Response tidak dikenal")`: the message
   * of the error that reaches the `catch`. `new Error` converts a truthy
   * `error` to a string; when that conversion throws, the TypeError is
   * caught in its place.
   */
  function Rejection(data: Json): (m: string)
    ensures var err := OptionalMember(Some(data), "error");
      Truthy(err) && !ToStringThrows(err.value) ==> m == JsonToString(err.value).value
    ensures var err := OptionalMember(Some(data), "error");
      Truthy(err) && ToStringThrows(err.value) ==> m == ConversionError
    ensures !Truthy(OptionalMember(Some(data), "error")) ==> m == "Response tidak dikenal"
  {
    var err := OptionalMember(Some(data), "error");
    if !Truthy(err) then "Response tidak dikenal"
    else
      match JsonToString(err.value)
      case Done(text) => text
      case Threw => ConversionError
  }

  /** An `error` object whose `toString` is a plain value shows the TypeError instead of the error. */
  lemma UnconvertibleErrorShown(e: Endpoint)
    requires e != TunnelApi
    ensures Accept(e, Obj(map["error" := Obj(map["toString" := Num(0)])])) == Failure(ConversionError)
  {
  }

  /**
   * The acceptance test on a parsed answer. A platform route's answer is
   * accepted when its `status` is exactly `"success"` and its key field is
   * truthy; otherwise its `error`, or `Response tidak dikenal`, is shown.
   * The tunnel's answer is accepted whenever it has a truthy `url`.
   */
  function Accept(e: Endpoint, data: Json): (s: Shown)
    ensures e != TunnelApi ==>
      (!s.Failure? <==> OptionalMember(Some(data), "status") == Some(Str("success"))
                        && Truthy(OptionalMember(Some(data), KeyField(e))))
    ensures e != TunnelApi && !s.Failure? ==> s == Shape(e, data)
    ensures e != TunnelApi && s.Failure? ==> s.message == ErrorText(Rejection(data))
    ensures e == TunnelApi ==> (!s.Failure? <==> Truthy(OptionalMember(Some(data), "url")))
    ensures e == TunnelApi && !s.Failure?
      ==> s == SingleLink(OptionalMember(Some(data), "url"), OptionalMember(Some(data), "filename"))
    ensures e == TunnelApi && s.Failure? ==> s.message == "Response tidak dikenal"
  {
    var d := Some(data);
    if e == TunnelApi then
      if OptionalMember(d, "status") == Some(Str("tunnel")) && Truthy(OptionalMember(d, "url")) then
        SingleLink(OptionalMember(d, "url"), OptionalMember(d, "filename"))
      else if Truthy(OptionalMember(d, "url")) then
        SingleLink(OptionalMember(d, "url"), OptionalMember(d, "filename"))
      else Failure(ErrorText("Response tidak dikenal"))
    else if OptionalMember(d, "status") == Some(Str("success")) && Truthy(OptionalMember(d, KeyField(e))) then
      Shape(e, data)
    else Failure(ErrorText(Rejection(data)))
  }

  /** The tunnel's `status` plays no part: with or without `"tunnel"` the same url is shown. */
  lemma TunnelStatusIgnored(data: Json, status: Json)
    requires data.Obj?
    ensures Accept(TunnelApi, Obj(data.fields["status" := status])) == Accept(TunnelApi, data)
  {
  }

  /**
   * What one call of a route ends in: a thrown fetch or a body that does not
   * parse shows the error's message; a non-OK answer shows `Gagal: <status>`;
   * a parsed answer goes through the acceptance test.
   */
  function Receive(e: Endpoint, fetched: Fetched): (s: Shown)
    ensures fetched.Answer? && !IsOk(fetched.status) ==> s == Failure("Gagal: " + IntToString(fetched.status))
    ensures fetched.Thrown? ==> s == Failure(ErrorText(fetched.message))
    ensures fetched.Answer? && IsOk(fetched.status) && fetched.body.Err? ==> s == Failure(ErrorText(fetched.body.error))
    ensures fetched.Answer? && IsOk(fetched.status) && fetched.body.Ok? ==> s == Accept(e, fetched.body.value)
  {
    match fetched
    case Thrown(m) => Failure(ErrorText(m))
    case Answer(status, body) =>
      if !IsOk(status) then Failure(ErrorText("Gagal: " + IntToString(status)))
      else
        match body
        case Err(m) => Failure(ErrorText(m))
        case Ok(data) => Accept(e, data)
  }

  /** The message a blank url gets. */
  const BlankUrl := "Masukkan URL yang valid"

  /**
   * A route reply as the server sends it, seen by the page: a failure of the
   * download routes is shown as `Gagal: <status>`; a success with its key
   * field is shown in the route's shape.
   */
  lemma ServerReplyShown(e: Endpoint, r: Reply)
    requires e != TunnelApi && Aggregator.WellFormed(r)
    ensures !IsOk(r.status) ==> Receive(e, Answer(r.status, Ok(r.body))) == Failure("Gagal: " + IntToString(r.status))
    ensures IsOk(r.status) && Truthy(Get(r.body, KeyField(e)))
      ==> Receive(e, Answer(r.status, Ok(r.body))) == Shape(e, r.body)
  {
  }

  /** Every success of the Instagram route is shown as a gallery of its corrected media. */
  lemma InstagramSuccessShown(body: Result<Json, string>, parseHost: string -> Option<string>, fetched: Fetched, ts: nat)
    requires IsOk(Instagram.Handle(body, parseHost, fetched, ts).status)
    ensures var r := Instagram.Handle(body, parseHost, fetched, ts);
      Receive(InstagramApi, Answer(r.status, Ok(r.body)))
        == Gallery(Get(r.body, "media"), Get(r.body, "filename"), Get(r.body, "author"), Get(r.body, "caption"))
  {
  }

  /** The page's state. */
  class Home {
    var url: string
    var loading: bool
    var result: Option<Shown>
    var progress: string

    /** The initial state: empty input, idle, nothing shown. */
    constructor()
      ensures url == "" && !loading && result == None && progress == ""
    {
      url := "";
      loading := false;
      result := None;
      progress := "";
    }

    /** The platform the page shows for its input; `parseHost` stands for `new URL(url).hostname`. */
    function CurrentPlatform(parseHost: string -> Option<string>): Platform
      reads this
    {
      Detect(parseHost(url))
    }

    /**
     * One run of `handleDownload`: it starts loading and clears the result;
     * a blank url makes no call and shows `Masukkan URL yang valid`; any other
     * url is sent to the route of its platform, and `fetched` is what that
     * call gives back. `finally` ends the loading and clears the progress.
     * `sent` is the request made, if any.
     */
    method HandleDownload(parseHost: string -> Option<string>, fetched: Fetched) returns (sent: Option<Request>)
      modifies this
      ensures url == old(url)
      ensures !loading && progress == ""
      ensures sent.None? <==> Trim(url) == ""
      ensures sent.Some? ==> sent.value == ApiRequest(Route(Detect(parseHost(url))), url)
      ensures Trim(url) == "" ==> result == Some(Failure(BlankUrl))
      ensures Trim(url) != "" ==> result == Some(Receive(Route(Detect(parseHost(url))), fetched))
    {
      loading := true;
      result := None;
      progress := "";
      var platform := CurrentPlatform(parseHost);
      if Trim(url) == "" {
        sent := None;
        result := Some(Failure(ErrorText(BlankUrl)));
      } else {
        var e := Route(platform);
        sent := Some(ApiRequest(e, url));
        result := Some(Receive(e, fetched));
      }
      loading := false;
      progress := "";
    }
  }

  /** A url of white space only is blank: the page calls nothing and asks for a valid url. */
  method BlankRunCallsNothing(parseHost: string -> Option<string>, fetched: Fetched, blank: string)
    returns (sent: Option<Request>, shown: Option<Shown>)
    requires AllSpace(blank)
    ensures sent == None && shown == Some(Failure(BlankUrl))
  {
    var page := new Home();
    page.url := blank;
    TrimEmptyIff(blank);
    sent := page.HandleDownload(parseHost, fetched);
    shown := page.result;
  }
}
