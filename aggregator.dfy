/**
 * The pipeline the five download handlers backed by the sankavollerei API
 * share: read `url` from the request body, reject a missing one, call
 * `https://www.sankavollerei.com/download/<path>` with the URI-encoded url,
 * mirror a non-OK answer, reject a falsy upstream `status`, and answer 500
 * for every exception the surrounding `try` catches.
 */
module Aggregator {
  import opened Wrappers
  import opened Strings
  import opened Js
  import opened Http
  import UriComponent
  import Platforms

  /** The reply of every `catch` block of these handlers. */
  const InternalError: Reply := ErrorReply(500, "Internal server error")

  /** Everything of the upstream URL before the encoded url: the service path and the fixed API key. */
  function ApiPrefix(path: string): string {
    "https://www.sankavollerei.com/download/" + path + "?apikey=planaai&url="
  }

  /**
   * The upstream URL: the prefix of the service path, then the url, already
   * converted to the string `text`, URI-component encoded, so that the query
   * value holds only unreserved characters and escapes and decodes back to
   * the url.
   */
  function ApiUrl(path: string, text: string): (u: string)
    ensures IsPrefix(ApiPrefix(path), u)
    ensures UriComponent.Decode(u[|ApiPrefix(path)|..]) == Some(text)
    ensures forall i :: |ApiPrefix(path)| <= i < |u| ==> UriComponent.IsUnreserved(u[i]) || u[i] == '%'
  {
    var e := UriComponent.Encode(text);
    UriComponent.DecodeEncode(text);
    assert (ApiPrefix(path) + e)[|ApiPrefix(path)|..] == e;
    ApiPrefix(path) + e
  }

  /** `fetch(apiUrl)` with no options: a GET without headers or body. */
  function Upstream(path: string, text: string): (q: Request)
    ensures q.verb == GET && q.headers == map[] && q.body == None
    ensures q.url == ApiUrl(path, text)
  {
    Request(GET, ApiUrl(path, text), map[], None)
  }

  /**
   * `new URL(url).hostname`: the constructor converts `url` to a string,
   * which throws on a value `ToStringThrows` names, and `parseHost` parses
   * that string. `None` when either step throws.
   */
  function HostOf(url: Json, parseHost: string -> Option<string>): (h: Option<string>)
    ensures ToStringThrows(url) ==> h == None
    ensures !ToStringThrows(url) ==> h == parseHost(JsonToString(url).value)
  {
    match JsonToString(url)
    case Threw => None
    case Done(text) => parseHost(text)
  }

  /**
   * `const { url } = await request.json(); if (!url) ...`: a body that does
   * not parse, or parses to `null`, throws (500); a falsy `url` is answered
   * with 400; otherwise the url is the body's `url` property.
   */
  function ReadUrl(body: Result<Json, string>): (r: Result<Json, Reply>)
    ensures r.Ok? <==> body.Ok? && !body.value.Null? && Truthy(Get(body.value, "url"))
    ensures r.Ok? ==> Get(body.value, "url") == Some(r.value)
    ensures body.Ok? && !body.value.Null? && !Truthy(Get(body.value, "url"))
      ==> r == Err(ErrorReply(400, "URL is required"))
    ensures body.Err? || body.value == Null ==> r == Err(InternalError)
  {
    match body
    case Err(_) => Err(InternalError)
    case Ok(b) =>
      match Member(Some(b), "url")
      case Threw => Err(InternalError)
      case Done(url) => if Truthy(url) then Ok(url.value) else Err(ErrorReply(400, "URL is required"))
  }

  /**
   * The validation of the handlers that parse the url: `new URL(url)` (a
   * throw when `parseHost` gives `None`, so 500), then the lower-cased
   * hostname must contain one of `fragments`, or the reply is 400 with
   * `invalid`. Only a url that passes is sent upstream, to `path`.
   */
  function HostPlan(body: Result<Json, string>, parseHost: string -> Option<string>,
                    fragments: seq<string>, invalid: string, path: string): (s: Step<Json>)
    ensures s.Call? <==> (ReadUrl(body).Ok? && HostOf(ReadUrl(body).value, parseHost).Some?
      && Platforms.AnyFragment(Lower(HostOf(ReadUrl(body).value, parseHost).value), fragments))
    ensures s.Call? ==> s.kept == ReadUrl(body).value && !ToStringThrows(s.kept)
    ensures s.Call? ==> s.request == Upstream(path, JsonToString(s.kept).value)
    ensures ReadUrl(body).Err? ==> s == Respond(ReadUrl(body).error)
    ensures ReadUrl(body).Ok? && HostOf(ReadUrl(body).value, parseHost).None?
      ==> s == Respond(InternalError)
    ensures ReadUrl(body).Ok? && ToStringThrows(ReadUrl(body).value) ==> s == Respond(InternalError)
    ensures ReadUrl(body).Ok? && HostOf(ReadUrl(body).value, parseHost).Some?
      && !Platforms.AnyFragment(Lower(HostOf(ReadUrl(body).value, parseHost).value), fragments)
      ==> s == Respond(ErrorReply(400, invalid))
  {
    match ReadUrl(body)
    case Err(e) => Respond(e)
    case Ok(url) =>
      match HostOf(url, parseHost)
      case None => Respond(InternalError)
      case Some(h) =>
        if Platforms.AnyFragment(Lower(h), fragments) then Call(Upstream(path, JsonToString(url).value), url)
        else Respond(ErrorReply(400, invalid))
  }

  /** An error envelope replied with a status outside 200-299. */
  predicate IsFailure(r: Reply) {
    r.Reply? && !IsOk(r.status) && r.body.Obj? && "error" in r.body.fields
  }

  /**
   * After the fetch: a thrown fetch, a body that does not parse or parses to
   * `null`, are caught (500); a non-OK answer keeps the upstream status with
   * `fetchFailure`, except that mirroring 304 throws and is caught (500); a falsy `data.status` is 400 with `data.message` or
   * `processFailure`. Only a well-formed, successful answer yields `data`.
   */
  function Gate(fetched: Fetched, fetchFailure: string, processFailure: string): (r: Result<Json, Reply>)
    ensures r.Ok? <==> (fetched.Answer? && IsOk(fetched.status) && fetched.body.Ok?
      && !fetched.body.value.Null? && Truthy(Get(fetched.body.value, "status")))
    ensures r.Ok? ==> r.value == fetched.body.value
    ensures r.Err? ==> IsFailure(r.error)
    ensures fetched.Answer? && !IsOk(fetched.status) && !NullBodyStatus(fetched.status)
      ==> r == Err(ErrorReply(fetched.status, fetchFailure))
    ensures fetched.Answer? && !IsOk(fetched.status) && NullBodyStatus(fetched.status) ==> r == Err(InternalError)
    ensures fetched.Thrown? ==> r == Err(InternalError)
    ensures fetched.Answer? && IsOk(fetched.status) && (fetched.body.Err? || fetched.body.value == Null)
      ==> r == Err(InternalError)
    ensures fetched.Answer? && IsOk(fetched.status) && fetched.body.Ok? && !fetched.body.value.Null?
      && !Truthy(Get(fetched.body.value, "status"))
      ==> r == Err(Reply(400, ErrorBody(OrElse(Get(fetched.body.value, "message"), Str(processFailure)))))
  {
    match fetched
    case Thrown(_) => Err(InternalError)
    case Answer(status, body) =>
      if !IsOk(status) then
        if NullBodyStatus(status) then Err(InternalError) else Err(ErrorReply(status, fetchFailure))
      else
        match body
        case Err(_) => Err(InternalError)
        case Ok(data) =>
          match Member(Some(data), "status")
          case Threw => Err(InternalError)
          case Done(st) =>
            if Truthy(st) then Ok(data)
            else Err(Reply(400, ErrorBody(OrElse(Get(data, "message"), Str(processFailure)))))
  }

  /**
   * `data.result` (or `data.data`) when its members are read: a TypeError
   * when it is `null` or missing.
   */
  function Inner(data: Json, key: string): (r: Eval<Json>)
    ensures r.Done? <==> !Nullish(Get(data, key))
    ensures r.Done? ==> Get(data, key) == Some(r.value)
  {
    match Member(Some(data), key)
    case Threw => Threw
    case Done(v) => if Nullish(v) then Threw else Done(v.value)
  }

  /**
   * The end of every handler: a gate failure is replied as it is; a success
   * envelope is replied with status 200; an envelope that threw is caught (500).
   */
  function Conclude(gate: Result<Json, Reply>, envelope: Eval<Json>): (r: Reply)
    requires gate.Err? ==> IsFailure(gate.error)
    ensures r.Reply?
    ensures IsOk(r.status) <==> gate.Ok? && envelope.Done?
    ensures gate.Ok? && envelope.Done? ==> r == Reply(200, envelope.value)
    ensures gate.Err? ==> r == gate.error
    ensures gate.Ok? && envelope.Threw? ==> r == InternalError
  {
    match gate
    case Err(e) => e
    case Ok(_) =>
      match envelope
      case Done(env) => Reply(200, env)
      case Threw => InternalError
  }

  /** The success envelope's common field: `status: "success"`. */
  const SuccessFields: map<string, Json> := map["status" := Str("success")]

  /**
   * What these handlers ever reply: status 200 with a success envelope, or an
   * error envelope with a status outside 200-299; never an uncaught error.
   */
  predicate WellFormed(r: Reply) {
    && r.Reply?
    && (IsOk(r.status) ==> r.status == 200 && r.body.Obj? && "status" in r.body.fields
                           && r.body.fields["status"] == Str("success"))
    && (!IsOk(r.status) ==> IsFailure(r))
  }

  /** A file name made of a prefix, the decimal timestamp and an extension. */
  function Stamped(prefix: string, ts: nat, ext: string): string {
    prefix + NatToString(ts) + ext
  }

  /**
   * A stamped name starts with the prefix and ends with the extension, and
   * what lies between is a string of digits that reads back as the timestamp.
   */
  lemma StampedShape(prefix: string, ts: nat, ext: string)
    ensures var f := Stamped(prefix, ts, ext);
      IsPrefix(prefix, f) && |prefix| + |ext| < |f| && f[|f| - |ext|..] == ext
    ensures var f := Stamped(prefix, ts, ext);
      forall k :: |prefix| <= k < |f| - |ext| ==> IsDigit(f[k])
    ensures var f := Stamped(prefix, ts, ext);
      DigitsValue(f[|prefix|..|f| - |ext|]) == ts
  {
    NatToStringRoundTrip(ts);
    var f := Stamped(prefix, ts, ext);
    assert f[|prefix|..|f| - |ext|] == NatToString(ts);
    assert f[|f| - |ext|..] == ext;
  }

  /** Names stamped at different times differ. */
  lemma StampedInjective(prefix: string, ext: string, t1: nat, t2: nat)
    requires Stamped(prefix, t1, ext) == Stamped(prefix, t2, ext)
    ensures t1 == t2
  {
    StampedShape(prefix, t1, ext);
    StampedShape(prefix, t2, ext);
  }

  /**
   * `{ ...base, k1: source.k1, k2: source.k2, ... }` once serialised: each
   * key of `keys` holds the source's value, or is left out when that is
   * `undefined`; every other key is as in `base`.
   */
  function CopyFields(base: map<string, Json>, source: Json, keys: seq<string>): (m: map<string, Json>)
    ensures forall k :: k in m ==> k in base || k in keys
    ensures forall k :: k in keys ==> Get(Obj(m), k) == Get(source, k)
    ensures forall k :: k !in keys ==> Get(Obj(m), k) == Get(Obj(base), k)
    decreases |keys|
  {
    if keys == [] then base
    else
      var last := keys[|keys| - 1];
      var m := CopyFields(base, source, keys[..|keys| - 1]);
      assert forall k :: k in keys ==> k in keys[..|keys| - 1] || k == last;
      With(m, last, Get(source, last))
  }

  /**
   * `{ status: "success", k1: result.k1, ..., filename }` once serialised:
   * the copied fields are exactly the result's, left out when undefined.
   */
  function SuccessEnvelope(result: Json, keys: seq<string>, filename: string): (r: Json)
    requires "status" !in keys && "filename" !in keys
    ensures r.Obj?
    ensures forall k :: k in r.fields ==> k in keys || k == "status" || k == "filename"
    ensures Get(r, "status") == Some(Str("success"))
    ensures forall k :: k in keys ==> Get(r, k) == Get(result, k)
    ensures Get(r, "filename") == Some(Str(filename))
  {
    Obj(CopyFields(SuccessFields, result, keys)["filename" := Str(filename)])
  }
}
