/**
 * What the route handlers see of HTTP: the request they send upstream, what
 * `fetch` gave back, and the reply they produce. A handler is split at its
 * one `await fetch(...)`: a plan that either replies at once or names the
 * upstream request, and a finish that maps the upstream outcome to a reply.
 */
module Http {
  import opened Wrappers
  import opened Strings
  import opened Js

  datatype Method = GET | POST

  /** An outbound request: method, URL, headers and JSON body. */
  datatype Request = Request(verb: Method, url: string, headers: map<string, string>, body: Option<Json>)

  /**
   * What a handler produces: a JSON reply with a status code, or an exception
   * it does not catch, which the framework turns into its own error page.
   */
  datatype Reply = Reply(status: int, body: Json) | Uncaught(message: string)

  /**
   * The first half of a handler: reply without calling upstream, or call
   * upstream with `request`, keeping `kept` for the second half.
   */
  datatype Step<+K> = Respond(reply: Reply) | Call(request: Request, kept: K)

  /**
   * The outcome of one `fetch`: an answer with its status code and its body,
   * parsed (`Ok`) or not (`Err`, the parse error's message); or a thrown
   * error (network failure) with its message.
   */
  datatype Fetched = Answer(status: int, body: Result<Json, string>) | Thrown(message: string)

  /** `Response.ok`: the status is in the range 200-299. */
  predicate IsOk(status: int) {
    200 <= status <= 299
  }

  /** The error envelope `{ error: message }`. */
  function ErrorBody(message: Json): Json {
    Obj(map["error" := message])
  }

  function ErrorReply(status: int, message: string): Reply {
    Reply(status, ErrorBody(Str(message)))
  }

  /** `e?.message || fallback` for a caught exception with message `m`. */
  function MessageOr(m: string, fallback: string): (r: string)
    ensures m != "" ==> r == m
    ensures m == "" ==> r == fallback
    ensures fallback != "" ==> r != ""
  {
    if m != "" then m else fallback
  }

  /**
   * The statuses whose response carries no body. `NextResponse.json` throws
   * a TypeError when it is given one of them, since it always has a body.
   */
  predicate NullBodyStatus(status: int) {
    status == 204 || status == 205 || status == 304
  }

  /** The message of that TypeError, in the wording of the Node.js fetch implementation. */
  function NullBodyError(status: int): (m: string)
    ensures m != ""
  {
    "Response constructor: Invalid response status code " + IntToString(status)
  }

  /**
   * The relay shared by the tunnel and job endpoints: the upstream body, or
   * `null` when it did not parse; a non-OK answer keeps the upstream status
   * and sends the body, or `{ error: "gagal" }` when there is none; an OK
   * answer sends the body unchanged with the default status 200. Mirroring
   * a non-OK status without a body (304) throws.
   */
  function Relay(status: int, body: Result<Json, string>): (r: Eval<Reply>)
    ensures r.Threw? <==> !IsOk(status) && NullBodyStatus(status)
    ensures r.Done? ==> r.value.Reply?
    ensures r.Done? && !IsOk(status) ==> r.value.status == status
    ensures r.Done? && !IsOk(status) && body.Ok? && !body.value.Null? ==> r.value.body == body.value
    ensures r.Done? && !IsOk(status) && (body.Err? || body.value.Null?) ==> r.value.body == ErrorBody(Str("gagal"))
    ensures IsOk(status) ==> r == Done(Reply(200, if body.Ok? then body.value else Null))
  {
    var data := match body case Ok(j) => j case Err(_) => Null;
    if !IsOk(status) then
      if NullBodyStatus(status) then Threw else Done(Reply(status, Coalesce(data, ErrorBody(Str("gagal")))))
    else Done(Reply(200, data))
  }
}
