# video-downloader: the request-decision layer in Dafny

The repository is a Next.js page plus a set of thin HTTP proxy routes.
The page detects the platform of a pasted media URL and calls one of its own routes. Each route validates the request, calls a third-party extraction service and normalises the answer.
This project models what is left once the network and framework are removed: the decisions.

- **Platforms** (`app/page.tsx`): the ordered, first-match table that classifies a hostname, the platform labels, the badge rule and the service-status classifier.
- **Client** (`app/page.tsx`): `handleDownload`, as a class `Home` holding the page's `url`, `loading`, `result` and `progress`. Around it sit pure functions for the route chosen per platform, the request sent, the acceptance test on each answer, and the message shown otherwise.
- **Aggregator**: the pipeline the five routes backed by the sankavollerei service share. It reads `url`, rejects a missing one, validates the host, calls the service, mirrors a non-OK answer, rejects a falsy upstream `status`, and answers 500 for every caught exception.
- **Instagram, Facebook, TikTok, YouTube, Spotify**: each route's own host test and success envelope. Instagram also recomputes the media `type` per item.
- **Tunnel** (`app/api/dl`): defaults, the forced `downloadMode: "auto"`, the fixed flags, and relaying the answer.
- **Ytdl, YtdlCreate, YtdlCheck, YtdlInfo**: the job endpoints. They carry the configured API key in the query, and in an `x-api-key` header only when a key is set. Queried values are URI-encoded.
- **Supporting modules**:
  - **Js**: the JavaScript semantics the handlers rely on (truthiness, property reads that throw on `null`, optional chaining, `includes`, `String(v)`, object spread).
  - **Strings**: `includes`, ASCII `toLowerCase`, `trim` and decimal rendering.
  - **UriComponent**: `encodeURIComponent`, written out as UTF-8 percent-encoding, with a decoder and the round trip proved.
  - **Http**: requests, fetch outcomes, replies and the shared relay.

Each route is split at its one `await fetch(...)`:

- `Plan` either replies at once (`Respond`) or names the upstream request (`Call`).
- `Finish` maps what the fetch gave back (`Fetched`: an answer with status and parsed or unparsed body, or a thrown error) to the reply.
- `Handle` composes the two.

"No upstream call before validation" is stated as two facts. `Plan` says exactly when it returns `Call`. `RejectedWithoutUpstream` shows that a rejected request's reply does not depend on the fetch.

The code is followed where a prose reading would differ:

- The platform tests are order-dependent. The bare fragment `x.com` makes `www.netflix.com` a Twitter host (`Platforms.NetflixIsTwitter`).
- A url that `new URL` cannot parse gets 500 "Internal server error", not a 400, because the `catch` block answers it.
- Converting a value to a string throws a TypeError when the value is an object with an own `toString` property, or an array holding one, because a JSON value is never callable. This happens in `String(v)`, in template literals and inside `new URL(v)` and `encodeURIComponent(v)`. The extraction routes answer such a url with 500, and `/api/dl` answers such a `videoQuality` with 500 and the TypeError's message. The page shows the message when such a value is a rejected answer's `error`.
- An upstream 304 cannot be mirrored: `NextResponse.json` throws for a status that has no body. The routes with a `catch` answer 500, and `ytdl/check` and `ytdl/info` let it escape.

## Model

| member | source | states |
|---|---|---|
| Platforms.Detect | app/page.tsx:24-39 | a URL that does not parse is classified `Other`, without raising |
| Platforms.DetectIsFirstMatch | app/page.tsx:27-34 | detection is the first-match reading of the ordered table youtube, tiktok, facebook, twitter, instagram, spotify on the lower-cased hostname |
| Platforms.FirstMatchWins | app/page.tsx:28-34 | the first row that matches decides the platform, whatever later rows would say |
| Platforms.NoMatchIsOther | app/page.tsx:34 | with no matching row the platform is `Other` |
| Platforms.TikTokInAnyCase | app/page.tsx:27-29 | a hostname containing `tiktok.com` in any letter case, and no YouTube fragment, is TikTok |
| Platforms.YouTubeBeforeTikTok | app/page.tsx:28-29 | a hostname holding both a YouTube and a TikTok fragment is YouTube |
| Platforms.TwitterAfterEarlierRows | app/page.tsx:28-31 | any hostname containing `x.com` is Twitter unless an earlier row matched |
| Platforms.NetflixIsTwitter | app/page.tsx:31 | `www.netflix.com` is classified as Twitter |
| Platforms.PrettyInjective | app/page.tsx:41-51 | the label table gives each platform its own label (with `Other` for the default) |
| Platforms.Pretty | app/page.tsx:41-51 | (no contract of its own) the label table; `PrettyInjective` and `Badge` state its properties |
| Platforms.Badge | app/page.tsx:244-259 | the badge is shown exactly for platforms other than `Other`, with the platform's label |
| Platforms.ExactlyOneFlag | app/page.tsx:506-509 | exactly one of online, maintenance and offline holds; online iff the lower-cased status is `run`, `online` or `up`; maintenance iff it contains `maintenance` |
| Platforms.Flags | app/page.tsx:506-508 | (no contract of its own) the three flags; `ExactlyOneFlag` states that exactly one holds |
| Platforms.Classify | app/page.tsx:506-509 | (no contract of its own) the rendered state; `ExactlyOneFlag` ties it to the flag that holds |
| Platforms.ServiceBoard | app/page.tsx:498-509 | as declared, X/Twitter is shown in maintenance and every other service online |
| Client.Route | app/page.tsx:98-171 | every platform goes to exactly one route; Twitter and Other go to the tunnel |
| Client.PathInjective | app/page.tsx:99-161 | the six routes have six different paths |
| Client.Path | app/page.tsx:99-161 | (no contract of its own) the route paths; `PathInjective` states they differ |
| Client.ApiRequest | app/page.tsx:99-161 | the page POSTs JSON `{ url }`, untrimmed, plus `downloadMode: "auto"` for the tunnel |
| Client.ErrorText | app/page.tsx:172-173 | the shown error is the thrown message, or `Terjadi kesalahan` when it is empty; never empty |
| Client.Rejection | app/page.tsx:105 | a rejected answer shows its truthy `error` converted to a string; when that conversion throws, the TypeError message `Cannot convert object to primitive value` instead; with no truthy `error`, `Response tidak dikenal` |
| Client.UnconvertibleErrorShown | app/page.tsx:105 | an `error` object with an own `toString` value is shown as the TypeError message |
| Client.Accept | app/page.tsx:102-170 | a platform answer is accepted iff `status` is exactly `"success"` and its key field (`download_url`, `links`, `video`, `media`) is truthy; a tunnel answer iff it has a truthy `url` |
| Client.KeyField | app/page.tsx:102-150 | (no contract of its own) the field each platform answer must carry, used by `Accept` |
| Client.Shape | app/page.tsx:103-156 | (no contract of its own) the result shape per route, used by `Accept` and `ServerReplyShown` |
| Client.TunnelStatusIgnored | app/page.tsx:164-167 | the tunnel's `status` plays no part in what is shown |
| Client.Receive | app/page.tsx:99-101 | a non-OK answer shows `Gagal: <status>`; a thrown fetch or an unparseable body shows its message |
| Client.ServerReplyShown | app/page.tsx:100-102 | a failure reply of a download route is shown as `Gagal: <status>`; a success with its key field is shown in the route's shape |
| Client.InstagramSuccessShown | app/page.tsx:146-156 | every success of the Instagram route is shown as a gallery |
| Client.Home.constructor | app/page.tsx:67-70 | the page starts with an empty url, not loading, no result, no progress |
| Client.Home.HandleDownload | app/page.tsx:94-177 | a blank url calls nothing and shows `Masukkan URL yang valid`; otherwise the platform's route is called once and its outcome shown; `loading` is false and `progress` empty afterwards; the url is unchanged |
| Client.BlankRunCallsNothing | app/page.tsx:97 | a url of white space only makes no request |
| Strings.TrimEmptyIff | app/page.tsx:97 | `url.trim()` is empty iff every character is ECMAScript white space |
| Strings.ContainsLower | app/page.tsx:27 | containment survives lower-casing |
| Strings.Contains | app/page.tsx:28-33 | (no contract of its own) `includes` on strings; `ContainsIff` ties it to an occurrence at some index |
| Strings.ContainsIff | app/page.tsx:28-33 | a string contains another iff it occurs at some index |
| Strings.Lower | app/page.tsx:27 | lower-casing keeps the length |
| Strings.Trim | app/page.tsx:97 | (no contract of its own) `trim`; `TrimEmptyIff` states when it is empty |
| Aggregator.ReadUrl | app/api/instagram/route.ts:5-9 | a falsy `url` is 400 `URL is required`; a body that does not parse, or is `null`, is 500 |
| Aggregator.HostPlan | app/api/instagram/route.ts:12-21 | the upstream is called iff the url converts to a string, that string parses, and its lower-cased host contains an accepted fragment; a url that does not convert or parse is 500, a foreign host 400; the call carries the converted url |
| Aggregator.HostOf | app/api/instagram/route.ts:12-13 | `new URL(url)` yields no host when converting `url` to a string throws, and otherwise the host parsed from that string |
| Aggregator.ApiUrl | app/api/instagram/route.ts:19 | the upstream URL is the service prefix followed by the url text encoded to unreserved characters and escapes, decoding back to that text |
| Aggregator.Upstream | app/api/instagram/route.ts:21 | the upstream call is a GET with no headers and no body |
| Aggregator.Gate | app/api/instagram/route.ts:21-31 | a non-OK answer keeps the upstream status, except 304, whose mirror throws and is caught (500); a falsy upstream `status` is 400 with `data.message` or the default; a thrown or unparseable answer is 500; every failure is an error envelope outside 200-299 |
| Aggregator.Inner | app/api/facebook/route.ts:36 | reading `data.result`'s fields throws exactly when it is `null` or missing |
| Aggregator.Conclude | app/api/instagram/route.ts:49-60 | the reply has a 2xx status iff the gate passed and the envelope was built, and then it is 200 with the envelope |
| Aggregator.CopyFields | app/api/facebook/route.ts:34-42 | copied fields hold the source's values (left out when undefined); other fields are untouched |
| Aggregator.SuccessEnvelope | app/api/facebook/route.ts:34-42 | the envelope holds `status: "success"`, the copied fields and the filename, and nothing else |
| Aggregator.StampedShape | app/api/facebook/route.ts:41 | a stamped filename is the prefix, then digits only, which read back as the timestamp, then the extension |
| Aggregator.StampedInjective | app/api/facebook/route.ts:41 | filenames stamped at different times differ |
| Instagram.Plan | app/api/instagram/route.ts:5-21 | the upstream is called iff the url is present, converts, parses, and its lower-cased host contains `instagram.com`; a url that does not convert is 500; a foreign host 400 `Invalid Instagram URL` |
| Instagram.UnconvertibleUrlIsCaught | app/api/instagram/route.ts:12 | an array url holding an object with an own `toString` value is answered 500, whatever the host parser would say |
| Instagram.SaysVideo | app/api/instagram/route.ts:38 | (no contract of its own) the `/reels/` or `.mp4` test; `CorrectItem` states the `type` rule it drives |
| Instagram.Filename | app/api/instagram/route.ts:54 | (no contract of its own) `Instagram_` and the timestamp; `FilenameHasNoExtension` states its shape |
| Instagram.CorrectItem | app/api/instagram/route.ts:35-45 | the new type is `video` when the request url contains `/reels/` or the item url contains `.mp4`, else the upstream type; every other field of the item is kept; a `null` item or a missing `includes` throws |
| Instagram.CorrectMedia | app/api/instagram/route.ts:34-46 | the correction keeps length and order, item by item, and throws iff some item throws |
| Instagram.CorrectItemIdempotent | app/api/instagram/route.ts:35-45 | correcting a corrected item changes nothing |
| Instagram.CorrectMediaIdempotent | app/api/instagram/route.ts:34-46 | correcting the media twice is correcting it once |
| Instagram.FilenameHasNoExtension | app/api/instagram/route.ts:54 | the filename is `Instagram_` and digits, without any `.` |
| Instagram.Envelope | app/api/instagram/route.ts:34-55 | the success envelope holds `status: "success"`, the upstream author and caption, the corrected media and the filename, and nothing else; it throws unless `result.media` is an array whose items all correct |
| Instagram.Finish | app/api/instagram/route.ts:21-60 | a 2xx reply happens iff the upstream succeeded and the envelope was built, and carries that envelope |
| Instagram.Handle | app/api/instagram/route.ts:3-61 | every reply is a 200 success envelope or an error envelope outside 200-299; nothing escapes |
| Instagram.RejectedWithoutUpstream | app/api/instagram/route.ts:7-16 | a rejected request's reply does not depend on the upstream |
| Facebook.Plan | app/api/facebook/route.ts:5-21 | the upstream is called iff the url converts and parses and the lower-cased host contains `facebook.com` or `fb.watch`; a url that does not convert is 500; a foreign host 400 `Invalid Facebook URL` |
| Facebook.Filename | app/api/facebook/route.ts:41 | (no contract of its own) `Facebook_`, the timestamp and `.mp4`; `Aggregator.StampedShape` states its shape |
| Facebook.Envelope | app/api/facebook/route.ts:34-42 | `title`, `duration`, `thumbnail`, `video` and `music` are copied verbatim from `result`, with the filename `Facebook_<ts>.mp4` |
| Facebook.Finish | app/api/facebook/route.ts:21-47 | a 2xx reply happens iff the upstream succeeded with a `result`, and carries the envelope |
| Facebook.Handle | app/api/facebook/route.ts:3-48 | every reply is a 200 success envelope or an error envelope outside 200-299 |
| Facebook.RejectedWithoutUpstream | app/api/facebook/route.ts:7-16 | a rejected request's reply does not depend on the upstream |
| TikTok.Plan | app/api/tiktok/route.ts:5-21 | the upstream (`tiktok-hd`) is called iff the url converts and parses and the lower-cased host contains `tiktok.com`; a url that does not convert is 500 |
| TikTok.Filename | app/api/tiktok/route.ts:40 | (no contract of its own) `TikTok_`, the timestamp and `.mp4`; `Aggregator.StampedShape` states its shape |
| TikTok.Envelope | app/api/tiktok/route.ts:34-41 | `title`, `region`, `duration` and `links` are copied verbatim, with the filename `TikTok_<ts>.mp4` |
| TikTok.Finish | app/api/tiktok/route.ts:21-46 | a 2xx reply happens iff the upstream succeeded with a `result`, and carries the envelope |
| TikTok.Handle | app/api/tiktok/route.ts:3-47 | every reply is a 200 success envelope or an error envelope outside 200-299 |
| TikTok.RejectedWithoutUpstream | app/api/tiktok/route.ts:7-16 | a rejected request's reply does not depend on the upstream |
| YouTube.Plan | app/api/youtube/route.ts:5-21 | the upstream (`aio`) is called iff the url converts and parses and the lower-cased host contains `youtube.com` or `youtu.be`; a url that does not convert is 500 |
| YouTube.Filename | app/api/youtube/route.ts:38 | the filename is the title followed by `.mp4` (`undefined.mp4` without a title); it throws exactly when the title cannot be converted |
| YouTube.Envelope | app/api/youtube/route.ts:34-39 | `title` and `download_url` are copied from `result`; the filename comes from the title; it throws when `result` is missing or the title cannot be converted |
| YouTube.Finish | app/api/youtube/route.ts:21-44 | a 2xx reply happens iff the upstream succeeded with a `result`, and carries the envelope |
| YouTube.Handle | app/api/youtube/route.ts:3-45 | every reply is a 200 success envelope or an error envelope outside 200-299 |
| YouTube.RejectedWithoutUpstream | app/api/youtube/route.ts:7-16 | a rejected request's reply does not depend on the upstream |
| Spotify.Plan | app/api/spotify/route.ts:5-19 | the upstream is called iff `url.includes("open.spotify.com")` holds on the raw value and the url converts to a string; a non-matching url is 400; a value without `includes`, or one that passes and does not convert, is 500 |
| Spotify.UnconvertibleUrlIsCaught | app/api/spotify/route.ts:12-17 | an array url holding the fragment and an object with an own `toString` value passes `includes` and is then answered 500 |
| Spotify.AcceptedAnywhere | app/api/spotify/route.ts:12-14 | a url containing `open.spotify.com` at any position passes; no hostname is checked |
| Spotify.AcceptedIff | app/api/spotify/route.ts:12-14 | a string url passes iff it contains `open.spotify.com` |
| Spotify.UpperCaseRejected | app/api/spotify/route.ts:12-14 | the test is case-sensitive: a url without lower-case letters is rejected |
| Spotify.Filename | app/api/spotify/route.ts:38 | the filename is `artis + " - " + title + ".mp3"`; it throws exactly when either value cannot be converted |
| Spotify.FilenameExample | app/api/spotify/route.ts:38 | artist `A` and title `T` give `A - T.mp3` |
| Spotify.Envelope | app/api/spotify/route.ts:32-39 | `artist` comes from `data.artis`, `download_url` from `data.download`, `title` and `image` as they are; it throws when `data.data` is missing or the filename cannot be built |
| Spotify.Finish | app/api/spotify/route.ts:19-44 | a 2xx reply happens iff the upstream succeeded with a `data`, and carries the envelope |
| Spotify.Handle | app/api/spotify/route.ts:3-45 | every reply is a 200 success envelope or an error envelope outside 200-299 |
| Spotify.RejectedWithoutUpstream | app/api/spotify/route.ts:7-14 | a rejected request's reply does not depend on the upstream |
| Tunnel.Quality | app/api/dl/route.ts:6-17 | `videoQuality` is `"1080"` when absent and otherwise converted to a string, which throws exactly on a value that cannot be converted |
| Tunnel.Mode | app/api/dl/route.ts:18 | the upstream mode is `auto`, whatever was requested |
| Tunnel.Source | app/api/dl/route.ts:6 | `body || {}` is never `null`, so destructuring never throws |
| Tunnel.UpstreamBody | app/api/dl/route.ts:15-22 | the upstream body has exactly the url, the converted quality, mode `auto` and the fixed flags `allowH265 = false`, `alwaysProxy = false`, `convertGif = true` |
| Tunnel.Plan | app/api/dl/route.ts:5-23 | an unparseable body is 500 with its message; a missing url is 400 `url wajib`; a quality that does not convert is 500 with the TypeError message; otherwise a JSON POST to the tunnel |
| Tunnel.UnconvertibleQualityIsCaught | app/api/dl/route.ts:17 | a `videoQuality` object with an own `toString` value is answered 500 with the TypeError message |
| Tunnel.NullBodyRejected | app/api/dl/route.ts:6-7 | a `null` body is 400 `url wajib` |
| Tunnel.ModeIsForced | app/api/dl/route.ts:18 | any caller-supplied mode is sent upstream as `auto` |
| Tunnel.Finish | app/api/dl/route.ts:24-29 | a thrown fetch is 500 with its message or `internal error`; a mirrored 304 throws and is 500 with the runtime's message; any other answer is relayed |
| Tunnel.Handle | app/api/dl/route.ts:3-30 | after a call, an OK answer is passed through with 200, a non-OK one keeps its status, and a 304 becomes 500 |
| Tunnel.RejectedWithoutUpstream | app/api/dl/route.ts:7 | a rejected request's reply does not depend on the upstream |
| Http.Relay | app/api/dl/route.ts:24-26 | a non-OK answer keeps the status, with the body or `{ error: "gagal" }`, and throws for 304, a status without a body; an OK answer passes the body through with 200 |
| Http.NullBodyError | app/api/dl/route.ts:25 | the TypeError message of a reply built with a status that has no body is never empty |
| Http.MessageOr | app/api/dl/route.ts:28 | the reported message is the exception's when it is non-empty, and the fallback otherwise |
| Ytdl.ApiKey | app/api/ytdl/check/route.ts:7 | the key is the configured one, or empty |
| Ytdl.KeyHeader | app/api/ytdl/check/route.ts:9 | the `x-api-key` header is present iff the key is non-empty, and is then the key |
| Ytdl.QueryUrlCarries | app/api/ytdl/check/route.ts:8 | the queried value, read up to the first `&`, is its encoding and decodes back to it; `&apikey=` and the key follow |
| Ytdl.QueryUrl | app/api/ytdl/check/route.ts:8 | (no contract of its own) base, encoded value, `&apikey=` and the key; `QueryUrlCarries` states what it carries |
| UriComponent.Encode | app/api/ytdl/check/route.ts:8 | `encodeURIComponent` yields only unreserved characters and `%` escapes |
| UriComponent.DecodeEncode | app/api/ytdl/check/route.ts:8 | percent-decoding undoes the encoding |
| UriComponent.EncodeInjective | app/api/ytdl/check/route.ts:8 | different values are encoded differently |
| YtdlCreate.Headers | app/api/ytdl/create/route.ts:11-14 | JSON content type, plus `x-api-key` iff a key is configured |
| YtdlCreate.JobBody | app/api/ytdl/create/route.ts:6-15 | the upstream body is exactly `{ url, format_id }`, with `format_id` defaulting to `null` |
| YtdlCreate.Plan | app/api/ytdl/create/route.ts:5-16 | an unparseable body is 500; a missing url is 400 `url wajib`; otherwise a POST to the job service with the key in the query |
| YtdlCreate.QueryCarriesKey | app/api/ytdl/create/route.ts:9 | the query always ends in `apikey=` and the key, empty when none is configured |
| YtdlCreate.Finish | app/api/ytdl/create/route.ts:17-22 | a thrown fetch is 500; a mirrored 304 throws and is 500; any other answer is relayed |
| YtdlCreate.Handle | app/api/ytdl/create/route.ts:3-23 | after a call, an OK answer is passed through with 200, a non-OK one keeps its status, and a 304 becomes 500 |
| YtdlCreate.RejectedWithoutUpstream | app/api/ytdl/create/route.ts:7 | a rejected request's reply does not depend on the upstream |
| YtdlCheck.Plan | app/api/ytdl/check/route.ts:4-10 | a missing or empty `job_id` is 400 `job_id wajib`; otherwise a GET with the encoded id and only the key header |
| YtdlCheck.ValueRoundTrip | app/api/ytdl/check/route.ts:8 | the job service reads back exactly the given `job_id` |
| YtdlCheck.Finish | app/api/ytdl/check/route.ts:11-13 | an answer is relayed; a thrown fetch, or a mirrored 304, escapes the handler |
| YtdlCheck.Handle | app/api/ytdl/check/route.ts:3-14 | an OK answer is passed through with 200, a non-OK one keeps its status, and only a thrown fetch or a 304 escapes |
| YtdlCheck.RejectedWithoutUpstream | app/api/ytdl/check/route.ts:6 | a rejected request's reply does not depend on the upstream |
| YtdlInfo.Plan | app/api/ytdl/info/route.ts:4-10 | a missing or empty `url` is 400 `url wajib`; otherwise a GET with the encoded url and only the key header |
| YtdlInfo.ValueRoundTrip | app/api/ytdl/info/route.ts:8 | the service reads back exactly the given url |
| YtdlInfo.Finish | app/api/ytdl/info/route.ts:11-13 | an answer is relayed; a thrown fetch, or a mirrored 304, escapes the handler |
| YtdlInfo.Handle | app/api/ytdl/info/route.ts:3-14 | an OK answer is passed through with 200, a non-OK one keeps its status, and only a thrown fetch or a 304 escapes |
| YtdlInfo.RejectedWithoutUpstream | app/api/ytdl/info/route.ts:6 | a rejected request's reply does not depend on the upstream |
| Js.Member | app/api/instagram/route.ts:29 | a property read throws exactly on `null` and `undefined` |
| Js.Includes | app/api/spotify/route.ts:12 | `includes` is substring search on strings and element search on arrays, and throws on other values |
| Js.With | app/api/instagram/route.ts:42-45 | `{ ...m, key: v }` sets the key, drops it when `v` is undefined, and keeps every other key |
| Js.Truthy | app/api/instagram/route.ts:7 | (no contract of its own) ToBoolean on JSON values and `undefined` |
| Js.Get | app/api/instagram/route.ts:29 | a property read finds exactly an object's own field |
| Js.OptionalMember | app/page.tsx:102 | `v?.key` is `undefined` on `null` and `undefined`, and otherwise the property read |
| Js.OrElse | app/api/instagram/route.ts:30 | `a \|\| b` is `a` when truthy, else `b` |
| Js.Coalesce | app/api/dl/route.ts:25 | `a ?? b` is `b` exactly when `a` is `null` |
| Js.ToStringThrows | app/api/dl/route.ts:17 | (no contract of its own) the values whose conversion to a string throws: an object with an own `toString`, or an array holding one |
| Js.JsonToString | app/api/dl/route.ts:17 | conversion to a string throws exactly on the values `ToStringThrows` names; a string converts to itself, a number to its decimal digits, another object to `[object Object]` |
| Js.ToString | app/api/youtube/route.ts:38 | `undefined` converts to `undefined`; conversion throws exactly as for the defined value |
| Js.IndexedEntries | app/api/instagram/route.ts:43 | the spread of a sequence holds each element under its decimal index, and nothing else |
| Js.Spread | app/api/instagram/route.ts:43 | spreading an object copies exactly its own fields |

## Left out

- Network and JSON I/O (`fetch`, `request.json()`, `res.json()`) are parameters. The request body arrives parsed or with the parse error's message. What a fetch gave back is a `Fetched` value. The upstream services themselves are not modelled.
- WHATWG URL parsing (`new URL(...)`) is the parameter `parseHost`, which yields the hostname or `None` when the constructor throws. In the job endpoints, query parsing of the incoming request is left out: `job_id` and `url` arrive as `searchParams.get` gives them.
- `Date.now()` is the parameter `ts`. `process.env.YTDL_API_KEY` is the parameter `env`.
- Rendering, styling, `platformColor` and the status colours, `useMemo` and `useRef`, and the `<style jsx>` block are presentation only.
- `handlePaste` uses the clipboard and a timer, which are browser I/O.
- `console.error` logging, and `app/layout.tsx`, which is static markup.
- The framework's error page for `ytdl/check` and `ytdl/info` is left out; the model gives only the thrown message, as `Uncaught`.
- JSON numbers are integers. Fractions and exponent notation in `String(n)` are not modelled.
- Object key order is not modelled: objects are maps.
- Spreading a string splits it into Unicode scalar values, not UTF-16 code units.
- `toLowerCase` is modelled on ASCII only. Hostnames are ASCII after URL parsing.
- `UriComponent.Decode`, which exists only to state the round trip, does not reject overlong UTF-8 forms.
- UriComponent.Encode: a JSON string can hold a lone surrogate, and `encodeURIComponent` then throws a URIError. The five extraction routes catch it and answer 500. Dafny strings hold only scalar values, so the model cannot represent such a url, and Aggregator.ApiUrl, `Spotify.Plan` and the host-checking plans never take that path. The job endpoints encode only `searchParams` values, which hold no lone surrogates.
- The `RangeError` that `NextResponse.json` raises for a status outside 200-599 is not modelled. Upstream statuses are taken as valid HTTP statuses.
- Http.NullBodyError: the wording of the TypeError for a mirrored 304 is the Node.js fetch implementation's. Another runtime may word it differently. The same goes for `Js.ConversionError`, which is V8's wording.
- Client.Home.HandleDownload: its contract states the final state after `finally`. The intermediate state while awaiting (`loading` true, `result` cleared) is set in the method but not stated.
- Client.Receive: the only TypeError `handleDownload` can meet on a parsed answer is the one `new Error(...)` raises on an `error` that does not convert (`Client.Rejection`). Its property reads all use optional chaining.
