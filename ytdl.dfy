/**
 * What the three job endpoints share: the configured API key, the header
 * that carries it, and query strings whose value enters URI-encoded.
 */
module Ytdl {
  import opened Wrappers
  import opened Strings
  import UriComponent

  const Service := "https://ytdl.siputzx.my.id/"

  /** `process.env.YTDL_API_KEY || ""`: the configured key, or empty when unset. */
  function ApiKey(env: Option<string>): (key: string)
    ensures env.Some? ==> key == env.value
    ensures env.None? ==> key == ""
  {
    if env.Some? && env.value != "" then env.value else ""
  }

  /** `apiKey ? { "x-api-key": apiKey } : {}`. */
  function KeyHeader(key: string): (h: map<string, string>)
    ensures "x-api-key" in h <==> key != ""
    ensures "x-api-key" in h ==> h["x-api-key"] == key
    ensures forall k :: k in h ==> k == "x-api-key"
  {
    if key != "" then map["x-api-key" := key] else map[]
  }

  /** The text of `s` before the first `c`: how a query parser delimits a value. */
  function UpTo(s: string, c: char): (r: string)
    ensures IsPrefix(r, s)
    ensures c !in r
    ensures |r| < |s| ==> s[|r|] == c
    decreases |s|
  {
    if s == [] || s[0] == c then [] else [s[0]] + UpTo(s[1..], c)
  }

  /** A value without the delimiter is read back whole when the delimiter follows it. */
  lemma {:induction false} UpToDelimited(v: string, c: char, rest: string)
    requires c !in v
    ensures UpTo(v + [c] + rest, c) == v
    decreases |v|
  {
    if v != [] {
      assert (v + [c] + rest)[1..] == v[1..] + [c] + rest;
      UpToDelimited(v[1..], c, rest);
    }
  }

  /**
   * `${base}${encodeURIComponent(value)}&apikey=${apiKey}`: the encoded
   * value, then the key, which is inserted as it is.
   */
  function QueryUrl(base: string, value: string, key: string): string {
    base + UriComponent.Encode(value) + "&apikey=" + key
  }

  /**
   * The value enters only through encoding: the query value read after the
   * base up to the first `&` is the encoded value, and decodes back to the
   * value; what follows is `&apikey=` and the key.
   */
  lemma QueryUrlCarries(base: string, value: string, key: string)
    ensures var u := QueryUrl(base, value, key);
      && IsPrefix(base, u)
      && UpTo(u[|base|..], '&') == UriComponent.Encode(value)
      && UriComponent.Decode(UpTo(u[|base|..], '&')) == Some(value)
      && u[|base| + |UriComponent.Encode(value)|..] == "&apikey=" + key
  {
    var e := UriComponent.Encode(value);
    NoSeparatorInEncoding(value);
    QueryUrlSplit(base, e, key);
    UpToDelimited(e, '&', "apikey=" + key);
    UriComponent.DecodeEncode(value);
  }

  /** An encoded value never holds `&`. */
  lemma NoSeparatorInEncoding(value: string)
    ensures '&' !in UriComponent.Encode(value)
  {
    var e := UriComponent.Encode(value);
    forall i | 0 <= i < |e| ensures e[i] != '&' {
      assert UriComponent.IsUnreserved(e[i]) || e[i] == '%';
    }
  }

  lemma QueryUrlSplit(base: string, e: string, key: string)
    ensures var u := base + e + "&apikey=" + key;
      && IsPrefix(base, u)
      && u[|base|..] == e + ['&'] + ("apikey=" + key)
      && u[|base| + |e|..] == "&apikey=" + key
  {
    var u := base + e + "&apikey=" + key;
    assert u == base + (e + ['&'] + ("apikey=" + key));
  }
}
