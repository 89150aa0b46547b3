/** Request signing shared by both cloud API classes (`TuyaOpenAPI` and
    `TuyaSHOpenAPI` carry identical copies of `_getSignUrl`,
    `_getStringToSign` and `_getSign`). The digests and the JSON serialiser
    are foreign calls and enter as the fields of a `Digests` value. */
module Signing {
  import opened Text
  import opened Values

  /** HMAC-SHA256 (RFC 2104 over FIPS 180-4 SHA-256) of a message under a key,
      SHA-256 of a string, both as the hexadecimal text crypto-js prints, and
      `JSON.stringify`. */
  datatype Digests = Digests(
    hmacSha256Hex: (string, string) -> string,
    sha256Hex: string -> string,
    stringify: Value -> string)

  /** The HTTP verbs the API classes expose: `get`, `post`, `delete`. */
  datatype Verb = HttpGet | HttpPost | HttpDelete

  /** One HTTP call as `request` hands it to the HTTP client. */
  datatype HttpCall = HttpCall(
    baseUrl: string,
    httpMethod: string,
    path: string,
    params: Option<Record>,
    body: Value,
    headers: seq<(string, string)>)

  /** `k=v` for one query property; the value is rendered as string
      concatenation renders it. */
  function QueryPair(f: (string, Value)): string {
    f.0 + "=" + ToJsString(f.1)
  }

  function QueryPairs(fields: Record): (ps: seq<string>)
    ensures |ps| == |fields|
    ensures forall i :: 0 <= i < |fields| ==> ps[i] == QueryPair(fields[i])
  {
    seq(|fields|, i requires 0 <= i < |fields| => QueryPair(fields[i]))
  }

  /** The canonical URL: the path alone without query properties, otherwise
      the path, `?` and the `k=v` pairs joined by `&` in property order (no
      sorting). An empty object still adds the `?`. */
  function CanonicalUrl(path: string, params: Option<Record>): string {
    match params
    case None => path
    case Some(fields) => path + "?" + Join(QueryPairs(fields), '&')
  }

  /** What the for-in loop has appended after the first `n` properties:
      `&k=v` for each. */
  function Ampersanded(fields: Record): string {
    if fields == [] then ""
    else Ampersanded(fields[..|fields| - 1]) + "&" + QueryPair(fields[|fields| - 1])
  }

  /** Dropping the leading `&` of the loop's text leaves the joined pairs. */
  lemma {:induction false} AmpersandedIsJoin(fields: Record)
    ensures Ampersanded(fields) == if fields == [] then "" else "&" + Join(QueryPairs(fields), '&')
    decreases |fields|
  {
    if fields != [] {
      var init := fields[..|fields| - 1];
      AmpersandedIsJoin(init);
      assert QueryPairs(fields) == QueryPairs(init) + [QueryPair(fields[|fields| - 1])];
      if init != [] {
        JoinSnoc(QueryPairs(init), QueryPair(fields[|fields| - 1]), '&');
      }
    }
  }

  /** `_getSignUrl(path, obj)`: builds the canonical URL with the source's
      loop and `substr(1)`. */
  method SignUrl(path: string, params: Option<Record>) returns (url: string)
    ensures url == CanonicalUrl(path, params)
  {
    if params.None? {
      return path;
    }
    var fields := params.value;
    var acc := "";
    var i := 0;
    while i < |fields|
      invariant 0 <= i <= |fields|
      invariant acc == Ampersanded(fields[..i])
    {
      assert fields[..i + 1][..i] == fields[..i];
      acc := acc + "&" + QueryPair(fields[i]);
      i := i + 1;
    }
    assert fields[..i] == fields;
    AmpersandedIsJoin(fields);
    url := path + "?" + (if acc == "" then "" else acc[1..]);
  }

  /** The query of a canonical URL splits back into its `k=v` pairs when no
      pair holds an `&`. */
  lemma QueryRecoverable(fields: Record)
    requires fields != []
    requires forall i :: 0 <= i < |fields| ==> '&' !in QueryPair(fields[i])
    ensures Split(Join(QueryPairs(fields), '&'), '&') == QueryPairs(fields)
  {
    SplitJoin(QueryPairs(fields), '&');
  }

  /** The text hashed as the body: `JSON.stringify(body)` when the body is
      truthy, else the empty string. */
  function BodyStream(body: Value, d: Digests): string {
    if Truthy(body) then d.stringify(body) else ""
  }

  /** `_getStringToSign`: the upper-cased method, the body's SHA-256, the
      `client_id:` header line, an empty line and the canonical URL, joined
      by line feeds. */
  function StringToSign(httpMethod: string, accessId: string, path: string,
                        params: Option<Record>, body: Value, d: Digests): string
  {
    Upper(httpMethod) + "\n" + d.sha256Hex(BodyStream(body, d)) + "\n"
      + "client_id" + ":" + accessId + "\n" + "\n" + CanonicalUrl(path, params)
  }

  lemma UpperKeepsNewlineOut(s: string)
    requires '\n' !in s
    ensures '\n' !in Upper(s)
  {
  }

  /** Read line by line, the string-to-sign gives back its five parts: the
      method, the body hash, the header line, the empty line, then the lines
      of the URL. */
  lemma {:induction false} StringToSignLines(httpMethod: string, accessId: string, path: string,
                                              params: Option<Record>, body: Value, d: Digests)
    requires '\n' !in httpMethod && '\n' !in accessId
    requires '\n' !in d.sha256Hex(BodyStream(body, d))
    ensures Split(StringToSign(httpMethod, accessId, path, params, body, d), '\n')
            == [Upper(httpMethod), d.sha256Hex(BodyStream(body, d)), "client_id:" + accessId, ""]
               + Split(CanonicalUrl(path, params), '\n')
  {
    var m := Upper(httpMethod);
    var h := d.sha256Hex(BodyStream(body, d));
    var c := "client_id:" + accessId;
    UpperKeepsNewlineOut(httpMethod);
    NoSeparatorInConcat("client_id:", accessId, '\n');
    assert StringToSign(httpMethod, accessId, path, params, body, d)
           == m + "\n" + h + "\n" + c + "\n" + "\n" + CanonicalUrl(path, params);
    SplitFourLines(m, h, c, CanonicalUrl(path, params));
  }

  /** Three separator-free lines, an empty line, then `u`. */
  lemma SplitFourLines(m: string, h: string, c: string, u: string)
    requires '\n' !in m && '\n' !in h && '\n' !in c
    ensures Split(m + "\n" + h + "\n" + c + "\n" + "\n" + u, '\n') == [m, h, c, ""] + Split(u, '\n')
  {
    var tail3 := [] + ['\n'] + u;
    var tail2 := c + ['\n'] + tail3;
    var tail1 := h + ['\n'] + tail2;
    assert m + "\n" + h + "\n" + c + "\n" + "\n" + u == m + ['\n'] + tail1;
    var su := Split(u, '\n');
    var s3 := Split(tail3, '\n');
    var s2 := Split(tail2, '\n');
    var s1 := Split(tail1, '\n');
    assert s3 == [[]] + su by { SplitPrefix([], u, '\n'); }
    assert s2 == [c] + s3 by { SplitPrefix(c, tail3, '\n'); }
    assert s1 == [h] + s2 by { SplitPrefix(h, tail2, '\n'); }
    assert Split(m + ['\n'] + tail1, '\n') == [m] + s1 by { SplitPrefix(m, tail1, '\n'); }
    assert [m] + s1 == [m, h, c, ""] + su;
  }

  lemma NoSeparatorInConcat(a: string, b: string, sep: char)
    requires sep !in a && sep !in b
    ensures sep !in a + b
  {
  }

  /** `post` signs its argument as the body and no query; `get` and `delete`
      sign their argument as the query and hash an empty body. */
  function Route(verb: Verb, arg: Option<Record>): (r: (string, Option<Record>, Value))
    ensures verb == HttpPost ==> r.1 == None && r.2 == (if arg.Some? then Obj(arg.value) else Null)
    ensures verb != HttpPost ==> r.1 == arg && r.2 == Null
    ensures r.0 == match verb case HttpGet => "get" case HttpPost => "post" case HttpDelete => "delete"
  {
    match verb
    case HttpGet => ("get", arg, Null)
    case HttpPost => ("post", None, if arg.Some? then Obj(arg.value) else Null)
    case HttpDelete => ("delete", arg, Null)
  }

  /** What the three verbs sign: a `post` signs the bare path, a `get` or
      `delete` signs the hash of the empty string. */
  lemma RouteSigning(verb: Verb, accessId: string, path: string, arg: Option<Record>, d: Digests)
    ensures var (m, q, b) := Route(verb, arg);
            && (verb == HttpPost ==> CanonicalUrl(path, q) == path)
            && (verb != HttpPost ==> BodyStream(b, d) == "" && CanonicalUrl(path, q) == CanonicalUrl(path, arg))
            && Upper(m) == match verb case HttpGet => "GET" case HttpPost => "POST" case HttpDelete => "DELETE"
  {
  }

  /** The signed message: access id, token, timestamp, nonce, string-to-sign. */
  function SignMessage(accessId: string, accessToken: string, timestamp: int,
                       nonce: string, stringToSign: string): (msg: string)
    ensures |msg| == |accessId| + |accessToken| + |IntToDecimal(timestamp)| + |nonce| + |stringToSign|
  {
    accessId + accessToken + IntToDecimal(timestamp) + nonce + stringToSign
  }

  /** `_getSign`: the upper-cased HMAC of the message under the access key. */
  function Sign(accessId: string, accessKey: string, accessToken: string, timestamp: int,
                nonce: string, stringToSign: string, d: Digests): string
  {
    Upper(d.hmacSha256Hex(SignMessage(accessId, accessToken, timestamp, nonce, stringToSign), accessKey))
  }

  /** The signature is the HMAC text with every lower-case letter raised and
      nothing else changed. */
  lemma SignShape(accessId: string, accessKey: string, accessToken: string, timestamp: int,
                  nonce: string, stringToSign: string, d: Digests)
    ensures var hex := d.hmacSha256Hex(SignMessage(accessId, accessToken, timestamp, nonce, stringToSign), accessKey);
            var sig := Sign(accessId, accessKey, accessToken, timestamp, nonce, stringToSign, d);
            && |sig| == |hex|
            && (forall i :: 0 <= i < |sig| ==> !('a' <= sig[i] <= 'z'))
            && (forall i :: 0 <= i < |sig| && !('a' <= hex[i] <= 'z') ==> sig[i] == hex[i])
  {
    UpperIsUpper(d.hmacSha256Hex(SignMessage(accessId, accessToken, timestamp, nonce, stringToSign), accessKey));
  }

  /** The message the signature covers starts with the access id and ends
      with the string-to-sign, and a timestamp rendered in decimal reads back
      as itself. */
  lemma SignMessageParts(accessId: string, accessToken: string, timestamp: nat,
                         nonce: string, stringToSign: string)
    ensures var msg := SignMessage(accessId, accessToken, timestamp, nonce, stringToSign);
            && msg[..|accessId|] == accessId
            && msg[|msg| - |stringToSign|..] == stringToSign
            && DecimalValue(IntToDecimal(timestamp)) == timestamp
  {
    DecimalRoundTrip(timestamp);
    var mid := accessToken + IntToDecimal(timestamp) + nonce;
    var head := accessId + mid;
    assert SignMessage(accessId, accessToken, timestamp, nonce, stringToSign) == head + stringToSign;
    assert (head + stringToSign)[..|accessId|] == head[..|accessId|];
    assert head[..|accessId|] == accessId;
  }

  /** The headers `request` sends: the timestamp, the client id, the
      process-wide nonce, the signature, the token and fixed metadata. */
  function RequestHeaders(accessId: string, accessKey: string, accessToken: string, now: int,
                          nonce: string, lang: string, stringToSign: string, d: Digests)
    : (hs: seq<(string, string)>)
    ensures |hs| == 11
    ensures hs[4] == ("sign", Sign(accessId, accessKey, accessToken, now, nonce, stringToSign, d))
    ensures hs[6] == ("access_token", accessToken)
  {
    [("t", IntToDecimal(now)),
     ("client_id", accessId),
     ("nonce", nonce),
     ("Signature-Headers", "client_id"),
     ("sign", Sign(accessId, accessKey, accessToken, now, nonce, stringToSign, d)),
     ("sign_method", "HMAC-SHA256"),
     ("access_token", accessToken),
     ("lang", lang),
     ("dev_lang", "javascript"),
     ("dev_channel", "homebridge"),
     ("devVersion", "1.5.0")]
  }

  /** The call `request(method, path, params, body)` issues once the token
      check has passed. */
  function SignedCall(baseUrl: string, accessId: string, accessKey: string, accessToken: string,
                      now: int, nonce: string, lang: string, verb: Verb, path: string,
                      arg: Option<Record>, d: Digests): (c: HttpCall)
    ensures c.baseUrl == baseUrl && c.path == path
    ensures (c.httpMethod, c.params, c.body) == Route(verb, arg)
    ensures |c.headers| == 11
    ensures c.headers[4].1 == Sign(accessId, accessKey, accessToken, now, nonce,
                                   StringToSign(c.httpMethod, accessId, path, c.params, c.body, d), d)
  {
    var (m, q, b) := Route(verb, arg);
    var sts := StringToSign(m, accessId, path, q, b, d);
    HttpCall(baseUrl, m, path, q, b, RequestHeaders(accessId, accessKey, accessToken, now, nonce, lang, sts, d))
  }
}
