/**
 * The HTTP client: request addressing, the shared header map that `post`
 * and `get` update in place, the `host` getter/setter and the
 * classification of a response by its status code.  The network exchange
 * itself is not modelled: the response a call receives is a parameter.
 */
module Client {
  import opened Wrappers
  import opened Json

  const DefaultHost: string := "graph.facebook.com"
  const DefaultVersion: string := "v17.0"
  const DefaultTimeout: int := 30
  const Scheme: string := "https"
  const MessagesPath: string := "/messages"

  const AuthorizationHeader: string := "Authorization"
  const ContentTypeHeader: string := "Content-Type"
  const JsonContentType: string := "application/json"
  const FormContentType: string := "application/x-www-form-urlencoded"

  // -------------------------------------------------------------------------
  // Decimal rendering of an integer, as an f-string renders a status code.
  // -------------------------------------------------------------------------

  function Digit(d: nat): char
    requires d < 10
  {
    "0123456789"[d]
  }

  function DigitValue(c: char): nat {
    if '0' <= c <= '9' then (c - '0') as nat else 0
  }

  /** The decimal numeral of `n`: digits only, no leading zero. */
  function Decimal(n: nat): (s: string)
    ensures |s| >= 1
    ensures forall i :: 0 <= i < |s| ==> '0' <= s[i] <= '9'
    ensures |s| > 1 ==> s[0] != '0'
  {
    if n < 10 then [Digit(n)] else Decimal(n / 10) + [Digit(n % 10)]
  }

  /** The value of a string of decimal digits. */
  function DecimalValue(s: string): nat {
    if s == [] then 0 else DecimalValue(s[..|s| - 1]) * 10 + DigitValue(s[|s| - 1])
  }

  lemma DigitRoundTrip(d: nat)
    requires d < 10
    ensures DigitValue(Digit(d)) == d
  {
  }

  lemma {:induction false} DecimalRoundTrip(n: nat)
    ensures DecimalValue(Decimal(n)) == n
  {
    if n < 10 {
      DigitRoundTrip(n);
      assert Decimal(n)[..0] == [];
    } else {
      var q, d := n / 10, n % 10;
      var s := Decimal(n);
      assert s == Decimal(q) + [Digit(d)];
      assert s[..|s| - 1] == Decimal(q);
      DecimalRoundTrip(q);
      DigitRoundTrip(d);
      assert DecimalValue(s) == q * 10 + d;
    }
  }

  lemma {:induction false} DecimalLength(n: nat)
    requires 100 <= n < 1000
    ensures |Decimal(n)| == 3
  {
    var m := n / 10;
    assert 10 <= m < 100 && m / 10 < 10;
    assert |Decimal(m / 10)| == 1;
    assert |Decimal(m)| == |Decimal(m / 10)| + 1;
    assert |Decimal(n)| == |Decimal(m)| + 1;
  }

  /** How an f-string renders an optional host: `None` becomes "None". */
  function HostText(host: Option<string>): string {
    match host
    case None => "None"
    case Some(h) => h
  }

  // -------------------------------------------------------------------------
  // Responses.
  // -------------------------------------------------------------------------

  /** The outcome of decoding a response body as JSON. */
  datatype Decoded = Parsed(json: Json) | DecodeError

  datatype HttpResponse = HttpResponse(status: int, body: Decoded)

  /** The SDK's response wrapper, built from the parsed body and not inspected further. */
  datatype WAResponse = WAResponse(body: Json)

  datatype Outcome =
    | Returned(response: WAResponse)   // a wrapped body is returned
    | ReturnedNone                     // the function returns None
    | ServerError(message: string)     // ServerError is raised
    | JsonDecodeError                  // the decode error propagates

  /**
   * Classifying a response.  The 401 branch comes first; a 2xx body that does not
   * decode is swallowed, a 401 or 4xx one propagates; 5xx raises without
   * reading the body; every other status falls through to None.
   */
  function ProcessResponse(host: Option<string>, response: HttpResponse): (r: Outcome)
    ensures r.Returned? <==>
      response.body.Parsed? && (response.status == 401 || 200 <= response.status < 300 || 400 <= response.status < 500)
    ensures r.Returned? ==> r.response == WAResponse(response.body.json)
    ensures r.JsonDecodeError? <==>
      response.body.DecodeError? && (response.status == 401 || 400 <= response.status < 500)
    ensures r.ServerError? <==> 500 <= response.status < 600
    ensures r.ServerError? ==> r.message == Decimal(response.status) + " response from " + HostText(host)
    ensures r.ReturnedNone? <==>
      (200 <= response.status < 300 && response.body.DecodeError?)
      || response.status < 200 || 300 <= response.status < 400 || 600 <= response.status
  {
    var s := response.status;
    if s == 401 then
      (match response.body
       case Parsed(j) => Returned(WAResponse(j))
       case DecodeError => JsonDecodeError)
    else if 200 <= s < 300 then
      (match response.body
       case Parsed(j) => Returned(WAResponse(j))
       case DecodeError => ReturnedNone)
    else if 400 <= s < 500 then
      (match response.body
       case Parsed(j) => Returned(WAResponse(j))
       case DecodeError => JsonDecodeError)
    else if 500 <= s < 600 then
      ServerError(Decimal(s) + " response from " + HostText(host))
    else
      ReturnedNone
  }

  /** The 401 test ahead of the 4xx range changes nothing: 401 is handled like any 4xx. */
  lemma UnauthorizedLikeClientError(host: Option<string>, body: Decoded)
    ensures ProcessResponse(host, HttpResponse(401, body)) == ProcessResponse(host, HttpResponse(404, body))
  {
  }

  /** The server-error message starts with the three digits of the status, then names the host. */
  lemma {:induction false} ServerErrorMessage(host: Option<string>, response: HttpResponse)
    requires 500 <= response.status < 600
    ensures ProcessResponse(host, response).ServerError?
    ensures var m := ProcessResponse(host, response).message;
      |m| >= 3 && DecimalValue(m[..3]) == response.status && m[3..] == " response from " + HostText(host)
  {
    var d := Decimal(response.status);
    DecimalLength(response.status);
    DecimalRoundTrip(response.status);
    var m := ProcessResponse(host, response).message;
    assert m == d + (" response from " + HostText(host));
    assert m[..3] == d;
  }

  // -------------------------------------------------------------------------
  // Headers.  `post` and `get` bind `_request_headers` to `self.headers`
  // itself, so their writes land in the client's header map and persist.
  // -------------------------------------------------------------------------

  function BearerToken(apiToken: string): (s: string)
    ensures |s| == 7 + |apiToken| && s[..7] == "Bearer " && s[7..] == apiToken
  {
    "Bearer " + apiToken
  }

  function ContentTypeFor(bodyIsJson: bool): string {
    if bodyIsJson then JsonContentType else FormContentType
  }

  /** The header map after `get`: Authorization set, nothing else touched. */
  function Authorized(headers: map<string, string>, bearer: string): (h: map<string, string>)
    ensures h.Keys == headers.Keys + {AuthorizationHeader}
    ensures h[AuthorizationHeader] == bearer
    ensures forall k :: k in headers && k != AuthorizationHeader ==> h[k] == headers[k]
  {
    headers[AuthorizationHeader := bearer]
  }

  /** The header map after `post`: Authorization and Content-Type set, nothing else touched. */
  function PostHeaders(headers: map<string, string>, bearer: string, bodyIsJson: bool): (h: map<string, string>)
    ensures h.Keys == headers.Keys + {AuthorizationHeader, ContentTypeHeader}
    ensures h[AuthorizationHeader] == bearer
    ensures h[ContentTypeHeader] == (if bodyIsJson then "application/json" else "application/x-www-form-urlencoded")
    ensures forall k :: k in headers && k != AuthorizationHeader && k != ContentTypeHeader ==> h[k] == headers[k]
  {
    Authorized(headers, bearer)[ContentTypeHeader := ContentTypeFor(bodyIsJson)]
  }

  /** A Content-Type written by `post` is still there after a later `get`. */
  lemma ContentTypePersists(headers: map<string, string>, bearer: string, bodyIsJson: bool)
    ensures var h := Authorized(PostHeaders(headers, bearer, bodyIsJson), bearer);
      ContentTypeHeader in h && h[ContentTypeHeader] == ContentTypeFor(bodyIsJson)
  {
  }

  /** Posting twice in the same mode leaves the headers as posting once. */
  lemma PostHeadersIdempotent(headers: map<string, string>, bearer: string, bodyIsJson: bool)
    ensures PostHeaders(PostHeaders(headers, bearer, bodyIsJson), bearer, bodyIsJson) == PostHeaders(headers, bearer, bodyIsJson)
  {
  }

  // -------------------------------------------------------------------------
  // URLs.
  // -------------------------------------------------------------------------

  /** Python's `a or b` on an optional string: None and "" are false. */
  function OrElse(a: Option<string>, b: string): (r: string)
    ensures a.Some? && a.value != [] ==> r == a.value
    ensures a.None? || a.value == [] ==> r == b
  {
    if a.Some? && a.value != [] then a.value else b
  }

  /**
   * The URL `urlunparse` builds from the scheme, the host and
   * `/version/phone_number_id` + path: the host argument wins over the
   * client's host, and the path defaults to "/messages", each unless it is
   * None or "".
   */
  function PostUrl(scheme: string, clientHost: string, version: string, phoneNumberId: string,
                   host: Option<string>, path: Option<string>): (url: string)
    ensures var h := if host.Some? && host.value != "" then host.value else clientHost;
      && |scheme| + 3 + |h| <= |url|
      && url[..|scheme| + 3] == scheme + "://"
      && url[|scheme| + 3..|scheme| + 3 + |h|] == h
      && url[|scheme| + 3 + |h|..] == "/" + version + "/" + phoneNumberId
           + (if path.Some? && path.value != "" then path.value else MessagesPath)
  {
    var urlPath := "/" + version + "/" + phoneNumberId + OrElse(path, MessagesPath);
    var h := OrElse(host, clientHost);
    assert (scheme + "://" + h + urlPath)[..|scheme| + 3] == scheme + "://";
    assert (scheme + "://" + h + urlPath)[|scheme| + 3..] == h + urlPath;
    scheme + "://" + h + urlPath
  }

  /** A non-empty host argument replaces the client's host. */
  lemma PostUrlHostArgument(scheme: string, h1: string, h2: string, version: string, phoneNumberId: string,
                            host: string, path: Option<string>)
    requires host != []
    ensures PostUrl(scheme, h1, version, phoneNumberId, Some(host), path)
         == PostUrl(scheme, h2, version, phoneNumberId, Some(host), path)
  {
  }

  /** Without a path the request goes to the messages endpoint. */
  lemma {:induction false} PostUrlDefaultPath(clientHost: string, version: string, phoneNumberId: string, host: Option<string>)
    ensures var url := PostUrl(Scheme, clientHost, version, phoneNumberId, host, None);
      |url| >= 17 && url[..8] == "https://" && url[|url| - 9..] == "/messages"
  {
    var url := PostUrl(Scheme, clientHost, version, phoneNumberId, host, None);
    var prefix := Scheme + "://" + OrElse(host, clientHost) + "/" + version + "/" + phoneNumberId;
    assert url == "https://" + (OrElse(host, clientHost) + "/" + version + "/" + phoneNumberId + "/messages");
    assert url == prefix + "/messages";
  }

  /** The URL `get` builds: no scheme, the client's own host, and `/` before the path. */
  function GetUrl(clientHost: string, version: string, phoneNumberId: string, path: string): string
  {
    clientHost + "/" + version + "/" + phoneNumberId + "/" + path
  }

  // -------------------------------------------------------------------------
  // What a call hands to the HTTP session.
  // -------------------------------------------------------------------------

  datatype Verb = Get | Post

  datatype RequestBody = NoBody | JsonBody(json: Json) | FormBody(form: Json)

  datatype Request = Request(
    verb: Verb,
    url: string,
    headers: map<string, string>,
    query: Option<Json>,
    body: RequestBody,
    timeout: int)

  class Client {
    const apiToken: string
    const phoneNumberId: string
    const version: string
    const scheme: string
    const timeout: int
    /** `_host` */
    var host: string
    /** `headers`, the map `_request_headers` is bound to */
    var headers: map<string, string>

    /** The user-agent string, which embeds the Python version, is an argument. */
    constructor(apiToken: string, phoneNumberId: string, userAgent: string,
                version: string := DefaultVersion, timeout: int := DefaultTimeout)
      ensures this.apiToken == apiToken && this.phoneNumberId == phoneNumberId
      ensures this.version == version && this.timeout == timeout
      ensures scheme == "https" && host == "graph.facebook.com"
      ensures headers == map["User-Agent" := userAgent, "Accept" := "application/json"]
    {
      this.apiToken := apiToken;
      this.version := version;
      this.phoneNumberId := phoneNumberId;
      this.scheme := Scheme;
      this.host := DefaultHost;
      this.headers := map["User-Agent" := userAgent, "Accept" := "application/json"];
      this.timeout := timeout;
    }

    function BearerTokenString(): (s: string)
      ensures s == BearerToken(apiToken)
      ensures s[..7] == "Bearer " && s[7..] == apiToken
    {
      BearerToken(apiToken)
    }

    /** `host()` reads the host; `host(v)` replaces it and returns None. */
    method Host(value: Option<string> := None) returns (r: Option<string>)
      modifies this`host
      ensures value.None? ==> r == Some(old(host)) && host == old(host)
      ensures value.Some? ==> r.None? && host == value.value
    {
      if value.None? {
        r := Some(host);
      } else {
        host := value.value;
        r := None;
      }
    }

    function RequestUrl(host: Option<string> := None, path: Option<string> := None): (url: string)
      reads this
      ensures url == PostUrl(scheme, this.host, version, phoneNumberId, host, path)
    {
      PostUrl(scheme, this.host, version, phoneNumberId, host, path)
    }

    /**
     * `post`: writes Authorization and Content-Type into the shared header
     * map, sends `params` as JSON or as a form, and classifies the response
     * with the `host` argument.
     */
    method Post(response: HttpResponse, host: Option<string> := None, path: Option<string> := None,
                bodyIsJson: bool := true, params: Json := JObject(map[]))
      returns (sent: Request, outcome: Outcome)
      modifies this`headers
      ensures headers == PostHeaders(old(headers), BearerToken(apiToken), bodyIsJson)
      ensures sent.verb == Verb.Post && sent.url == PostUrl(scheme, this.host, version, phoneNumberId, host, path)
      ensures sent.headers == headers && sent.query.None? && sent.timeout == timeout
      ensures sent.body == if bodyIsJson then JsonBody(params) else FormBody(params)
      ensures outcome == ProcessResponse(host, response)
    {
      var url := RequestUrl(host, path);
      headers := headers[AuthorizationHeader := BearerTokenString()];
      if bodyIsJson {
        headers := headers[ContentTypeHeader := JsonContentType];
        sent := Request(Verb.Post, url, headers, None, JsonBody(params), timeout);
      } else {
        headers := headers[ContentTypeHeader := FormContentType];
        sent := Request(Verb.Post, url, headers, None, FormBody(params), timeout);
      }
      outcome := ProcessResponse(host, response);
    }

    /**
     * `get`: writes Authorization into the shared header map (a Content-Type
     * left by an earlier `post` stays), addresses the client's own host
     * without a scheme, and passes the `host` argument only to the
     * classification.
     */
    method Get(response: HttpResponse, host: Option<string> := None, path: string := "messages",
               params: Option<Json> := None)
      returns (sent: Request, outcome: Outcome)
      modifies this`headers
      ensures headers == Authorized(old(headers), BearerToken(apiToken))
      ensures sent == Request(Verb.Get, GetUrl(this.host, version, phoneNumberId, path), headers, params, NoBody, timeout)
      ensures outcome == ProcessResponse(host, response)
    {
      var url := this.host + "/" + version + "/" + phoneNumberId + "/" + path;
      headers := headers[AuthorizationHeader := BearerTokenString()];
      sent := Request(Verb.Get, url, headers, params, NoBody, timeout);
      outcome := ProcessResponse(host, response);
    }
  }
}
