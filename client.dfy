/**
  The desktop client's view of the backend (frontend-desktop/api_client.py):
  the base URL it talks to, the credentials it sends, the endpoint URLs it
  builds, and how it turns the outcome of each request into a result.

  The network is a parameter (`Network`): which URLs `requests` can prepare,
  and the outcome of sending a prepared request. A request that raises a
  `RequestException`, because its URL is rejected or because it times out or
  cannot connect, has outcome `NetworkError`. Credentials that cannot be
  encoded as Latin-1 make a call raise, but only once its URL is prepared.
 */
module Client {
  import opened Wrappers
  import opened Text

  const DefaultApiUrl := "http://127.0.0.1:8000"
  const UploadPath := "/api/upload/"
  const BatchPathPrefix := "/api/batch/"
  const PdfPathPrefix := "/api/export-pdf/"

  /** The base URL the constructor settles on, given the `API_URL` environment variable. */
  function NormalizeBaseUrl(configured: Option<string>): (base: string)
    ensures configured.None? ==> base == DefaultApiUrl
    ensures configured.Some? && configured.value != [] && configured.value[|configured.value| - 1] == '/' ==>
              base + "/" == configured.value
    ensures configured.Some? && (configured.value == [] || configured.value[|configured.value| - 1] != '/') ==>
              base == configured.value
  {
    match configured
    case None => DefaultApiUrl
    case Some(url) => if url != [] && url[|url| - 1] == '/' then url[..|url| - 1] else url
  }

  /** Only one trailing slash is removed: a configured URL ending in "//" keeps one. */
  lemma NormalizeRemovesOneSlash(url: string)
    requires |url| >= 2 && url[|url| - 2..] == "//"
    ensures var base := NormalizeBaseUrl(Some(url));
            |base| == |url| - 1 && base[|base| - 1] == '/'
  {
    assert url[|url| - 2] == '/';
  }

  /** The base URL is the configured one or one character shorter, and a prefix of it. */
  lemma NormalizeIsPrefix(url: string)
    ensures var base := NormalizeBaseUrl(Some(url));
            |url| - 1 <= |base| <= |url| && base == url[..|base|]
  {
  }

  /** The upload endpoint, also probed by `test_auth` and read by the history call. */
  function UploadUrl(base: string): (url: string)
    ensures |url| == |base| + |UploadPath|
    ensures url[..|base|] == base && url[|base|..] == UploadPath
  {
    base + UploadPath
  }

  /** The statistics endpoint of one batch: the prefix, the id in decimal, and a closing slash. */
  function BatchUrl(base: string, batchId: nat): (url: string)
    ensures var n := |base| + |BatchPathPrefix|;
            && |url| == n + |Decimal(batchId)| + 1
            && url[..|base|] == base && url[|base|..n] == BatchPathPrefix
            && url[n..|url| - 1] == Decimal(batchId) && url[|url| - 1] == '/'
  {
    var url := base + BatchPathPrefix + Decimal(batchId) + "/";
    assert url == base + (BatchPathPrefix + (Decimal(batchId) + "/"));
    url
  }

  /** The report endpoint of one batch, built the same way as the statistics one. */
  function PdfUrl(base: string, batchId: nat): (url: string)
    ensures var n := |base| + |PdfPathPrefix|;
            && |url| == n + |Decimal(batchId)| + 1
            && url[..|base|] == base && url[|base|..n] == PdfPathPrefix
            && url[n..|url| - 1] == Decimal(batchId) && url[|url| - 1] == '/'
  {
    var url := base + PdfPathPrefix + Decimal(batchId) + "/";
    assert url == base + (PdfPathPrefix + (Decimal(batchId) + "/"));
    url
  }

  /** Every endpoint URL starts with the base URL, followed by "/api/". */
  lemma EndpointsExtendBase(base: string, batchId: nat)
    ensures UploadUrl(base)[..|base| + 5] == base + "/api/"
    ensures BatchUrl(base, batchId)[..|base| + 5] == base + "/api/"
    ensures PdfUrl(base, batchId)[..|base| + 5] == base + "/api/"
  {
    ApiPrefix(base, UploadUrl(base), UploadPath);
    ApiPrefix(base, BatchUrl(base, batchId), BatchPathPrefix);
    ApiPrefix(base, PdfUrl(base, batchId), PdfPathPrefix);
  }

  /** A URL made of the base and then a path under "/api/" starts with the base and "/api/". */
  lemma ApiPrefix(base: string, url: string, path: string)
    requires |path| >= 5 && path[..5] == "/api/"
    requires |url| >= |base| + |path| && url[..|base|] == base && url[|base|..|base| + |path|] == path
    ensures url[..|base| + 5] == base + "/api/"
  {
    assert url[..|base| + 5] == url[..|base|] + url[|base|..|base| + 5];
    assert url[|base|..|base| + 5] == path[..5];
  }

  /** The three endpoints never share a URL, whatever the batch ids. */
  lemma EndpointsDistinct(base: string, i: nat, j: nat)
    ensures UploadUrl(base) != BatchUrl(base, i)
    ensures UploadUrl(base) != PdfUrl(base, j)
    ensures BatchUrl(base, i) != PdfUrl(base, j)
  {
    var k := |base| + 5;
    assert UploadUrl(base)[k] == 'u';
    assert BatchUrl(base, i)[k] == 'b';
    assert PdfUrl(base, j)[k] == 'e';
  }

  /** The statistics URL names its batch: two batches never share one. */
  lemma BatchUrlInjective(base: string, i: nat, j: nat)
    ensures BatchUrl(base, i) == BatchUrl(base, j) ==> i == j
  {
    if BatchUrl(base, i) == BatchUrl(base, j) {
      var n := |base| + |BatchPathPrefix|;
      var u := BatchUrl(base, i);
      assert u[n..|u| - 1] == Decimal(i);
      assert BatchUrl(base, j)[n..|u| - 1] == Decimal(j);
      DecimalInjective(i, j);
    }
  }

  /** The report URL names its batch: two batches never share one. */
  lemma PdfUrlInjective(base: string, i: nat, j: nat)
    ensures PdfUrl(base, i) == PdfUrl(base, j) ==> i == j
  {
    if PdfUrl(base, i) == PdfUrl(base, j) {
      var n := |base| + |PdfPathPrefix|;
      var u := PdfUrl(base, i);
      assert u[n..|u| - 1] == Decimal(i);
      assert PdfUrl(base, j)[n..|u| - 1] == Decimal(j);
      DecimalInjective(i, j);
    }
  }

  /** A JSON document, kept abstract except for the empty list the client falls back to. */
  datatype Json = JsonList(items: seq<Json>) | JsonObject(fields: map<string, Json>) | JsonScalar(text: string)

  datatype Verb = Options | Get | Post

  /** The file part of a multipart upload: file name, content and content type. */
  datatype UploadFile = UploadFile(name: string, content: seq<bv8>, contentType: string)

  datatype Request = Request(verb: Verb, url: string, auth: Option<(string, string)>, file: Option<UploadFile>)

  /**
    What came back: a status code and the body as JSON (`None` when the body
    does not decode as JSON), or no response at all.
   */
  datatype HttpOutcome = Status(code: int, body: Option<Json>) | NetworkError

  /** Why a call raised. */
  datatype ClientError =
    | ConnectionFailed      // the request itself raised
    | HttpError(code: int)  // `raise_for_status` raised
    | InvalidJson           // `response.json()` raised
    | FileUnreadable        // `open(file_path, 'rb')` raised
    | AuthNotLatin1         // encoding the basic-auth header raised `UnicodeEncodeError`

  /** `raise_for_status` raises for the 4xx and 5xx codes. */
  predicate RaisesForStatus(code: int) {
    400 <= code < 600
  }

  /** `raise_for_status()` followed by `response.json()`. */
  function JsonOrError(outcome: HttpOutcome): (r: Result<Json, ClientError>)
    ensures r.Success? <==> outcome.Status? && !RaisesForStatus(outcome.code) && outcome.body.Some?
    ensures r.Success? ==> r.value == outcome.body.value
    ensures outcome.Status? && RaisesForStatus(outcome.code) ==> r == Failure(HttpError(outcome.code))
  {
    match outcome
    case NetworkError => Failure(ConnectionFailed)
    case Status(code, body) =>
      if RaisesForStatus(code) then Failure(HttpError(code))
      else if body.None? then Failure(InvalidJson)
      else Success(body.value)
  }

  /**
    `test_auth`'s verdict on the outcome of its probe: only a 401 means the
    credentials are bad; no response at all gives them the benefit of the doubt.
   */
  function AuthVerdict(outcome: HttpOutcome): (accepted: bool)
    ensures !accepted <==> outcome.Status? && outcome.code == 401
    ensures outcome.NetworkError? ==> accepted
  {
    match outcome
    case NetworkError => true
    case Status(code, _) => code != 401
  }

  /** Every character has a Latin-1 encoding. */
  predicate Latin1(s: string) {
    forall i :: 0 <= i < |s| ==> s[i] <= '\U{FF}'
  }

  /**
    `requests` encodes a basic-auth username and password as Latin-1 before
    it sends anything; a character beyond U+00FF raises `UnicodeEncodeError`,
    which is not a `RequestException`.
   */
  predicate AuthEncodable(auth: Option<(string, string)>) {
    auth.None? || (Latin1(auth.value.0) && Latin1(auth.value.1))
  }

  /**
    The network: `prepares(url)` says whether `prepare_url` accepts the URL
    (it raises `MissingSchema` or `InvalidURL`, both `RequestException`s, for
    one without a scheme or a host), and `send` gives what comes back for a
    prepared request.
   */
  datatype Network = Network(prepares: string -> bool, send: Request -> HttpOutcome)

  /**
    What calling `requests` with a request amounts to. Preparing runs the URL
    step before the auth step, so a rejected URL raises its
    `RequestException` before the credentials are encoded.
   */
  function Dispatch(net: Network, req: Request): (o: Result<HttpOutcome, ClientError>)
    ensures o.Failure? <==> net.prepares(req.url) && !AuthEncodable(req.auth)
    ensures o.Failure? ==> o.error == AuthNotLatin1
    ensures !net.prepares(req.url) ==> o == Success(NetworkError)
    ensures net.prepares(req.url) && AuthEncodable(req.auth) ==> o == Success(net.send(req))
  {
    if !net.prepares(req.url) then Success(NetworkError)
    else if !AuthEncodable(req.auth) then Failure(AuthNotLatin1)
    else Success(net.send(req))
  }

  /** With a URL that cannot be prepared the credentials play no part, whatever they are. */
  lemma RejectedUrlIgnoresAuth(net: Network, req: Request, auth: Option<(string, string)>)
    ensures !net.prepares(req.url) ==> Dispatch(net, req.(auth := auth)) == Dispatch(net, req)
  {
  }

  /** `raise_for_status()` and `response.json()` after a dispatch: any error raised is kept. */
  function DecodeDispatched(d: Result<HttpOutcome, ClientError>): (r: Result<Json, ClientError>)
    ensures d.Failure? ==> r == Failure(d.error)
    ensures d.Success? ==> r == JsonOrError(d.value)
  {
    match d
    case Failure(e) => Failure(e)
    case Success(outcome) => JsonOrError(outcome)
  }

  /** A stored credential counts only when it is set and non-empty (Python truthiness). */
  predicate Truthy(v: Option<string>) {
    v.Some? && v.value != []
  }

  class ApiClient {
    var baseUrl: string
    var username: Option<string>
    var password: Option<string>

    /** `APIClient()`; `apiUrl` is the value of `API_URL` in the environment, if set. */
    constructor (apiUrl: Option<string>)
      ensures baseUrl == NormalizeBaseUrl(apiUrl)
      ensures username == None && password == None
      ensures GetAuth() == None
    {
      var url := if apiUrl.Some? then apiUrl.value else DefaultApiUrl;
      if url != [] && url[|url| - 1] == '/' {
        url := url[..|url| - 1];
      }
      baseUrl := url;
      username := None;
      password := None;
    }

    method SetCredentials(username: Option<string>, password: Option<string>)
      modifies this`username, this`password
      ensures this.username == username && this.password == password
      ensures GetAuth() == if Truthy(username) && Truthy(password)
                           then Some((username.value, password.value)) else None
    {
      this.username := username;
      this.password := password;
    }

    method ClearCredentials()
      modifies this`username, this`password
      ensures username == None && password == None
      ensures GetAuth() == None
    {
      username := None;
      password := None;
    }

    /** The pair sent as HTTP basic auth, or `None` when either credential is unset or empty. */
    function GetAuth(): (auth: Option<(string, string)>)
      reads this
      ensures auth.Some? <==> Truthy(username) && Truthy(password)
      ensures auth.Some? ==> auth.value == (username.value, password.value)
    {
      if Truthy(username) && Truthy(password) then Some((username.value, password.value)) else None
    }

    /**
      `test_auth`: an OPTIONS probe of the upload endpoint with the stored
      credentials. Only a `RequestException` is caught, so credentials that
      do not encode as Latin-1 make the call raise, unless the URL is
      rejected first.
     */
    method TestAuth(net: Network) returns (r: Result<bool, ClientError>)
      ensures !net.prepares(UploadUrl(baseUrl)) ==> r == Success(true)
      ensures net.prepares(UploadUrl(baseUrl)) && !AuthEncodable(GetAuth()) ==> r == Failure(AuthNotLatin1)
      ensures net.prepares(UploadUrl(baseUrl)) && AuthEncodable(GetAuth()) ==>
                var outcome := net.send(Request(Options, UploadUrl(baseUrl), GetAuth(), None));
                r.Success? && (!r.value <==> outcome.Status? && outcome.code == 401)
    {
      var dispatched := Dispatch(net, Request(Options, UploadUrl(baseUrl), GetAuth(), None));
      if dispatched.Failure? {
        return Failure(dispatched.error);
      }
      r := Success(AuthVerdict(dispatched.value));
    }

    /**
      `upload_csv`: posts the file under its base name. `content` is what
      reading the file yields, `None` when opening it fails; the file is
      opened before the request is prepared. Every failure is raised to the
      caller.
     */
    method UploadCsv(net: Network, filePath: string, content: Option<seq<bv8>>)
      returns (r: Result<Json, ClientError>)
      ensures content.None? ==> r == Failure(FileUnreadable)
      ensures content.Some? ==>
                var file := UploadFile(Basename(filePath), content.value, "text/csv");
                r == DecodeDispatched(Dispatch(net, Request(Post, UploadUrl(baseUrl), GetAuth(), Some(file))))
    {
      if content.None? {
        return Failure(FileUnreadable);
      }
      var file := UploadFile(Basename(filePath), content.value, "text/csv");
      var dispatched := Dispatch(net, Request(Post, UploadUrl(baseUrl), GetAuth(), Some(file)));
      r := DecodeDispatched(dispatched);
    }

    /** `get_recent_uploads`: any failure, the encoding one included, degrades to the empty list. */
    method GetRecentUploads(net: Network) returns (uploads: Json)
      ensures uploads == match DecodeDispatched(Dispatch(net, Request(Get, UploadUrl(baseUrl), GetAuth(), None)))
                         case Success(body) => body
                         case Failure(_) => JsonList([])
    {
      var decoded := DecodeDispatched(Dispatch(net, Request(Get, UploadUrl(baseUrl), GetAuth(), None)));
      if decoded.Success? {
        uploads := decoded.value;
      } else {
        uploads := JsonList([]);
      }
    }

    /** `get_batch_stats`: unlike the history call, every failure is raised to the caller. */
    method GetBatchStats(net: Network, batchId: nat) returns (r: Result<Json, ClientError>)
      ensures r == DecodeDispatched(Dispatch(net, Request(Get, BatchUrl(baseUrl, batchId), GetAuth(), None)))
    {
      var dispatched := Dispatch(net, Request(Get, BatchUrl(baseUrl, batchId), GetAuth(), None));
      r := DecodeDispatched(dispatched);
    }

    /**
      `download_pdf`: `true` once the response is not an error status; every
      failure is raised. Writing the streamed body to disk is not modelled.
     */
    method DownloadPdf(net: Network, batchId: nat) returns (r: Result<bool, ClientError>)
      ensures var d := Dispatch(net, Request(Get, PdfUrl(baseUrl, batchId), GetAuth(), None));
              && (r.Success? <==> d.Success? && d.value.Status? && !RaisesForStatus(d.value.code))
              && (r.Success? ==> r.value)
              && (d.Failure? ==> r == Failure(d.error))
              && (d.Success? && d.value.NetworkError? ==> r == Failure(ConnectionFailed))
              && (d.Success? && d.value.Status? && RaisesForStatus(d.value.code) ==>
                    r == Failure(HttpError(d.value.code)))
    {
      var dispatched := Dispatch(net, Request(Get, PdfUrl(baseUrl, batchId), GetAuth(), None));
      if dispatched.Failure? {
        return Failure(dispatched.error);
      }
      match dispatched.value
      case NetworkError =>
        r := Failure(ConnectionFailed);
      case Status(code, _) =>
        if RaisesForStatus(code) {
          r := Failure(HttpError(code));
        } else {
          r := Success(true);
        }
    }
  }
}
