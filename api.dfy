/** The remote access layer (src/lib/api.ts): URL building, the header
    merge, and the normalisation of every failure into an `Error`.
    `fetch` and the reading of the response body are a parameter: a function
    from the request sent to what the network and the body parser produced. */
module Api {

  import opened Wrappers
  import opened Domain
  import opened Utils

  const DefaultBaseUrl: string := "http://localhost:8000/api/v1"

  /** `process.env.NEXT_PUBLIC_API_URL || 'http://localhost:8000/api/v1'`:
      an unset or empty variable falls back to the local default. */
  function ApiBaseUrl(env: Option<string>): (url: string)
    ensures env.Some? && env.value != "" ==> url == env.value
    ensures env.None? || env.value == "" ==> url == DefaultBaseUrl
    ensures url != ""
  {
    match env
    case Some(v) => if v != "" then v else DefaultBaseUrl
    case None => DefaultBaseUrl
  }

  type Headers = map<string, string>

  const JsonHeaders: Headers := map["Content-Type" := "application/json"]

  datatype Method = Post | Delete

  /** Request bodies: the JSON of `{content, file_name}` (an absent file
      name is omitted) or a multipart form with one `file` field. */
  datatype Payload = AnalysisJson(content: string, fileName: Option<string>) | FileForm(file: File)

  /** The caller's `RequestInit`; an absent field is not spread. */
  datatype RequestInit = RequestInit(httpMethod: Option<Method>, headers: Option<Headers>, body: Option<Payload>)

  const NoOptions: RequestInit := RequestInit(None, None, None)

  /** What `fetch(url, config)` is called with; no method means GET. */
  datatype HttpRequest = HttpRequest(url: string, httpMethod: Option<Method>, headers: Headers, body: Option<Payload>)

  /** The parsed body of an error response; `error` may be missing. */
  datatype ErrorBody = ErrorBody(error: Option<string>)

  /** What came back: a 2xx response whose body parsed, a non-2xx response
      (with its body when that parsed as JSON), or a thrown value (from
      `fetch` itself or from parsing a 2xx body). */
  datatype FetchOutcome<T> =
    | Ok(body: T)
    | NotOk(status: int, statusText: string, parsed: Option<ErrorBody>)
    | Threw(thrown: Thrown)

  const NetworkErrorMessage: string := "Erro de rede: Não foi possível conectar ao servidor"

  /** "Erro HTTP <status>: <statusText>", when the error body did not parse. */
  function StatusTextMessage(status: int, statusText: string): string
  {
    "Erro HTTP " + IntToString(status) + ": " + statusText
  }

  /** "Erro HTTP <status>", when the error body has no usable `error`. */
  function StatusMessage(status: int): string
  {
    "Erro HTTP " + IntToString(status)
  }

  /** JavaScript truthiness of an optional string field. */
  predicate Truthy(s: Option<string>) { s.Some? && s.value != "" }

  /** What `request` resolves to or rejects with, given the outcome of the
      fetch. */
  function Normalize<T>(o: FetchOutcome<T>): (r: Result<T, Thrown>)
    ensures r.Success? <==> o.Ok?
    ensures o.Ok? ==> r.value == o.body
    ensures r.Failure? ==> r.error.JsError?
    ensures o.NotOk? && o.parsed.None? ==>
      r.error.message == StatusTextMessage(o.status, o.statusText)
    ensures o.NotOk? && o.parsed.Some? && Truthy(o.parsed.value.error) ==>
      r.error.message == o.parsed.value.error.value
    ensures o.NotOk? && o.parsed.Some? && !Truthy(o.parsed.value.error) ==>
      r.error.message == StatusMessage(o.status)
    ensures o.Threw? && o.thrown.JsError? ==> r.error == o.thrown
    ensures o.Threw? && o.thrown.NonError? ==> r.error.message == NetworkErrorMessage
  {
    match o
    case Ok(body) => Success(body)
    case NotOk(status, statusText, parsed) =>
      if parsed.None? then Failure(JsError(StatusTextMessage(status, statusText)))
      else if Truthy(parsed.value.error) then Failure(JsError(parsed.value.error.value))
      else Failure(JsError(StatusMessage(status)))
    case Threw(t) =>
      if t.JsError? then Failure(t) else Failure(JsError(NetworkErrorMessage))
  }

  /** The message used when the service could not be reached is never one
      derived from a status code, so callers can tell the two apart. */
  lemma NetworkMessageIsDistinct(status: int, statusText: string)
    ensures NetworkErrorMessage != StatusTextMessage(status, statusText)
    ensures NetworkErrorMessage != StatusMessage(status)
  {
    var network := NetworkErrorMessage;
    assert network == "Erro de rede" + network[12..];
    assert network[5] == 'd';
    assert StatusTextMessage(status, statusText)[5] == 'H';
    assert StatusMessage(status)[5] == 'H';
  }

  /** The response schemas of the service. */
  datatype HealthResponse = HealthResponse(status: string, appName: string, version: string, timestamp: string)

  datatype AnalysisRequest = AnalysisRequest(content: string, fileName: Option<string>)

  datatype EmailAnalysisResponse = EmailAnalysisResponse(
    id: string,
    classification: Classification,
    confidence: real,
    suggestedResponse: string,
    analysisTimestamp: string,
    fileName: Option<string>)

  datatype EmailHistory = EmailHistory(
    id: string,
    content: string,
    classification: Classification,
    confidence: real,
    suggestedResponse: string,
    analysisTimestamp: string,
    fileName: Option<string>)

  datatype StatsResponse = StatsResponse(
    totalProcessed: int,
    productiveCount: int,
    unproductiveCount: int,
    averageConfidence: real)

  datatype ClearResponse = ClearResponse(message: string)

  /** `getHistory`'s default page size. */
  const DefaultHistoryLimit: int := 50

  /** Characters `URLSearchParams` writes as they are. */
  predicate Unreserved(c: char)
  {
    ('a' <= c <= 'z') || ('A' <= c <= 'Z') || ('0' <= c <= '9') || c == '-' || c == '_' || c == '.' || c == '*'
  }

  predicate AllUnreserved(s: string)
  {
    forall i :: 0 <= i < |s| ==> Unreserved(s[i])
  }

  /** The query parameters `getHistory` appends, in order. */
  function HistoryParams(limit: int, classification: Option<Classification>): (ps: seq<(string, string)>)
    ensures |ps| == if classification.Some? then 2 else 1
    ensures ps[0] == ("limit", IntToString(limit))
    ensures classification.Some? ==> ps[1] == ("classification", classification.value.Name())
    ensures forall i :: 0 <= i < |ps| ==> AllUnreserved(ps[i].0) && AllUnreserved(ps[i].1)
  {
    var limitParam := ("limit", IntToString(limit));
    assert AllUnreserved(limitParam.1);
    match classification
    case None => [limitParam]
    case Some(c) => [limitParam, ("classification", c.Name())]
  }

  /** One `key=value` pair as `URLSearchParams` writes it. */
  function PairText(p: (string, string)): string
  {
    p.0 + "=" + p.1
  }

  /** `params.toString()`: `key=value` pairs joined by `&`; the escaping
      `URLSearchParams` applies leaves unreserved characters unchanged. */
  function QueryString(ps: seq<(string, string)>): (q: string)
    ensures q == "" <==> ps == []
  {
    if ps == [] then ""
    else if |ps| == 1 then PairText(ps[0])
    else PairText(ps[0]) + "&" + QueryString(ps[1..])
  }

  /** The pieces of s between occurrences of sep (`s.split(sep)`). */
  function SplitOn(s: string, sep: char): (parts: seq<string>)
    ensures |parts| >= 1
    decreases |s|
  {
    var k := FirstIndexOf(s, sep);
    if k == |s| then [s] else [s[..k]] + SplitOn(s[k + 1..], sep)
  }

  /** A `key=value` piece read back at its first '='. */
  function ParsePair(s: string): (string, string)
  {
    var k := FirstIndexOf(s, '=');
    if k == |s| then (s, "") else (s[..k], s[k + 1..])
  }

  /** How a query string without escapes reads back into pairs. */
  function ParseQuery(q: string): seq<(string, string)>
  {
    if q == "" then []
    else
      var parts := SplitOn(q, '&');
      seq(|parts|, i requires 0 <= i < |parts| => ParsePair(parts[i]))
  }

  predicate UnreservedPairs(ps: seq<(string, string)>)
  {
    forall i :: 0 <= i < |ps| ==> AllUnreserved(ps[i].0) && AllUnreserved(ps[i].1)
  }

  lemma PairTextHasNo(p: (string, string), c: char)
    requires AllUnreserved(p.0) && AllUnreserved(p.1) && !Unreserved(c) && c != '='
    ensures forall i :: 0 <= i < |PairText(p)| ==> PairText(p)[i] != c
  {
    var t := PairText(p);
    forall i | 0 <= i < |t|
      ensures t[i] != c
    {
      if i < |p.0| {
        assert t[i] == p.0[i];
      } else if i > |p.0| {
        assert t[i] == p.1[i - |p.0| - 1];
      }
    }
  }

  lemma {:induction false} SplitQueryString(ps: seq<(string, string)>)
    requires ps != [] && UnreservedPairs(ps)
    ensures SplitOn(QueryString(ps), '&') == seq(|ps|, i requires 0 <= i < |ps| => PairText(ps[i]))
  {
    var first := PairText(ps[0]);
    PairTextHasNo(ps[0], '&');
    if |ps| == 1 {
      assert FirstIndexOf(first, '&') == |first|;
    } else {
      var rest := QueryString(ps[1..]);
      var q := first + "&" + rest;
      assert q[|first|] == '&';
      assert FirstIndexOf(q, '&') == |first|;
      assert q[..|first|] == first;
      assert q[|first| + 1..] == rest;
      SplitQueryString(ps[1..]);
    }
  }

  lemma ParsePairText(p: (string, string))
    requires AllUnreserved(p.0)
    ensures ParsePair(PairText(p)) == p
  {
    var t := PairText(p);
    assert t[|p.0|] == '=';
    assert FirstIndexOf(t, '=') == |p.0|;
    assert t[..|p.0|] == p.0;
    assert t[|p.0| + 1..] == p.1;
  }

  /** Reading the written query back recovers exactly the pairs, in order. */
  lemma QueryStringRoundTrip(ps: seq<(string, string)>)
    requires UnreservedPairs(ps)
    ensures ParseQuery(QueryString(ps)) == ps
  {
    if ps != [] {
      SplitQueryString(ps);
      var r := ParseQuery(QueryString(ps));
      forall i | 0 <= i < |ps|
        ensures r[i] == ps[i]
      {
        ParsePairText(ps[i]);
      }
    }
  }

  /** The endpoint of a history request, spelled out for both shapes. */
  lemma HistoryEndpoint(limit: int, c: Classification)
    ensures QueryString(HistoryParams(limit, None)) == "limit=" + IntToString(limit)
    ensures QueryString(HistoryParams(limit, Some(c))) ==
      "limit=" + IntToString(limit) + "&classification=" + c.Name()
  {
    var ps := HistoryParams(limit, Some(c));
    assert ps[1..] == [("classification", c.Name())];
  }

  class APIClient {
    const baseURL: string

    constructor (baseURL: string)
      ensures this.baseURL == baseURL
    {
      this.baseURL := baseURL;
    }

    /** `request(endpoint, options)`. The caller's headers are merged over
        the JSON default, but `...options` is spread afterwards, so a
        caller that passes `headers` sends exactly those. */
    method Request<T>(endpoint: string, options: RequestInit, fetch: HttpRequest -> FetchOutcome<T>)
      returns (sent: HttpRequest, r: Result<T, Thrown>)
      ensures sent.url == baseURL + endpoint
      ensures sent.headers == if options.headers.Some? then options.headers.value else JsonHeaders
      ensures sent.httpMethod == options.httpMethod && sent.body == options.body
      ensures r == Normalize(fetch(sent))
    {
      var url := baseURL + endpoint;
      var merged := JsonHeaders + (if options.headers.Some? then options.headers.value else map[]);
      var headers := if options.headers.Some? then options.headers.value else merged;
      sent := HttpRequest(url, options.httpMethod, headers, options.body);
      var response := fetch(sent);
      match response {
        case NotOk(status, statusText, parsed) =>
          if parsed.None? {
            r := Failure(JsError(StatusTextMessage(status, statusText)));
          } else {
            var errorData := parsed.value;
            var message := if Truthy(errorData.error) then errorData.error.value else StatusMessage(status);
            r := Failure(JsError(message));
          }
        case Ok(body) =>
          r := Success(body);
        case Threw(error) =>
          if error.JsError? {
            r := Failure(error);
          } else {
            r := Failure(JsError(NetworkErrorMessage));
          }
      }
    }

    method HealthCheck(fetch: HttpRequest -> FetchOutcome<HealthResponse>)
      returns (sent: HttpRequest, r: Result<HealthResponse, Thrown>)
      ensures sent == HttpRequest(baseURL + "/health", None, JsonHeaders, None)
      ensures r == Normalize(fetch(sent))
    {
      sent, r := Request("/health", NoOptions, fetch);
    }

    method AnalyzeText(request: AnalysisRequest, fetch: HttpRequest -> FetchOutcome<EmailAnalysisResponse>)
      returns (sent: HttpRequest, r: Result<EmailAnalysisResponse, Thrown>)
      ensures sent == HttpRequest(baseURL + "/analyze", Some(Post), JsonHeaders,
                                  Some(AnalysisJson(request.content, request.fileName)))
      ensures r == Normalize(fetch(sent))
    {
      var payload := AnalysisJson(request.content, request.fileName);
      sent, r := Request("/analyze", RequestInit(Some(Post), None, Some(payload)), fetch);
    }

    /** Passes `headers: {}` so that the browser sets the multipart type:
        the request carries no headers at all. */
    method AnalyzeFile(file: File, fetch: HttpRequest -> FetchOutcome<EmailAnalysisResponse>)
      returns (sent: HttpRequest, r: Result<EmailAnalysisResponse, Thrown>)
      ensures sent == HttpRequest(baseURL + "/analyze/file", Some(Post), map[], Some(FileForm(file)))
      ensures "Content-Type" !in sent.headers
      ensures r == Normalize(fetch(sent))
    {
      sent, r := Request("/analyze/file", RequestInit(Some(Post), Some(map[]), Some(FileForm(file))), fetch);
    }

    method GetAnalysis(id: string, fetch: HttpRequest -> FetchOutcome<EmailAnalysisResponse>)
      returns (sent: HttpRequest, r: Result<EmailAnalysisResponse, Thrown>)
      ensures sent == HttpRequest(baseURL + "/analysis/" + id, None, JsonHeaders, None)
      ensures r == Normalize(fetch(sent))
    {
      sent, r := Request("/analysis/" + id, NoOptions, fetch);
    }

    method GetHistory(fetch: HttpRequest -> FetchOutcome<seq<EmailHistory>>,
                      limit: int := DefaultHistoryLimit,
                      classification: Option<Classification> := None)
      returns (sent: HttpRequest, r: Result<seq<EmailHistory>, Thrown>)
      ensures sent == HttpRequest(baseURL + "/history?" + QueryString(HistoryParams(limit, classification)),
                                  None, JsonHeaders, None)
      ensures r == Normalize(fetch(sent))
    {
      var params := [("limit", IntToString(limit))];
      if classification.Some? {
        params := params + [("classification", classification.value.Name())];
      }
      sent, r := Request("/history?" + QueryString(params), NoOptions, fetch);
    }

    method GetStats(fetch: HttpRequest -> FetchOutcome<StatsResponse>)
      returns (sent: HttpRequest, r: Result<StatsResponse, Thrown>)
      ensures sent == HttpRequest(baseURL + "/stats", None, JsonHeaders, None)
      ensures r == Normalize(fetch(sent))
    {
      sent, r := Request("/stats", NoOptions, fetch);
    }

    method ClearHistory(fetch: HttpRequest -> FetchOutcome<ClearResponse>)
      returns (sent: HttpRequest, r: Result<ClearResponse, Thrown>)
      ensures sent == HttpRequest(baseURL + "/history", Some(Delete), JsonHeaders, None)
      ensures r == Normalize(fetch(sent))
    {
      sent, r := Request("/history", RequestInit(Some(Delete), None, None), fetch);
    }
  }

  /** The singleton `apiClient`, built from the environment. */
  method DefaultClient(env: Option<string>) returns (client: APIClient)
    ensures fresh(client) && client.baseURL == ApiBaseUrl(env)
  {
    client := new APIClient(ApiBaseUrl(env));
  }

  /** `analyzeEmail(content, fileName?)`. */
  method AnalyzeEmail(client: APIClient, content: string, fileName: Option<string>,
                      fetch: HttpRequest -> FetchOutcome<EmailAnalysisResponse>)
    returns (sent: HttpRequest, r: Result<EmailAnalysisResponse, Thrown>)
    ensures sent == HttpRequest(client.baseURL + "/analyze", Some(Post), JsonHeaders,
                                Some(AnalysisJson(content, fileName)))
    ensures r == Normalize(fetch(sent))
  {
    sent, r := client.AnalyzeText(AnalysisRequest(content, fileName), fetch);
  }

  /** `analyzeEmailFile(file)`. */
  method AnalyzeEmailFile(client: APIClient, file: File,
                          fetch: HttpRequest -> FetchOutcome<EmailAnalysisResponse>)
    returns (sent: HttpRequest, r: Result<EmailAnalysisResponse, Thrown>)
    ensures sent == HttpRequest(client.baseURL + "/analyze/file", Some(Post), map[], Some(FileForm(file)))
    ensures r == Normalize(fetch(sent))
  {
    sent, r := client.AnalyzeFile(file, fetch);
  }

  /** `getEmailHistory(limit)`: never filters by classification. */
  method GetEmailHistory(client: APIClient, fetch: HttpRequest -> FetchOutcome<seq<EmailHistory>>,
                         limit: int := DefaultHistoryLimit)
    returns (sent: HttpRequest, r: Result<seq<EmailHistory>, Thrown>)
    ensures sent == HttpRequest(client.baseURL + "/history?limit=" + IntToString(limit), None, JsonHeaders, None)
    ensures r == Normalize(fetch(sent))
  {
    HistoryEndpoint(limit, Productive);
    sent, r := client.GetHistory(fetch, limit);
  }

  /** `getSystemStats()`. */
  method GetSystemStats(client: APIClient, fetch: HttpRequest -> FetchOutcome<StatsResponse>)
    returns (sent: HttpRequest, r: Result<StatsResponse, Thrown>)
    ensures sent == HttpRequest(client.baseURL + "/stats", None, JsonHeaders, None)
    ensures r == Normalize(fetch(sent))
  {
    sent, r := client.GetStats(fetch);
  }

  /** `clearEmailHistory()`: the acknowledgement is discarded. */
  method ClearEmailHistory(client: APIClient, fetch: HttpRequest -> FetchOutcome<ClearResponse>)
    returns (sent: HttpRequest, r: Result<(), Thrown>)
    ensures sent == HttpRequest(client.baseURL + "/history", Some(Delete), JsonHeaders, None)
    ensures r.Success? <==> fetch(sent).Ok?
    ensures r.Failure? ==> r.error == Normalize(fetch(sent)).error
  {
    var cleared;
    sent, cleared := client.ClearHistory(fetch);
    match cleared {
      case Success(_) => r := Success(());
      case Failure(e) => r := Failure(e);
    }
  }

  /** `checkAPIHealth()`: true exactly when the health request succeeds and
      reports "healthy"; every failure becomes false. */
  method CheckAPIHealth(client: APIClient, fetch: HttpRequest -> FetchOutcome<HealthResponse>)
    returns (healthy: bool)
    ensures var o := fetch(HttpRequest(client.baseURL + "/health", None, JsonHeaders, None));
      healthy <==> o.Ok? && o.body.status == "healthy"
  {
    var _, health := client.HealthCheck(fetch);
    match health {
      case Success(h) => healthy := h.status == "healthy";
      case Failure(_) => healthy := false;
    }
  }
}
