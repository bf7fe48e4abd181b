/**
  The transport wrapper of the Tradescan client (tradescan/utils.py): a
  `Request` object that remembers a normalised base URL and a timeout, builds
  the URL of every GET and POST from it, and turns a failed POST into a
  `TradescanApiException` carrying the server's error fields.

  The HTTP round trip itself is not modelled: each call returns the request
  it would send (`HttpCall`) and takes the server's reply (`Response`) as a
  parameter.
*/
module Tradescan {
  import opened Wrappers
  import opened JsonValues

  /** Default arguments of `Request.__init__`, used by its constructor below. */
  const DefaultApiUrl: string := "https://switcheo.org"
  const DefaultTimeout: int := 30

  // ---------------------------------------------------------------------------
  // URL normalisation: `api_url.rstrip('/')`
  // ---------------------------------------------------------------------------

  /** True when `s` does not end with a slash. */
  predicate NoTrailingSlash(s: string) {
    s == [] || s[|s| - 1] != '/'
  }

  /** True when every character of `s` is a slash. */
  predicate AllSlashes(s: string) {
    forall i :: 0 <= i < |s| ==> s[i] == '/'
  }

  /**
    Python's `s.rstrip('/')`: drops every trailing slash. The result is a
    prefix of `s`, does not end with a slash, and only slashes were removed;
    a string that does not end with a slash comes back unchanged.
  */
  function RStripSlash(s: string): (r: string)
    ensures |r| <= |s| && r == s[..|r|]
    ensures NoTrailingSlash(r)
    ensures AllSlashes(s[|r|..])
    ensures NoTrailingSlash(s) ==> r == s
    decreases |s|
  {
    if s != [] && s[|s| - 1] == '/' then
      var r := RStripSlash(s[..|s| - 1]);
      assert s[|r|..] == s[..|s| - 1][|r|..] + ['/'];
      r
    else
      s
  }

  /**
    The three properties of `RStripSlash` determine its result: any prefix of
    `s` without a trailing slash from which only slashes were cut is it.
  */
  lemma RStripSlashUnique(s: string, t: string)
    requires |t| <= |s| && t == s[..|t|]
    requires NoTrailingSlash(t)
    requires AllSlashes(s[|t|..])
    ensures t == RStripSlash(s)
  {
  }

  /** Normalisation is idempotent. */
  lemma RStripSlashIdempotent(s: string)
    ensures RStripSlash(RStripSlash(s)) == RStripSlash(s)
  {
  }

  /** Appending slashes to a base URL does not change its normalised form. */
  lemma {:induction false} RStripSlashAbsorbsSlashes(s: string, slashes: string)
    requires AllSlashes(slashes)
    ensures RStripSlash(s + slashes) == RStripSlash(s)
  {
    var r := RStripSlash(s);
    var u := s + slashes;
    assert u[..|r|] == r;
    assert u[|r|..] == s[|r|..] + slashes;
    RStripSlashUnique(u, r);
  }

  // ---------------------------------------------------------------------------
  // POST error bodies: `TradescanApiException`
  // ---------------------------------------------------------------------------

  /**
    The exception raised for a failed POST. Its message (`args[0]`) is the
    body's `error_message`; each field is `None` (`Null`) when the key is
    absent.
  */
  datatype TradescanApiException = TradescanApiException(errorCode: Json, message: Json, error: Json)

  /** Python's `body.get(key)`: the bound value, or `None` when absent. */
  function BodyGet(body: map<string, Json>, key: string): (v: Json)
    ensures key in body ==> v == body[key]
    ensures key !in body ==> v == Null
  {
    if key in body then body[key] else Null
  }

  /**
    Builds the exception from an error body: `error_code`, `error_message`
    and `error` each come from the key of that name, `None` when missing.
  */
  function ApiErrorOf(body: map<string, Json>): (e: TradescanApiException)
    ensures "error_code" in body ==> e.errorCode == body["error_code"]
    ensures "error_message" in body ==> e.message == body["error_message"]
    ensures "error" in body ==> e.error == body["error"]
    ensures "error_code" !in body ==> e.errorCode == Null
    ensures "error_message" !in body ==> e.message == Null
    ensures "error" !in body ==> e.error == Null
  {
    TradescanApiException(BodyGet(body, "error_code"), BodyGet(body, "error_message"), BodyGet(body, "error"))
  }

  /** Keys other than the three error keys never influence the exception. */
  lemma ApiErrorOfIgnoresOtherKeys(body: map<string, Json>, key: string, v: Json)
    requires key != "error_code" && key != "error_message" && key != "error"
    ensures ApiErrorOf(body[key := v]) == ApiErrorOf(body)
  {
  }

  /** Two bodies that agree on the three error keys give the same exception. */
  lemma ApiErrorOfDeterminedByErrorKeys(b1: map<string, Json>, b2: map<string, Json>)
    requires BodyGet(b1, "error_code") == BodyGet(b2, "error_code")
    requires BodyGet(b1, "error_message") == BodyGet(b2, "error_message")
    requires BodyGet(b1, "error") == BodyGet(b2, "error")
    ensures ApiErrorOf(b1) == ApiErrorOf(b2)
  {
  }

  // ---------------------------------------------------------------------------
  // Requests and replies
  // ---------------------------------------------------------------------------

  datatype Verb = GET | POST

  /**
    The request handed to the HTTP library. Python's `None` for `params`,
    `data` and `json` is `Null`; they are passed through unchanged.
  */
  datatype HttpCall = HttpCall(verb: Verb, url: string, params: Json, data: Json, jsonData: Json, timeout: int)

  /** The server's reply, already parsed as JSON. */
  datatype Response = Response(status: int, body: Json)

  /** `raise_for_status()` of the HTTP library raises for 4xx and 5xx codes. */
  predicate IsErrorStatus(status: int) {
    400 <= status < 600
  }

  /** The generic HTTP error that a failed GET propagates. */
  datatype HttpError = HttpError(status: int)

  /**
    What a failed POST raises: the API exception, or, when the error body is
    JSON but not an object, the error of calling `.get` on it.
  */
  datatype PostFailure = ApiFailure(exception: TradescanApiException) | ErrorBodyNotObject(status: int)

  class Request {
    var url: string
    var timeout: int

    /** The stored base URL never ends with a slash. */
    ghost predicate Valid()
      reads this
    {
      NoTrailingSlash(url)
    }

    /** `Request.__init__`: strips trailing slashes, keeps the timeout. */
    constructor (apiUrl: string := DefaultApiUrl, timeout: int := DefaultTimeout)
      ensures Valid()
      ensures url == RStripSlash(apiUrl)
      ensures this.timeout == timeout
    {
      url := RStripSlash(apiUrl);
      this.timeout := timeout;
    }

    /**
      `Request.get`: a GET to `url + path` with the configured timeout; a
      4xx/5xx reply raises the generic HTTP error, any other reply yields
      its parsed body.
    */
    method Get(path: string, params: Json, response: Response) returns (call: HttpCall, r: Result<Json, HttpError>)
      ensures call.verb == GET && call.timeout == timeout
      ensures call.url == url + path
      ensures call.params == params && call.data == Null && call.jsonData == Null
      ensures r.Failure? <==> IsErrorStatus(response.status)
      ensures r.Failure? ==> r.error == HttpError(response.status)
      ensures r.Success? ==> r.value == response.body
    {
      call := HttpCall(GET, url + path, params, Null, Null, timeout);
      if IsErrorStatus(response.status) {
        r := Failure(HttpError(response.status));
      } else {
        r := Success(response.body);
      }
    }

    /**
      `Request.post`: a POST to `url + path` with the configured timeout; a
      4xx/5xx reply raises `TradescanApiException` built from the error
      body, any other reply yields its parsed body.
    */
    method Post(path: string, data: Json, jsonData: Json, params: Json, response: Response)
      returns (call: HttpCall, r: Result<Json, PostFailure>)
      ensures call.verb == POST && call.timeout == timeout
      ensures call.url == url + path
      ensures call.params == params && call.data == data && call.jsonData == jsonData
      ensures r.Failure? <==> IsErrorStatus(response.status)
      ensures r.Failure? && response.body.Object? ==> r.error == ApiFailure(ApiErrorOf(response.body.fields))
      ensures r.Failure? && !response.body.Object? ==> r.error == ErrorBodyNotObject(response.status)
      ensures r.Success? ==> r.value == response.body
    {
      call := HttpCall(POST, url + path, params, data, jsonData, timeout);
      if IsErrorStatus(response.status) {
        match response.body
        case Object(fields) =>
          r := Failure(ApiFailure(ApiErrorOf(fields)));
        case _ =>
          r := Failure(ErrorBodyNotObject(response.status));
      } else {
        r := Success(response.body);
      }
    }
  }

  /**
    The URL a request targets when built from `apiUrl` and a path that starts
    with a slash: the base part is a prefix of `apiUrl` that does not end with
    a slash, so every slash at the join comes from the path itself. A path
    with a single leading slash therefore joins with exactly one slash; a
    path starting with `//` keeps both.
  */
  lemma TargetUrlJoin(apiUrl: string, path: string)
    requires path != [] && path[0] == '/'
    ensures var base := RStripSlash(apiUrl);
      var u := base + path;
      && u[..|base|] == apiUrl[..|base|]
      && u[|base|..] == path
      && u[|base|] == '/'
      && (|base| > 0 ==> u[|base| - 1] != '/')
      && (|path| >= 2 && path[1] != '/' ==> u[|base| + 1] != '/')
  {
  }

  /** Trailing slashes on the configured URL never change a target URL. */
  lemma TargetUrlIgnoresTrailingSlashes(apiUrl: string, slashes: string, path: string)
    requires AllSlashes(slashes)
    ensures RStripSlash(apiUrl + slashes) + path == RStripSlash(apiUrl) + path
  {
    RStripSlashAbsorbsSlashes(apiUrl, slashes);
  }

  /** The example error body of a 400 reply and the exception it gives. */
  lemma ApiErrorExample()
    ensures ApiErrorOf(map["error_code" := Int(7), "error_message" := Str("bad request"), "error" := Str("detail")])
         == TradescanApiException(Int(7), Str("bad request"), Str("detail"))
    ensures ApiErrorOf(map[]) == TradescanApiException(Null, Null, Null)
  {
  }
}
