/**
  The request dispatcher: the client's configuration, the request it hands to
  the HTTP session, and the classification of a response's status code into
  the binding's error taxonomy. The session itself is not modelled: the
  response it returns is an input.
*/
module Dispatch {
  import opened Wrappers
  import opened PyValue

  /** A response as the session returns it: status, decoded JSON body, raw body. */
  datatype Response = Response(status: int, body: Value, content: seq<bv8>)

  /** APIError and its three subclasses. */
  datatype ApiErrorKind = PlainAPIError | MissingParameter | InsufficientAccess | ServerError

  /** The exceptions the binding raises or lets through. */
  datatype Error =
    | APIError(kind: ApiErrorKind, response: Response)  // the service refused the request
    | UsageError(message: string)                       // bare Exception: caller broke the identity rule
    | ValueError(message: string)                       // unknown enum code, bad int literal, bad add_file argument
    | KeyError(key: string)                             // a field missing from the decoded body
    | TypeError                                         // subscripting or iterating the wrong kind of value
    | AttributeError                                    // `.items()` on something that is not a dict

  datatype Verb = GET | POST

  /** The keyword arguments passed to the session: params, json, data, headers. */
  datatype Kwargs = Kwargs(
    params: Option<map<string, Value>>,
    json: Option<map<string, Value>>,
    data: Option<seq<bv8>>,
    headers: Option<map<string, string>>)

  datatype Request = Request(verb: Verb, url: string, kwargs: Kwargs)

  /** The client's configuration, fixed at construction. */
  datatype Client = Client(accessKey: Option<string>, url: string)

  const ACCESS_KEY_HEADER := "Hydrus-Client-API-Access-Key"

  /** `if self._access_key:` — None and the empty string both mean "no key". */
  predicate HasAccessKey(c: Client) {
    c.accessKey.Some? && c.accessKey.value != ""
  }

  /** The headers of a request, with "no headers argument" read as no headers. */
  function HeadersOf(kwargs: Kwargs): map<string, string> {
    if kwargs.headers.Some? then kwargs.headers.value else map[]
  }

  /**
    The request `_call_endpoint` hands to the session: the endpoint appended to
    the base URL, the caller's arguments, and the access key merged into the
    caller's headers when one is configured.
  */
  function Outgoing(c: Client, verb: Verb, endpoint: string, kwargs: Kwargs): (r: Request)
    ensures r.verb == verb && r.url == c.url + endpoint
    ensures r.kwargs.params == kwargs.params && r.kwargs.json == kwargs.json && r.kwargs.data == kwargs.data
    ensures ACCESS_KEY_HEADER in HeadersOf(r.kwargs) <==> HasAccessKey(c) || ACCESS_KEY_HEADER in HeadersOf(kwargs)
    ensures HasAccessKey(c) ==> HeadersOf(r.kwargs)[ACCESS_KEY_HEADER] == c.accessKey.value
    ensures forall h :: h != ACCESS_KEY_HEADER ==>
      (h in HeadersOf(r.kwargs) <==> h in HeadersOf(kwargs)) &&
      (h in HeadersOf(kwargs) ==> HeadersOf(r.kwargs)[h] == HeadersOf(kwargs)[h])
    ensures !HasAccessKey(c) ==> r.kwargs == kwargs
  {
    var headers := if HasAccessKey(c) then Some(HeadersOf(kwargs)[ACCESS_KEY_HEADER := c.accessKey.value]) else kwargs.headers;
    Request(verb, c.url + endpoint, kwargs.(headers := headers))
  }

  /** `raise_for_status` of the HTTP library raises exactly for 4xx and 5xx codes. */
  predicate RaisesForStatus(status: int) {
    400 <= status < 600
  }

  /** What `_call_endpoint` does with the session's response. */
  function Classify(response: Response): (r: Result<Response, Error>)
    ensures r.Ok? <==> !RaisesForStatus(response.status)
    ensures r.Ok? ==> r.value == response
    ensures r.Err? ==> r.error.APIError? && r.error.response == response
    ensures r.Err? ==> (r.error.kind == MissingParameter <==> response.status == 400)
    ensures r.Err? ==> (r.error.kind == InsufficientAccess <==> response.status == 401 || response.status == 403)
    ensures r.Err? ==> (r.error.kind == ServerError <==> response.status == 500)
  {
    if !RaisesForStatus(response.status) then Ok(response)
    else if response.status == 400 then Err(APIError(MissingParameter, response))
    else if response.status in {401, 403} then Err(APIError(InsufficientAccess, response))
    else if response.status == 500 then Err(APIError(ServerError, response))
    else Err(APIError(PlainAPIError, response))
  }

  /**
    `_call_endpoint`: attach the access key, send, classify the status.
    `response` is what the session returns for `sent`.
  */
  method CallEndpoint(c: Client, verb: Verb, endpoint: string, kwargs: Kwargs, response: Response)
    returns (sent: Request, r: Result<Response, Error>)
    ensures sent == Outgoing(c, verb, endpoint, kwargs)
    ensures r == Classify(response)
  {
    var args := kwargs;
    if HasAccessKey(c) {
      var headers := if args.headers.Some? then args.headers.value else map[];
      headers := headers[ACCESS_KEY_HEADER := c.accessKey.value];
      args := args.(headers := Some(headers));
    }
    sent := Request(verb, c.url + endpoint, args);
    var status := response.status;
    if 400 <= status < 600 {
      if status == 400 {
        r := Err(APIError(MissingParameter, response));
      } else if status == 401 || status == 403 {
        r := Err(APIError(InsufficientAccess, response));
      } else if status == 500 {
        r := Err(APIError(ServerError, response));
      } else {
        r := Err(APIError(PlainAPIError, response));
      }
    } else {
      r := Ok(response);
    }
  }

  /** `url.rstrip('/')`. */
  function RStripSlash(s: string): (r: string)
    ensures r <= s
    ensures r == [] || r[|r| - 1] != '/'
    ensures forall i :: |r| <= i < |s| ==> s[i] == '/'
  {
    if s != [] && s[|s| - 1] == '/' then RStripSlash(s[..|s| - 1]) else s
  }
}
