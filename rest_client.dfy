/**
 * `RESTClient`: sends one JSON command and classifies what comes back.
 *
 * `sendCommand` encodes the optional body, and an encoding failure ends the
 * call before any request is made. Otherwise the transport's reply is
 * classified by a chain of guards, each ending the call: transport error,
 * response that is not HTTP, status outside the success class of section
 * 15.3 of RFC 9110 (200 to 299), missing data, and finally the decoding of
 * the data. The callback that receives the result is the function's result
 * here: every path yields exactly one.
 */
module Rest {
  import opened Wrappers
  import opened Bytes
  import opened Decimal
  import opened Http

  /** `RESTClientError`; an `Error` is kept as its `localizedDescription`. */
  datatype RESTClientError =
    | InvalidURL
    | RequestFailed(error: string)
    | InvalidResponse
    | ServerError(statusCode: int)
    | DecodingError(error: string)

  const ServerErrorPrefix: string := "Server returned an error status code: "

  /** `errorDescription`. */
  function ErrorDescription(e: RESTClientError): string
  {
    match e
    case InvalidURL => "The provided URL was invalid."
    case RequestFailed(error) => "REST request failed: " + error
    case InvalidResponse => "Invalid response from the server."
    case ServerError(statusCode) => ServerErrorPrefix + IntToString(statusCode)
    case DecodingError(error) => "Failed to decode server response: " + error
  }

  /** The description of a server error carries its status code: the text
      after the fixed prefix reads back as that code. */
  lemma ServerErrorDescriptionCarriesCode(statusCode: int)
    ensures var d := ErrorDescription(ServerError(statusCode));
      && |d| > |ServerErrorPrefix| && d[..|ServerErrorPrefix|] == ServerErrorPrefix
      && ParseInt(d[|ServerErrorPrefix|..]) == Some(statusCode)
  {
    var d := ErrorDescription(ServerError(statusCode));
    assert d[..|ServerErrorPrefix|] == ServerErrorPrefix && d[|ServerErrorPrefix|..] == IntToString(statusCode);
    ParseIntOfIntToString(statusCode);
  }

  /** The request `sendCommand` builds. */
  datatype Request = Request(url: Url, httpMethod: string, contentType: string, httpBody: Option<seq<byte>>)

  /** What the transport hands the completion handler. */
  datatype Reply = Reply(data: Option<seq<byte>>, response: ResponseKind, error: Option<string>)

  /** The first half of `sendCommand`: the request, or the failure when the
      body (`JSONEncoder().encode(body)`, given as its outcome) cannot be
      encoded. A nil body sends no bytes. */
  function PrepareRequest(url: Url, httpMethod: string, encodedBody: Option<Result<seq<byte>, string>>)
    : (r: Result<Request, RESTClientError>)
    ensures r.Failure? <==> encodedBody.Some? && encodedBody.value.Failure?
    ensures r.Failure? ==> r.error == DecodingError(encodedBody.value.error)
    ensures r.Success? ==> r.value.url == url && r.value.httpMethod == httpMethod
                           && r.value.contentType == "application/json"
                           && r.value.httpBody == (if encodedBody.None? then None else Some(encodedBody.value.value))
  {
    match encodedBody
    case None => Success(Request(url, httpMethod, "application/json", None))
    case Some(Failure(error)) => Failure(DecodingError(error))
    case Some(Success(bytes)) => Success(Request(url, httpMethod, "application/json", Some(bytes)))
  }

  /** The completion handler of `sendCommand`: the guards in source order,
      with `decode` standing for `JSONDecoder().decode(responseType, from:)`. */
  function Classify<U>(reply: Reply, decode: seq<byte> -> Result<U, string>): Result<U, RESTClientError>
  {
    if reply.error.Some? then Failure(RequestFailed(reply.error.value))
    else if !reply.response.Http? then Failure(InvalidResponse)
    else if !IsSuccessStatus(reply.response.statusCode) then Failure(ServerError(reply.response.statusCode))
    else if reply.data.None? then Failure(InvalidResponse)
    else match decode(reply.data.value)
      case Success(v) => Success(v)
      case Failure(error) => Failure(DecodingError(error))
  }

  /** `sendCommand(url:method:body:responseType:completion:)`, with
      `exchange` standing for the transport. */
  function SendCommand<U>(url: Url, httpMethod: string, encodedBody: Option<Result<seq<byte>, string>>,
                          exchange: Request -> Reply, decode: seq<byte> -> Result<U, string>)
    : Result<U, RESTClientError>
  {
    match PrepareRequest(url, httpMethod, encodedBody)
    case Failure(e) => Failure(e)
    case Success(request) => Classify(exchange(request), decode)
  }

  /** A body that fails to encode gives a decoding error and makes no
      request: the outcome does not depend on the transport. */
  lemma EncodingFailureMakesNoRequest<U>(url: Url, httpMethod: string, error: string,
                                         exchange1: Request -> Reply, exchange2: Request -> Reply,
                                         decode: seq<byte> -> Result<U, string>)
    ensures SendCommand(url, httpMethod, Some(Failure(error)), exchange1, decode) == Failure(DecodingError(error))
    ensures SendCommand(url, httpMethod, Some(Failure(error)), exchange1, decode)
         == SendCommand(url, httpMethod, Some(Failure(error)), exchange2, decode)
  {
  }

  /** A transport error wins over whatever response and data came with it. */
  lemma TransportErrorWins<U>(data: Option<seq<byte>>, response: ResponseKind, error: string,
                              decode: seq<byte> -> Result<U, string>)
    ensures Classify(Reply(data, response, Some(error)), decode) == Failure(RequestFailed(error))
  {
  }

  /** Without a transport error, a response that is not an HTTP response is
      an invalid response. */
  lemma NonHttpIsInvalid<U>(data: Option<seq<byte>>, response: ResponseKind, decode: seq<byte> -> Result<U, string>)
    requires !response.Http?
    ensures Classify(Reply(data, response, None), decode) == Failure(InvalidResponse)
  {
  }

  /** A status outside 200 to 299 is a server error carrying that code
      (404 gives `serverError(404)`), whatever data came with it. */
  lemma StatusOutsideSuccessClass<U>(data: Option<seq<byte>>, statusCode: int, decode: seq<byte> -> Result<U, string>)
    requires !IsSuccessStatus(statusCode)
    ensures Classify(Reply(data, Http(statusCode), None), decode) == Failure(ServerError(statusCode))
  {
  }

  /** A 2xx response without data is an invalid response; with data, the
      decoder decides between a decoding error and success. */
  lemma SuccessClassOutcomes<U>(data: Option<seq<byte>>, statusCode: int, decode: seq<byte> -> Result<U, string>)
    requires IsSuccessStatus(statusCode)
    ensures data.None? ==> Classify(Reply(data, Http(statusCode), None), decode) == Failure(InvalidResponse)
    ensures data.Some? && decode(data.value).Failure? ==>
      Classify(Reply(data, Http(statusCode), None), decode) == Failure(DecodingError(decode(data.value).error))
    ensures data.Some? && decode(data.value).Success? ==>
      Classify(Reply(data, Http(statusCode), None), decode) == Success(decode(data.value).value)
  {
  }

  /** Success exactly when there is no transport error, the response is HTTP
      with a 2xx status, data came, and it decodes; the value is the decoded
      one. */
  lemma SuccessExactly<U>(reply: Reply, decode: seq<byte> -> Result<U, string>, v: U)
    ensures Classify(reply, decode) == Success(v)
        <==> && reply.error.None? && reply.response.Http? && IsSuccessStatus(reply.response.statusCode)
             && reply.data.Some? && decode(reply.data.value) == Success(v)
  {
  }

  /** No reply classifies as an invalid URL: that error comes only from
      `sendSimpleCommand`'s URL guard. */
  lemma ClassifyNeverInvalidURL<U>(reply: Reply, decode: seq<byte> -> Result<U, string>)
    ensures Classify(reply, decode) != Failure(InvalidURL)
  {
  }

  const CommandUrlText: string := "http://localhost:8080/command"

  /** The body of `sendSimpleCommand`. */
  function CommandBody(command: string, value: string): (body: map<string, string>)
    ensures body.Keys == {"command", "value"}
    ensures body["command"] == command && body["value"] == value
  {
    map["command" := command, "value" := value]
  }

  /** What `sendSimpleCommand` relies on: `URL(string:)`, `JSONEncoder` on
      the dictionary, the transport, and `JSONDecoder` for a `String`. */
  datatype CommandServices = CommandServices(
    parseUrl: string -> Option<Url>,
    encode: map<string, string> -> Result<seq<byte>, string>,
    exchange: Request -> Reply,
    decode: seq<byte> -> Result<string, string>)

  /** `sendSimpleCommand(command:value:completion:)`; the main-queue hop
      passes the result on unchanged. */
  function SendSimpleCommand(command: string, value: string, services: CommandServices)
    : Result<string, RESTClientError>
  {
    match services.parseUrl(CommandUrlText)
    case None => Failure(InvalidURL)
    case Some(url) =>
      SendCommand(url, "POST", Some(services.encode(CommandBody(command, value))), services.exchange, services.decode)
  }

  /** The simple command POSTs the JSON encoding of a body with exactly the
      keys "command" and "value" to the fixed command URL, and its outcome is
      the classification of the reply to that request. */
  lemma SimpleCommandPosts(command: string, value: string, services: CommandServices)
    requires services.parseUrl(CommandUrlText).Some? && services.encode(CommandBody(command, value)).Success?
    ensures var request := Request(services.parseUrl(CommandUrlText).value, "POST", "application/json",
                                   Some(services.encode(CommandBody(command, value)).value));
      SendSimpleCommand(command, value, services) == Classify(services.exchange(request), services.decode)
  {
  }

  /** Without a usable URL the simple command fails with `invalidURL` and
      sends nothing. */
  lemma SimpleCommandInvalidURL(command: string, value: string, services: CommandServices)
    requires services.parseUrl(CommandUrlText).None?
    ensures SendSimpleCommand(command, value, services) == Failure(InvalidURL)
  {
  }
}
