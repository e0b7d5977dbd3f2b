/**
 * The request dispatcher: `SendPostRequestAsync` checks its inputs, posts
 * one row as JSON with a bearer token, and turns whatever happens into an
 * `HttpRequestResult`; it never throws.
 *
 * The HTTP client is not modelled. What it does with a request is the
 * parameter `send`: the response it obtained, or the exception that the
 * request construction, the send or the reading of the body threw.
 */
module HttpService {
  import opened Wrappers
  import opened Text

  /** The record every dispatch yields; `statusCode` is 0 when no response was obtained. */
  datatype HttpRequestResult = HttpRequestResult(isSuccess: bool, message: string, statusCode: int)

  /** A response: its numeric status, its reason phrase (a `null` one renders as "") and its body text. */
  datatype HttpResponse = HttpResponse(statusCode: int, reasonPhrase: string, content: string)

  /** What the client did with the request. */
  datatype SendOutcome =
    | Responded(response: HttpResponse)
    | RequestFailed(cause: string)    // an HttpRequestException
    | TimedOut                        // a TaskCanceledException caused by a TimeoutException
    | Faulted(cause: string)          // any other exception, including a cancellation that is not a timeout

  /** A POST with an `Authorization` header and a JSON object body (not serialised here). */
  datatype PostRequest = PostRequest(
    url: string,
    authScheme: string,
    authParameter: string,
    body: map<string, string>,
    mediaType: string,
    charset: string)

  type Transport = PostRequest -> SendOutcome

  const UrlEmptyMessage := "URL cannot be empty"
  const TokenEmptyMessage := "Bearer token cannot be empty"
  const SuccessMessage := "Success"
  const TimeoutMessage := "Request timeout"

  /** `HttpResponseMessage.IsSuccessStatusCode`. */
  predicate IsSuccessStatusCode(statusCode: int) {
    200 <= statusCode <= 299
  }

  /** The request the service builds, or None when a guard returns before any request exists. */
  function OutboundRequest(url: string, bearerToken: string, textData: string): (request: Option<PostRequest>)
    ensures request.Some? <==> !IsBlank(url) && !IsBlank(bearerToken)
    ensures request.Some? ==>
              request.value.url == url
              && request.value.authScheme == "Bearer" && request.value.authParameter == bearerToken
              && request.value.body.Keys == {"data"} && request.value.body["data"] == textData
              && request.value.mediaType == "application/json" && request.value.charset == "utf-8"
  {
    if IsBlank(url) || IsBlank(bearerToken) then None
    else Some(PostRequest(url, "Bearer", bearerToken, map["data" := textData], "application/json", "utf-8"))
  }

  /** The result for what the client did with a request that was sent. */
  function Classify(outcome: SendOutcome): (r: HttpRequestResult)
    ensures r.isSuccess <==> outcome.Responded? && IsSuccessStatusCode(outcome.response.statusCode)
    ensures r.statusCode == if outcome.Responded? then outcome.response.statusCode else 0
    ensures r.message == SuccessMessage <==> r.isSuccess
    ensures outcome.Responded? && !r.isSuccess ==>
              r.message == "Error: " + outcome.response.reasonPhrase + " - " + outcome.response.content
    ensures outcome.RequestFailed? ==> r.message == "HTTP Error: " + outcome.cause
    ensures outcome.TimedOut? ==> r.message == TimeoutMessage
    ensures outcome.Faulted? ==> r.message == "Unexpected error: " + outcome.cause
  {
    match outcome
    case Responded(response) =>
      var ok := IsSuccessStatusCode(response.statusCode);
      var message := if ok then SuccessMessage
                     else "Error: " + response.reasonPhrase + " - " + response.content;
      assert !ok ==> message[0] != SuccessMessage[0];
      HttpRequestResult(ok, message, response.statusCode)
    case RequestFailed(cause) =>
      var message := "HTTP Error: " + cause;
      assert message[0] != SuccessMessage[0];
      HttpRequestResult(false, message, 0)
    case TimedOut =>
      HttpRequestResult(false, TimeoutMessage, 0)
    case Faulted(cause) =>
      var message := "Unexpected error: " + cause;
      assert message[0] != SuccessMessage[0];
      HttpRequestResult(false, message, 0)
  }

  /** `SendPostRequestAsync(url, bearerToken, textData)` over the transport `send`. */
  function SendPostRequest(url: string, bearerToken: string, textData: string, send: Transport): (r: HttpRequestResult)
    ensures IsBlank(url) ==> r == HttpRequestResult(false, UrlEmptyMessage, 0)
    ensures !IsBlank(url) && IsBlank(bearerToken) ==> r == HttpRequestResult(false, TokenEmptyMessage, 0)
    ensures r.isSuccess ==>
              OutboundRequest(url, bearerToken, textData).Some?
              && var answer := send(OutboundRequest(url, bearerToken, textData).value);
                 answer.Responded? && IsSuccessStatusCode(answer.response.statusCode)
                 && r.statusCode == answer.response.statusCode
    ensures r.message == SuccessMessage <==> r.isSuccess
  {
    if IsBlank(url) then
      HttpRequestResult(false, UrlEmptyMessage, 0)
    else if IsBlank(bearerToken) then
      HttpRequestResult(false, TokenEmptyMessage, 0)
    else
      Classify(send(OutboundRequest(url, bearerToken, textData).value))
  }

  /** When a guard fails no request is sent: the result is the same whatever the client would have done. */
  lemma GuardsSendNothing(url: string, bearerToken: string, textData: string, send1: Transport, send2: Transport)
    requires IsBlank(url) || IsBlank(bearerToken)
    ensures SendPostRequest(url, bearerToken, textData, send1) == SendPostRequest(url, bearerToken, textData, send2)
    ensures SendPostRequest(url, bearerToken, textData, send1).statusCode == 0
    ensures !SendPostRequest(url, bearerToken, textData, send1).isSuccess
  {
  }

  /** With both inputs present, the result is the classification of the client's answer to the built request. */
  lemma SentRequestIsClassified(url: string, bearerToken: string, textData: string, send: Transport)
    requires !IsBlank(url) && !IsBlank(bearerToken)
    ensures OutboundRequest(url, bearerToken, textData).Some?
    ensures SendPostRequest(url, bearerToken, textData, send)
            == Classify(send(OutboundRequest(url, bearerToken, textData).value))
  {
  }

  /** A non-zero status code is only ever reported from a response the client obtained. */
  lemma NonZeroStatusMeansResponse(url: string, bearerToken: string, textData: string, send: Transport)
    requires SendPostRequest(url, bearerToken, textData, send).statusCode != 0
    ensures OutboundRequest(url, bearerToken, textData).Some?
    ensures send(OutboundRequest(url, bearerToken, textData).value).Responded?
  {
  }
}
