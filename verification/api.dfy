/** The REST client of the converter front end: the shapes the server sends back and the
    normalisation of a failed request into the one message the user is shown.

    The transport itself (base URL, JSON headers, the 15-second timeout) is not modelled: a call
    is represented only by its outcome, a `Reply`, which is either the response body or the
    abstract shape of the failure axios reported. */
module Api {

  datatype Option<+T> = None | Some(value: T)

  /** What a call yields to its caller: the response data, or the message of the `Error` it threw. */
  datatype Result<+T> = Ok(value: T) | Err(message: string)

  datatype Status = Success | Failure

  /** One stored conversion. The server's `ConversionResult` and `HistoryItem` have the same shape. */
  datatype ConversionResult = ConversionResult(
    id: string,
    originalCode: string,
    convertedCode: string,
    timestamp: string,
    status: Status,
    errorMessage: Option<string>)

  type HistoryItem = ConversionResult

  /** Query parameters of `GET /history`; an absent optional parameter is `None` (JavaScript `undefined`). */
  datatype HistoryParams = HistoryParams(
    page: int,
    limit: int,
    search: Option<string>,
    dateFrom: Option<string>,
    dateTo: Option<string>)

  /** One page of history as the server returns it; the fields are echoed, not computed here. */
  datatype HistoryResponse = HistoryResponse(
    items: seq<HistoryItem>,
    total: int,
    page: int,
    limit: int,
    totalPages: int)

  /** The parts of an axios error that the client looks at: whether a response arrived, the
      `message` field of its body, and whether a request was sent at all. */
  datatype RequestError = RequestError(
    hasResponse: bool,
    responseMessage: Option<string>,
    hasRequest: bool)

  /** The outcome of one HTTP call, supplied from outside the model. */
  datatype Reply<+T> = Delivered(data: T) | Failed(error: RequestError)

  const ServerErrorDefault: string := "An error occurred while processing your request"
  const NoResponseMessage: string := "No response from server. Please check your connection"
  const SetupFailureMessage: string := "Failed to make request. Please try again later"

  /** JavaScript truthiness of an optional string: present and not empty. */
  predicate Truthy(s: Option<string>) {
    s.Some? && s.value != ""
  }

  /** The message of the `Error` that `handleApiError` throws for a failed call. */
  function HandleApiError(e: RequestError): (msg: string)
    ensures msg != ""
    ensures msg == ServerErrorDefault || msg == NoResponseMessage || msg == SetupFailureMessage
            || (e.hasResponse && Truthy(e.responseMessage) && msg == e.responseMessage.value)
  {
    if e.hasResponse then
      if Truthy(e.responseMessage) then e.responseMessage.value else ServerErrorDefault
    else if e.hasRequest then
      NoResponseMessage
    else
      SetupFailureMessage
  }

  /** A server that answered with a non-empty message has that message shown verbatim. */
  lemma ServerMessageShown(e: RequestError)
    requires e.hasResponse && Truthy(e.responseMessage)
    ensures HandleApiError(e) == e.responseMessage.value
  {
  }

  /** A response whose body carries no message, or an empty one, falls back to the fixed default. */
  lemma ServerMessageDefaulted(e: RequestError)
    requires e.hasResponse && !Truthy(e.responseMessage)
    ensures HandleApiError(e) == ServerErrorDefault
  {
  }

  /** Without a response, the message depends only on whether a request went out. */
  lemma ConnectivityMessages(e: RequestError)
    requires !e.hasResponse
    ensures HandleApiError(e) == (if e.hasRequest then NoResponseMessage else SetupFailureMessage)
    ensures forall m: Option<string> :: HandleApiError(e.(responseMessage := m)) == HandleApiError(e)
  {
  }

  /** Precedence: once a response arrived, whether a request was recorded is irrelevant. */
  lemma ResponseTakesPrecedence(e: RequestError, hasRequest: bool)
    requires e.hasResponse
    ensures HandleApiError(e.(hasRequest := hasRequest)) == HandleApiError(e)
  {
  }

  /** `convertCode`, `fetchHistory` and `fetchConversionById`: the response data on success, and
      otherwise exactly the normalised message (which the thunks pass on as their rejection value). */
  function Settle<T>(reply: Reply<T>): (r: Result<T>)
    ensures r.Ok? <==> reply.Delivered?
    ensures r.Ok? ==> r.value == reply.data
    ensures r.Err? ==> r.message == HandleApiError(reply.error) && r.message != ""
  {
    match reply
    case Delivered(data) => Ok(data)
    case Failed(e) => Err(HandleApiError(e))
  }
}
