/** The API error hierarchy and the normalisation of transport errors (lib/api/errors.ts). */
module Errors {
  import opened Wrappers

  /** One kind per error class: `ApiError` itself is the generic kind. */
  datatype ErrorKind = Generic | Connection | Validation | Server | Timeout | NotFound

  /** The body of an error response (`error.response.data`); only the two fields that the
      normalisation reads are modelled, as strings. */
  datatype ResponseData = ResponseData(detail: Option<string>, error: Option<string>)

  datatype ApiError = ApiError(
    kind: ErrorKind,
    message: string,
    statusCode: Option<int>,
    details: Option<ResponseData>)

  /** The parts of an axios error that `parseApiError` inspects. */
  datatype ErrorResponse = ErrorResponse(status: int, data: Option<ResponseData>)
  datatype TransportError = TransportError(code: Option<string>, message: string, response: Option<ErrorResponse>)

  /** `new ApiConnectionError(message?)`: status 0. An omitted message takes the default. */
  function ConnectionError(message: Option<string>): (e: ApiError)
    ensures e.kind == Connection && e.statusCode == Some(0) && e.details == None
    ensures e.message == if message.Some? then message.value else "Failed to connect to the server"
  {
    ApiError(Connection, if message.Some? then message.value else "Failed to connect to the server", Some(0), None)
  }

  /** `new ApiValidationError(message, details)`: status 400, keeping the details. */
  function ValidationError(message: string, details: Option<ResponseData>): (e: ApiError)
    ensures e.kind == Validation && e.statusCode == Some(400) && e.details == details && e.message == message
  {
    ApiError(Validation, message, Some(400), details)
  }

  /** `new ApiServerError(message?, statusCode?)`: status 500 unless another is given. */
  function ServerError(message: Option<string>, statusCode: Option<int>): (e: ApiError)
    ensures e.kind == Server && e.details == None
    ensures e.statusCode == Some(if statusCode.Some? then statusCode.value else 500)
    ensures e.message == if message.Some? then message.value else "Internal server error"
  {
    ApiError(Server, if message.Some? then message.value else "Internal server error",
             Some(if statusCode.Some? then statusCode.value else 500), None)
  }

  /** `new ApiTimeoutError(message?)`: status 408. */
  function TimeoutError(message: Option<string>): (e: ApiError)
    ensures e.kind == Timeout && e.statusCode == Some(408) && e.details == None
    ensures e.message == if message.Some? then message.value else "Request timeout"
  {
    ApiError(Timeout, if message.Some? then message.value else "Request timeout", Some(408), None)
  }

  /** `new ApiNotFoundError(message?)`: status 404. */
  function NotFoundError(message: Option<string>): (e: ApiError)
    ensures e.kind == NotFound && e.statusCode == Some(404) && e.details == None
    ensures e.message == if message.Some? then message.value else "Resource not found"
  {
    ApiError(NotFound, if message.Some? then message.value else "Resource not found", Some(404), None)
  }

  predicate IsConnectionCode(code: Option<string>) {
    code == Some("ECONNREFUSED") || code == Some("ERR_NETWORK")
  }

  predicate IsTimeoutCode(code: Option<string>) {
    code == Some("ECONNABORTED") || code == Some("ETIMEDOUT")
  }

  predicate IsServerStatus(status: int) {
    status == 500 || status == 502 || status == 503
  }

  /** The message of an error response: `data?.detail || data?.error || error.message`, where
      an empty string counts as missing. */
  function ResponseMessage(data: Option<ResponseData>, fallback: string): (m: string)
    ensures data.Some? && data.value.detail.Some? && data.value.detail.value != "" ==> m == data.value.detail.value
    ensures (data.None? || data.value.detail.None? || data.value.detail.value == "") ==>
              m == if data.Some? && data.value.error.Some? && data.value.error.value != ""
                   then data.value.error.value else fallback
  {
    match data
    case None => fallback
    case Some(d) =>
      if d.detail.Some? && d.detail.value != "" then d.detail.value
      else if d.error.Some? && d.error.value != "" then d.error.value
      else fallback
  }

  /** `parseApiError`: transport codes first, then the response status, then a generic error. */
  function ParseApiError(e: TransportError): (r: ApiError)
    ensures IsConnectionCode(e.code) ==> r.kind == Connection && r.statusCode == Some(0)
    ensures !IsConnectionCode(e.code) && IsTimeoutCode(e.code) ==> r.kind == Timeout && r.statusCode == Some(408)
    ensures !IsConnectionCode(e.code) && !IsTimeoutCode(e.code) && e.response.Some? ==>
              r.statusCode == Some(e.response.value.status)
              && r.message == ResponseMessage(e.response.value.data, e.message)
    ensures !IsConnectionCode(e.code) && !IsTimeoutCode(e.code) && e.response.None? ==>
              r.kind == Generic && r.statusCode == None && r.details == None
              && r.message == if e.message != "" then e.message else "An unexpected error occurred"
  {
    if IsConnectionCode(e.code) then
      ConnectionError(Some("Cannot connect to server. Please check if the server is running."))
    else if IsTimeoutCode(e.code) then
      TimeoutError(Some("Request took too long. Please try again."))
    else if e.response.Some? then
      var status := e.response.value.status;
      var message := ResponseMessage(e.response.value.data, e.message);
      var details := e.response.value.data;
      if status == 400 then ValidationError(message, details)
      else if status == 404 then NotFoundError(Some(message))
      else if status == 408 then TimeoutError(Some(message))
      else if IsServerStatus(status) then ServerError(Some(message), Some(status))
      else ApiError(Generic, message, Some(status), details)
    else
      ApiError(Generic, if e.message != "" then e.message else "An unexpected error occurred", None, None)
  }

  /** The kind of error an HTTP status becomes when no transport code decides first: an
      independent statement of the status switch. */
  function KindOfStatus(status: int): ErrorKind {
    match status
    case 400 => Validation
    case 404 => NotFound
    case 408 => Timeout
    case 500 => Server
    case 502 => Server
    case 503 => Server
    case _ => Generic
  }

  /** The normalisation is total and ordered: the kind is decided by the code when it is a
      known one, otherwise by the response status, otherwise it is generic. */
  lemma ParseApiErrorKind(e: TransportError)
    ensures ParseApiError(e).kind ==
      if IsConnectionCode(e.code) then Connection
      else if IsTimeoutCode(e.code) then Timeout
      else if e.response.Some? then KindOfStatus(e.response.value.status)
      else Generic
  {
  }

  /** Every normalised error carries its class's status code: 0, 400, 404 and 408 for the
      fixed classes, one of 500/502/503 for server errors, and only a generic error may lack
      a status. Only validation and generic errors carry details. */
  lemma ParseApiErrorStatus(e: TransportError)
    ensures var r := ParseApiError(e);
      && (r.kind == Connection <==> r.statusCode == Some(0) && IsConnectionCode(e.code))
      && (r.kind == Validation ==> r.statusCode == Some(400) && r.details == e.response.value.data)
      && (r.kind == NotFound ==> r.statusCode == Some(404))
      && (r.kind == Timeout ==> r.statusCode == Some(408))
      && (r.kind == Server ==> r.statusCode.Some? && IsServerStatus(r.statusCode.value))
      && (r.statusCode.None? ==> r.kind == Generic)
      && (r.details.Some? ==> r.kind == Validation || r.kind == Generic)
  {
  }
}
