/**
 * Sending one record to the Airtable REST API: the configuration guard, the
 * request (URL, headers, body), the outcome of the HTTP exchange, and the
 * user-facing message for each error status.
 *
 * The network is a parameter: an `Exchange` is what `fetch` followed by
 * `response.json()` produced, either a response or a thrown error's message.
 */
module AirtableSender {
  import opened Common
  import opened RateLimiter

  /** A value written into an Airtable cell: text, a checkbox, or a list of choices. */
  datatype FieldValue = Text(text: string) | Flag(flag: bool) | TextList(items: seq<string>)

  /** field id -> value */
  type Fields = map<string, FieldValue>

  /** The configuration `send` receives (every part may be missing). */
  datatype SenderConfig = SenderConfig(token: Option<string>, baseId: Option<string>,
                                       tableId: Option<string>, name: Option<string>)

  /** `payload.record`, whose `fields` may be missing. */
  datatype RecordPart = RecordPart(fields: Option<Fields>)
  datatype SenderPayload = SenderPayload(record: Option<RecordPart>)

  /** The JSON body of a request: `{records: [{fields}], typecast}`. */
  datatype RequestBody = RequestBody(records: seq<Fields>, typecast: bool)

  datatype Request = Request(httpMethod: string, url: string, authorization: string,
                             contentType: string, body: RequestBody)

  /** The parts of an Airtable response body the extension reads. */
  datatype ApiError = ApiError(message: Option<string>)
  datatype CreatedRecord = CreatedRecord(id: Option<string>)
  datatype ApiBody = ApiBody(records: Option<seq<CreatedRecord>>, error: Option<ApiError>)

  const InvalidConfigMessage := "Invalid Airtable configuration. Please check settings."
  const NetworkErrorMessage := "Network error - check your internet connection"
  const ApiRoot := "https://api.airtable.com/v0/"

  /** The guard of `send`: a configuration with a non-empty token, base id and table id. */
  predicate ConfigComplete(config: Option<SenderConfig>)
  {
    config.Some? && Truthy(config.value.token) && Truthy(config.value.baseId) && Truthy(config.value.tableId)
  }

  /** `payload.record?.fields || {}` */
  function FieldsToSend(payload: SenderPayload): (f: Fields)
    ensures payload.record.Some? && payload.record.value.fields.Some? ==> f == payload.record.value.fields.value
    ensures payload.record.None? || payload.record.value.fields.None? ==> f == map[]
  {
    match payload.record
    case None => map[]
    case Some(rec) => if rec.fields.Some? then rec.fields.value else map[]
  }

  /** The request `sendToAirtableAPI` issues for a complete configuration. */
  function ApiRequest(token: string, baseId: string, tableId: string, fields: Fields): (q: Request)
    ensures q.httpMethod == "POST" && q.contentType == "application/json"
    ensures q.url == ApiRoot + baseId + "/" + tableId
    ensures q.authorization == "Bearer " + token
    ensures q.body.records == [fields] && q.body.typecast
  {
    Request("POST", ApiRoot + baseId + "/" + tableId, "Bearer " + token, "application/json",
            RequestBody([fields], true))
  }

  /** `error?.message || 'Unknown error'` */
  function ErrorText(error: Option<ApiError>): (t: string)
    ensures t != ""
    ensures error.Some? && Truthy(error.value.message) ==> t == error.value.message.value
    ensures !(error.Some? && Truthy(error.value.message)) ==> t == "Unknown error"
  {
    if error.Some? then Or(error.value.message, "Unknown error") else "Unknown error"
  }

  /** The statuses with a fixed explanation (section 15.5 of RFC 9110 and
      section 4 of RFC 6585). */
  predicate HasFixedMessage(status: int)
  {
    status == 401 || status == 403 || status == 404 || status == 429
  }

  /** `getErrorMessage(status, error)` */
  function GetErrorMessage(status: int, error: Option<ApiError>): string
  {
    match status
    case 401 => "Invalid or expired Personal Access Token."
    case 403 => "Access denied. Check token permissions."
    case 404 => "Base or Table not found. Check IDs."
    case 422 => "Invalid field data: " + ErrorText(error)
    case 429 => "Rate limit exceeded. Please wait and try again."
    case _ => "Airtable API Error (" + IntToString(status) + "): " + ErrorText(error)
  }

  /** Every status outside the explained four reports the error text last. */
  lemma ErrorMessageEndsWithErrorText(status: int, error: Option<ApiError>)
    requires !HasFixedMessage(status)
    ensures EndsWith(GetErrorMessage(status, error), ErrorText(error))
  {
    var m := GetErrorMessage(status, error);
    var t := ErrorText(error);
    var head := if status == 422 then "Invalid field data: " else "Airtable API Error (" + IntToString(status) + "): ";
    assert m == head + t;
    assert m[|m| - |t|..] == t;
  }

  /** The text reported per status: 401, 403, 404 and 429 have a fixed
      explanation, 422 explains invalid field data, any other status is named
      with its number. */
  lemma ErrorMessageByStatus(status: int, error: Option<ApiError>)
    ensures status == 401 ==> GetErrorMessage(status, error) == "Invalid or expired Personal Access Token."
    ensures status == 403 ==> GetErrorMessage(status, error) == "Access denied. Check token permissions."
    ensures status == 404 ==> GetErrorMessage(status, error) == "Base or Table not found. Check IDs."
    ensures status == 429 ==> GetErrorMessage(status, error) == "Rate limit exceeded. Please wait and try again."
    ensures status == 422 ==> GetErrorMessage(status, error) == "Invalid field data: " + ErrorText(error)
    ensures !HasFixedMessage(status) && status != 422 ==>
      GetErrorMessage(status, error) == "Airtable API Error (" + IntToString(status) + "): " + ErrorText(error)
  {
  }

  /** The fixed explanations are exactly the messages that ignore the error body. */
  lemma FixedMessagesIgnoreError(status: int, error: Option<ApiError>)
    ensures HasFixedMessage(status) <==> GetErrorMessage(status, error) == GetErrorMessage(status, OtherError(error))
  {
    if !HasFixedMessage(status) {
      var other := OtherError(error);
      var head := if status == 422 then "Invalid field data: " else "Airtable API Error (" + IntToString(status) + "): ";
      assert GetErrorMessage(status, error) == head + ErrorText(error);
      assert GetErrorMessage(status, other) == head + ErrorText(other);
      assert (head + ErrorText(error))[|head|..] == ErrorText(error);
      assert (head + ErrorText(other))[|head|..] == ErrorText(other);
    }
  }

  /** An error body whose text differs from that of the given one. */
  function OtherError(error: Option<ApiError>): (e: Option<ApiError>)
    ensures ErrorText(e) != ErrorText(error)
  {
    if ErrorText(error) == "Unknown error" then Some(ApiError(Some("Other error"))) else None
  }

  /** The catch block of `sendToAirtableAPI`: a message mentioning a failed
      fetch is replaced by the network-error message, any other is rethrown. */
  function CatchMessage(message: string): (m: string)
    ensures Contains(message, "Failed to fetch") ==> m == NetworkErrorMessage
    ensures !Contains(message, "Failed to fetch") ==> m == message
  {
    if Contains(message, "Failed to fetch") then NetworkErrorMessage else message
  }

  /** The outcome of `sendToAirtableAPI` for a given HTTP exchange. */
  function ApiOutcome(outcome: Exchange<ApiBody>): (r: Result<ApiBody>)
    ensures r.Ok? <==> outcome.Responded? && IsSuccess(outcome.status)
    ensures r.Ok? ==> r.value == outcome.body
    ensures outcome.Responded? && !IsSuccess(outcome.status) ==>
      var m := GetErrorMessage(outcome.status, outcome.body.error);
      && (r == Err(m) || r == Err(NetworkErrorMessage))
      && (!Contains(m, "Failed to fetch") ==> r == Err(m))
    ensures outcome.Thrown? && !Contains(outcome.message, "Failed to fetch") ==> r == Err(outcome.message)
    ensures outcome.Thrown? && Contains(outcome.message, "Failed to fetch") ==> r == Err(NetworkErrorMessage)
  {
    match outcome
    case Thrown(message) => Err(CatchMessage(message))
    case Responded(status, _, body) =>
      if IsSuccess(status) then Ok(body)
      else Err(CatchMessage(GetErrorMessage(status, body.error)))
  }

  /** `send(config, payload)`: the guard, then the API call inside the limiter
      keyed by the base id. Returns the request issued, if any, and the wait
      the limiter scheduled before it. */
  method Send(limiter: AirtableRateLimiter, config: Option<SenderConfig>, payload: SenderPayload,
              now: int, lateness: nat, failedAt: int, outcome: Exchange<ApiBody>)
    returns (wait: Option<int>, request: Option<Request>, r: Result<ApiBody>)
    modifies limiter
    ensures old(limiter.WindowsEmpty()) ==> limiter.WindowsEmpty() && wait.None?
    ensures !ConfigComplete(config) ==>
      r == Err(InvalidConfigMessage) && request.None? && wait.None? && unchanged(limiter)
    ensures ConfigComplete(config) ==>
      var c := config.value;
      var window := if c.baseId.value in old(limiter.queues) then old(limiter.queues)[c.baseId.value] else [];
      && request == Some(ApiRequest(c.token.value, c.baseId.value, c.tableId.value, FieldsToSend(payload)))
      && r == ApiOutcome(outcome)
      && wait == WaitFor(Recent(window, now), now)
      && limiter.queues == old(limiter.queues)[c.baseId.value := Recent(window, now)]
  {
    if !ConfigComplete(config) {
      return None, None, Err(InvalidConfigMessage);
    }
    var c := config.value;
    var fields := FieldsToSend(payload);
    request := Some(ApiRequest(c.token.value, c.baseId.value, c.tableId.value, fields));
    wait, r := limiter.Throttle(c.baseId.value, now, lateness, failedAt, ApiOutcome(outcome));
  }
}
