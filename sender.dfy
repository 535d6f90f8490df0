/**
 * The popup's send action: the checks on the active tab and the chosen
 * destination, the captured page data, the webhook request and its outcome,
 * and the Airtable `fields` assembled from the mapped standard values and the
 * rendered form inputs, sent through the record sender.
 *
 * The browser is a parameter: the tabs query, the meta description read from
 * the page, the clock readings, the form's state and each HTTP exchange are
 * inputs. The attachments sent are those of `window.attachments`, the global
 * the attachment list publishes.
 */
module Sender {
  import opened Common
  import opened RateLimiter
  import opened AirtableSender
  import opened AirtableManager
  import opened FileHandler
  import opened WebhookManager
  import opened Popup

  // ---------------------------------------------------------------------------
  // The captured page
  // ---------------------------------------------------------------------------

  /** The active tab as `chrome.tabs.query` reports it. */
  datatype Tab = Tab(id: Option<int>, url: Option<string>, title: string)

  /** What the page and the clock give: the page's meta description as read by
      the injected script (None when the script failed or found none), the ISO
      time of the send and its German locale rendering. */
  datatype PageContext = PageContext(metaResult: Option<string>, isoTime: string, formattedTime: string)

  /** `basePayload` */
  datatype BasePayload = BasePayload(url: string, title: string, notes: string, metaDescription: string,
                                     timestamp: string, attachments: seq<Attachment>)

  /** `!tabs?.[0]?.id || !tabs[0].url`: the tab check fails on a missing tab, an
      id that is absent or 0, and a missing or empty url. */
  predicate UsableTab(tabs: seq<Tab>)
  {
    |tabs| > 0 && tabs[0].id.Some? && tabs[0].id.value != 0 && Truthy(tabs[0].url)
  }

  /** Browser-internal pages, on which no script can be injected. */
  predicate IsRestrictedUrl(url: string)
  {
    StartsWith(url, "chrome://") || StartsWith(url, "edge://")
  }

  function MetaDescription(url: string, metaResult: Option<string>): (m: string)
    ensures IsRestrictedUrl(url) ==> m == ""
    ensures !IsRestrictedUrl(url) ==> m == Or(metaResult, "")
  {
    if IsRestrictedUrl(url) then "" else Or(metaResult, "")
  }

  function CapturePayload(tab: Tab, page: PageContext, notesInput: Option<string>, attachments: seq<Attachment>): BasePayload
    requires Truthy(tab.url)
  {
    BasePayload(tab.url.value, tab.title, Or(notesInput, ""), MetaDescription(tab.url.value, page.metaResult),
                page.isoTime, attachments)
  }

  // ---------------------------------------------------------------------------
  // Webhook
  // ---------------------------------------------------------------------------

  /** The JSON body posted to a webhook: these seven keys and no other. */
  datatype WebhookPayload = WebhookPayload(url: string, title: string, notes: string, template: string,
                                           metaDescription: string, timestamp: string, attachments: seq<Attachment>)

  datatype WebhookRequest = WebhookRequest(target: string, httpMethod: string, contentType: string, body: WebhookPayload)

  /** The object `sendToWebhook` resolves to; it never rejects. */
  datatype WebhookResult =
    | WebhookSuccess(status: int, statusText: string, response: string)
    | WebhookFailure(error: string)

  const MissingUrlMessage := "Webhook URL fehlt in der Konfiguration"

  /** `sendToWebhook(destination, payload)`, given the selected template, the
      formatted time, and the exchange with the webhook (its body read as text). */
  function SendToWebhook(w: WebhookConfig, payload: BasePayload, selectedTemplate: Option<string>,
                         formattedTime: string, outcome: Exchange<string>)
    : (sent: (Option<WebhookRequest>, WebhookResult))
    ensures !Truthy(w.url) ==> sent == (None, WebhookFailure(MissingUrlMessage))
    ensures Truthy(w.url) ==>
      && sent.0.Some? && sent.0.value.target == w.url.value
      && sent.0.value.httpMethod == "POST" && sent.0.value.contentType == "application/json"
      && sent.0.value.body.template == Or(selectedTemplate, "")
      && sent.0.value.body.url == payload.url && sent.0.value.body.title == payload.title
      && sent.0.value.body.notes == payload.notes && sent.0.value.body.metaDescription == payload.metaDescription
      && sent.0.value.body.timestamp == formattedTime && sent.0.value.body.attachments == payload.attachments
    ensures Truthy(w.url) ==>
      && (sent.1.WebhookSuccess? <==> outcome.Responded? && IsSuccess(outcome.status))
      && (sent.1.WebhookSuccess? ==> sent.1 == WebhookSuccess(outcome.status, outcome.statusText, outcome.body))
      && (outcome.Responded? && !IsSuccess(outcome.status) ==>
            sent.1 == WebhookFailure("Webhook " + IntToString(outcome.status) + " " + outcome.statusText))
      && (outcome.Thrown? ==> sent.1 == WebhookFailure(outcome.message))
  {
    if !Truthy(w.url) then (None, WebhookFailure(MissingUrlMessage))
    else
      var body := WebhookPayload(payload.url, payload.title, payload.notes, Or(selectedTemplate, ""),
                                 payload.metaDescription, formattedTime, payload.attachments);
      var request := WebhookRequest(w.url.value, "POST", "application/json", body);
      match outcome
      case Thrown(message) => (Some(request), WebhookFailure(message))
      case Responded(status, statusText, text) =>
        if IsSuccess(status) then (Some(request), WebhookSuccess(status, statusText, text))
        else (Some(request), WebhookFailure("Webhook " + IntToString(status) + " " + statusText))
  }

  /** A failed webhook reports its status and status text only: the response
      body does not reach the message. */
  lemma WebhookFailureIgnoresBody(w: WebhookConfig, payload: BasePayload, selectedTemplate: Option<string>,
                                  formattedTime: string, status: int, statusText: string, body1: string, body2: string)
    requires Truthy(w.url) && !IsSuccess(status)
    ensures SendToWebhook(w, payload, selectedTemplate, formattedTime, Responded(status, statusText, body1)).1
         == SendToWebhook(w, payload, selectedTemplate, formattedTime, Responded(status, statusText, body2)).1
    ensures status == 500 ==>
      SendToWebhook(w, payload, selectedTemplate, formattedTime, Responded(status, statusText, body1)).1
        == WebhookFailure("Webhook 500 " + statusText)
  {
    if status == 500 {
      assert IntToString(500) == "500" by {
        assert NatToString(500) == NatToString(50) + [DigitChar(0)];
        assert NatToString(50) == NatToString(5) + [DigitChar(0)];
      }
    }
  }

  /** A webhook with the template "Lead" selected and no attachments posts
      `template: "Lead"` and `attachments: []`. */
  lemma LeadTemplateScenario(w: WebhookConfig, payload: BasePayload, formattedTime: string, outcome: Exchange<string>)
    requires Truthy(w.url) && payload.attachments == []
    ensures var request := SendToWebhook(w, payload, Some("Lead"), formattedTime, outcome).0;
      request.Some? && request.value.body.template == "Lead" && request.value.body.attachments == []
  {
  }

  // ---------------------------------------------------------------------------
  // Airtable fields
  // ---------------------------------------------------------------------------

  /** The control behind a rendered field, as the user left it. */
  datatype Control =
    | TextControl(value: string)
    | CheckboxControl(checked: bool)
    | SelectOne(value: string)
    | SelectMany(selected: seq<string>)

  /** One element carrying `data-airtable-field-id`, in document order. */
  datatype DynamicInput = DynamicInput(fieldId: string, fieldType: string, readOnly: bool, control: Control)

  /** The non-empty values among the selected options. */
  function NonEmpty(values: seq<string>): (r: seq<string>)
    ensures forall v :: v in r <==> v in values && v != ""
    ensures |r| <= |values|
  {
    if values == [] then []
    else NonEmpty(values[..|values| - 1]) + (if values[|values| - 1] != "" then [values[|values| - 1]] else [])
  }

  /** `.filter(v => v !== '')` keeps order and repeats: one value is kept
      exactly when it is non-empty, and the filter of a concatenation is the
      concatenation of the filters. */
  lemma {:induction false} NonEmptyIsFilter(a: seq<string>, b: seq<string>)
    ensures NonEmpty(a + b) == NonEmpty(a) + NonEmpty(b)
    ensures |b| == 1 ==> NonEmpty(b) == if b[0] != "" then [b[0]] else []
    decreases |b|
  {
    if b == [] {
      assert a + b == a;
    } else {
      var n := |b| - 1;
      var tail := if b[n] != "" then [b[n]] else [];
      assert (a + b)[..|a + b| - 1] == a + b[..n];
      assert NonEmpty(a + b) == NonEmpty(a + b[..n]) + tail;
      assert NonEmpty(b) == NonEmpty(b[..n]) + tail;
      NonEmptyIsFilter(a, b[..n]);
      if n == 0 {
        assert b[..n] == [];
      }
    }
  }

  /** The value one input writes, if any: a read-only input writes nothing, a
      checkbox its state, a multiple select the list of non-empty selections
      (even an empty list), any other input its text unless that is empty. */
  function Written(input: DynamicInput): Option<FieldValue>
  {
    if input.readOnly then None
    else match input.control
      case CheckboxControl(checked) => Some(Flag(checked))
      case SelectMany(selected) => Some(TextList(NonEmpty(selected)))
      case SelectOne(value) => if value == "" then None else Some(Text(value))
      case TextControl(value) => if value == "" then None else Some(Text(value))
  }

  /** Each kind of input that is not read-only: what it writes and when. */
  lemma WrittenSpec(input: DynamicInput)
    requires !input.readOnly
    ensures input.control.CheckboxControl? ==> Written(input) == Some(Flag(input.control.checked))
    ensures input.control.SelectMany? ==>
      Written(input).Some? && Written(input).value.TextList?
      && (forall v :: v in Written(input).value.items <==> v in input.control.selected && v != "")
    ensures input.control.SelectMany? && (forall v :: v in input.control.selected ==> v == "") ==>
      Written(input) == Some(TextList([]))
    ensures (input.control.TextControl? || input.control.SelectOne?) ==>
      (Written(input).None? <==> input.control.value == "")
      && (input.control.value != "" ==> Written(input) == Some(Text(input.control.value)))
  {
    if input.control.SelectMany? && (forall v :: v in input.control.selected ==> v == "") {
      var selected := input.control.selected;
      assert forall i :: 0 <= i < |selected| ==> selected[i] in selected;
      NonEmptyOfBlank(selected);
    }
  }

  lemma {:induction false} NonEmptyOfBlank(values: seq<string>)
    requires forall i :: 0 <= i < |values| ==> values[i] == ""
    ensures NonEmpty(values) == []
  {
    if values != [] {
      NonEmptyOfBlank(values[..|values| - 1]);
    }
  }

  /** One step of the `forEach` over the inputs. */
  function WriteInput(fields: Fields, input: DynamicInput): Fields
  {
    match Written(input)
    case None => fields
    case Some(v) => fields[input.fieldId := v]
  }

  /** The fields after the inputs were written in document order. */
  function ApplyInputs(fields: Fields, inputs: seq<DynamicInput>): Fields
  {
    if inputs == [] then fields else WriteInput(ApplyInputs(fields, inputs[..|inputs| - 1]), inputs[|inputs| - 1])
  }

  /** The position of the last input that writes the given field id, if any. */
  function LastWriter(inputs: seq<DynamicInput>, id: string): (r: Option<nat>)
    ensures r.Some? ==> r.value < |inputs| && inputs[r.value].fieldId == id && Written(inputs[r.value]).Some?
    ensures r.Some? ==> forall k :: r.value < k < |inputs| ==> !(inputs[k].fieldId == id && Written(inputs[k]).Some?)
    ensures r.None? ==> forall k :: 0 <= k < |inputs| ==> !(inputs[k].fieldId == id && Written(inputs[k]).Some?)
  {
    if inputs == [] then None
    else
      var n := |inputs| - 1;
      if inputs[n].fieldId == id && Written(inputs[n]).Some? then Some(n) else LastWriter(inputs[..n], id)
  }

  /** A field id holds the value of the last input that writes it; an id no
      input writes keeps its earlier value, or stays absent. */
  lemma {:induction false} ApplyInputsSpec(fields: Fields, inputs: seq<DynamicInput>, id: string)
    ensures LastWriter(inputs, id).Some? ==>
      id in ApplyInputs(fields, inputs) && ApplyInputs(fields, inputs)[id] == Written(inputs[LastWriter(inputs, id).value]).value
    ensures LastWriter(inputs, id).None? ==>
      (id in ApplyInputs(fields, inputs) <==> id in fields)
      && (id in fields ==> ApplyInputs(fields, inputs)[id] == fields[id])
  {
    if inputs != [] {
      var n := |inputs| - 1;
      ApplyInputsSpec(fields, inputs[..n], id);
      if !(inputs[n].fieldId == id && Written(inputs[n]).Some?) {
        assert LastWriter(inputs, id) == LastWriter(inputs[..n], id);
        if LastWriter(inputs, id).Some? {
          assert inputs[..n][LastWriter(inputs, id).value] == inputs[LastWriter(inputs, id).value];
        }
      }
    }
  }

  /** Every key of the assembled fields was mapped or written by an input. */
  lemma {:induction false} ApplyInputsKeys(fields: Fields, inputs: seq<DynamicInput>)
    ensures forall id :: id in ApplyInputs(fields, inputs) ==>
      id in fields || exists k :: 0 <= k < |inputs| && inputs[k].fieldId == id && Written(inputs[k]).Some?
  {
    if inputs != [] {
      var n := |inputs| - 1;
      ApplyInputsKeys(fields, inputs[..n]);
      forall id | id in ApplyInputs(fields, inputs)
        ensures id in fields || exists k :: 0 <= k < |inputs| && inputs[k].fieldId == id && Written(inputs[k]).Some?
      {
        if id !in ApplyInputs(fields, inputs[..n]) {
          assert inputs[n].fieldId == id && Written(inputs[n]).Some?;
        } else if id !in fields {
          var k :| 0 <= k < n && inputs[..n][k].fieldId == id && Written(inputs[..n][k]).Some?;
          assert inputs[k] == inputs[..n][k];
        }
      }
    }
  }

  /** The `forEach` over the rendered inputs. */
  method CollectFields(start: Fields, inputs: seq<DynamicInput>) returns (fields: Fields)
    ensures fields == ApplyInputs(start, inputs)
  {
    fields := start;
    var i := 0;
    while i < |inputs|
      invariant 0 <= i <= |inputs|
      invariant fields == ApplyInputs(start, inputs[..i])
    {
      assert inputs[..i + 1][..i] == inputs[..i];
      var el := inputs[i];
      if !el.readOnly {
        var value: FieldValue;
        var skip := false;
        match el.control {
          case CheckboxControl(checked) => value := Flag(checked);
          case SelectMany(selected) => value := TextList(NonEmpty(selected));
          case SelectOne(v) => value := Text(v); skip := v == "";
          case TextControl(v) => value := Text(v); skip := v == "";
        }
        if !skip {
          fields := fields[el.fieldId := value];
        }
      }
      i := i + 1;
    }
    assert inputs[..i] == inputs;
  }

  /** A role's mapping is set when it names a field. */
  predicate Mapped(mappings: FieldMappings, role: Role)
  {
    role in mappings && mappings[role] != ""
  }

  /** `fields` after the standard values: the url, then the title, under their mapped ids. */
  function MappedFields(mappings: FieldMappings, url: string, title: string): (f: Fields)
    ensures forall id :: id in f <==> (Mapped(mappings, Url) && id == mappings[Url]) || (Mapped(mappings, Title) && id == mappings[Title])
    ensures Mapped(mappings, Title) ==> f[mappings[Title]] == Text(title)
    ensures Mapped(mappings, Url) && !(Mapped(mappings, Title) && mappings[Title] == mappings[Url]) ==> f[mappings[Url]] == Text(url)
  {
    var withUrl: Fields := if Mapped(mappings, Url) then map[mappings[Url] := Text(url)] else map[];
    if Mapped(mappings, Title) then withUrl[mappings[Title] := Text(title)] else withUrl
  }

  /** The value a rendered input of the given kind can hold. */
  predicate Fits(kind: InputKind, c: Control)
  {
    match kind
    case CheckboxInput => c.CheckboxControl?
    case SelectInput(multiple, _) => if multiple then c.SelectMany? else c.SelectOne?
    case _ => c.TextControl?
  }

  /** What the form sends for a field follows from its type: a checkbox field
      always sends a boolean, a multiple-collaborator field always sends a list,
      and every other type sends its text or nothing. */
  lemma RenderedFieldWrites(f: Field, collaborators: seq<Collaborator>, c: Control)
    requires Fits(InputFor(f, collaborators), c)
    ensures var w := Written(DynamicInput(f.id, f.fieldType, false, c));
      && (f.fieldType == "checkbox" ==> w.Some? && w.value.Flag?)
      && (f.fieldType == "multipleCollaborators" ==> w.Some? && w.value.TextList?)
      && (f.fieldType != "checkbox" && f.fieldType != "multipleCollaborators" ==> w.None? || w.value.Text?)
  {
  }

  // ---------------------------------------------------------------------------
  // Airtable send
  // ---------------------------------------------------------------------------

  /** The object `sendToAirtable` resolves to; it never rejects. */
  datatype AirtableResult =
    | AirtableSuccess(recordId: string, response: ApiBody)
    | AirtableFailure(error: string)

  const TableNotFoundMessage := "Selected table not found."
  const TableConfigMissingMessage := "Table configuration not found. Please configure the table in settings."

  function TableConfigOf(base: BaseConfig, tableId: string): Option<TableConfig>
  {
    if base.configuredTables.Some? && tableId in base.configuredTables.value
    then Some(base.configuredTables.value[tableId]) else None
  }

  /** The checks of `sendToAirtable` before any field is assembled. */
  function AirtableCheck(base: BaseConfig, tableId: string): Option<string>
  {
    if FindTableOf(base, tableId).None? then Some(TableNotFoundMessage)
    else if TableConfigOf(base, tableId).None? then Some(TableConfigMissingMessage)
    else None
  }

  /** The fields sent for a table configuration. */
  function AirtableFields(tc: TableConfig, payload: BasePayload, inputs: seq<DynamicInput>): Fields
  {
    var mappings := if tc.fieldMappings.Some? then tc.fieldMappings.value else map[];
    ApplyInputs(MappedFields(mappings, payload.url, payload.title), inputs)
  }

  /** `fullConfig` */
  function FullConfig(base: BaseConfig, tableId: string): SenderConfig
  {
    SenderConfig(Some(base.token), Some(base.baseId), Some(tableId), Some(base.name))
  }

  /** `response.records?.[0]?.id || 'unknown'` */
  function RecordIdOf(body: ApiBody): (id: string)
    ensures id != ""
    ensures body.records.Some? && |body.records.value| > 0 && Truthy(body.records.value[0].id) ==>
      id == body.records.value[0].id.value
    ensures !(body.records.Some? && |body.records.value| > 0 && Truthy(body.records.value[0].id)) ==> id == "unknown"
  {
    if body.records.Some? && |body.records.value| > 0 then Or(body.records.value[0].id, "unknown") else "unknown"
  }

  /** The request `sendToAirtable` issues, if any, and what it resolves to. */
  function AirtableExpected(base: BaseConfig, tableId: string, payload: BasePayload, inputs: seq<DynamicInput>,
                            outcome: Exchange<ApiBody>): (Option<Request>, AirtableResult)
  {
    match AirtableCheck(base, tableId)
    case Some(message) => (None, AirtableFailure(message))
    case None =>
      if !ConfigComplete(Some(FullConfig(base, tableId))) then (None, AirtableFailure(InvalidConfigMessage))
      else
        var fields := AirtableFields(TableConfigOf(base, tableId).value, payload, inputs);
        var request := ApiRequest(base.token, base.baseId, tableId, fields);
        match ApiOutcome(outcome)
        case Ok(body) => (Some(request), AirtableSuccess(RecordIdOf(body), body))
        case Err(message) => (Some(request), AirtableFailure(message))
  }

  /** No request is issued for an unknown table, a table without configuration,
      or an empty table id; each fails with its message. */
  lemma AirtableFailsBeforeRequest(base: BaseConfig, tableId: string, payload: BasePayload,
                                   inputs: seq<DynamicInput>, outcome: Exchange<ApiBody>)
    ensures var (request, r) := AirtableExpected(base, tableId, payload, inputs, outcome);
      && (FindTableOf(base, tableId).None? ==> request.None? && r == AirtableFailure(TableNotFoundMessage))
      && (FindTableOf(base, tableId).Some? && TableConfigOf(base, tableId).None? ==>
            request.None? && r == AirtableFailure(TableConfigMissingMessage))
      && (tableId == "" ==> request.None? && r.AirtableFailure?)
      && (request.Some? <==> AirtableCheck(base, tableId).None? && ConfigComplete(Some(FullConfig(base, tableId))))
  {
  }

  /** A sent request carries the mapped url and title under their field ids
      unless an input writes the same id later, and every input's value under
      its own id when it is the last to write it. */
  lemma AirtableRequestFields(base: BaseConfig, tableId: string, payload: BasePayload,
                              inputs: seq<DynamicInput>, outcome: Exchange<ApiBody>, role: Role)
    requires AirtableExpected(base, tableId, payload, inputs, outcome).0.Some?
    requires role == Url || role == Title
    ensures var request := AirtableExpected(base, tableId, payload, inputs, outcome).0.value;
      var tc := TableConfigOf(base, tableId).value;
      var mappings := if tc.fieldMappings.Some? then tc.fieldMappings.value else map[];
      var fields := request.body.records[0];
      && request.url == ApiRoot + base.baseId + "/" + tableId
      && |request.body.records| == 1 && request.body.typecast
      && (Mapped(mappings, role) && LastWriter(inputs, mappings[role]).None?
          && !(role == Url && Mapped(mappings, Title) && mappings[Title] == mappings[Url]) ==>
            mappings[role] in fields && fields[mappings[role]] == Text(if role == Url then payload.url else payload.title))
  {
    var tc := TableConfigOf(base, tableId).value;
    var mappings := if tc.fieldMappings.Some? then tc.fieldMappings.value else map[];
    if Mapped(mappings, role) {
      ApplyInputsSpec(MappedFields(mappings, payload.url, payload.title), inputs, mappings[role]);
    }
  }

  /** A table mapping url to "fldA" and title to "fldB", with no inputs, sends
      exactly those two fields. */
  lemma MappedUrlTitleScenario(base: BaseConfig, tableId: string, outcome: Exchange<ApiBody>, payload: BasePayload)
    requires AirtableCheck(base, tableId).None? && ConfigComplete(Some(FullConfig(base, tableId)))
    requires TableConfigOf(base, tableId).value.fieldMappings == Some(map[Url := "fldA", Title := "fldB"])
    requires payload.url == "https://x.test" && payload.title == "Page X"
    ensures AirtableExpected(base, tableId, payload, [], outcome).0
         == Some(Request("POST", ApiRoot + base.baseId + "/" + tableId, "Bearer " + base.token, "application/json",
                         RequestBody([map["fldA" := Text("https://x.test"), "fldB" := Text("Page X")]], true)))
  {
    var m := map[Url := "fldA", Title := "fldB"];
    assert MappedFields(m, payload.url, payload.title) == map["fldA" := Text("https://x.test"), "fldB" := Text("Page X")];
  }

  /** `sendToAirtable(destination, tableId, basePayload)`: the checks, the
      field assembly, and the record sender inside the limiter. */
  method SendToAirtable(limiter: AirtableRateLimiter, base: BaseConfig, tableId: string, payload: BasePayload,
                        inputs: seq<DynamicInput>, now: int, lateness: nat, failedAt: int, outcome: Exchange<ApiBody>)
    returns (wait: Option<int>, request: Option<Request>, r: AirtableResult)
    modifies limiter
    ensures old(limiter.WindowsEmpty()) ==> limiter.WindowsEmpty() && wait.None?
    ensures (request, r) == AirtableExpected(base, tableId, payload, inputs, outcome)
    ensures request.None? ==> wait.None? && unchanged(limiter)
    ensures request.Some? ==>
      var window := if base.baseId in old(limiter.queues) then old(limiter.queues)[base.baseId] else [];
      && wait == WaitFor(Recent(window, now), now)
      && limiter.queues == old(limiter.queues)[base.baseId := Recent(window, now)]
  {
    if FindTableOf(base, tableId).None? {
      return None, None, AirtableFailure(TableNotFoundMessage);
    }
    var tableConfig := TableConfigOf(base, tableId);
    if tableConfig.None? {
      return None, None, AirtableFailure(TableConfigMissingMessage);
    }
    var fieldMappings := if tableConfig.value.fieldMappings.Some? then tableConfig.value.fieldMappings.value else map[];
    var fields := MappedFields(fieldMappings, payload.url, payload.title);
    fields := CollectFields(fields, inputs);
    var payloadForSender := SenderPayload(Some(RecordPart(Some(fields))));
    var response;
    wait, request, response := AirtableSender.Send(limiter, Some(FullConfig(base, tableId)), payloadForSender,
                                                    now, lateness, failedAt, outcome);
    match response {
      case Ok(body) => r := AirtableSuccess(RecordIdOf(body), body);
      case Err(message) => r := AirtableFailure(message);
    }
  }

  // ---------------------------------------------------------------------------
  // The send action
  // ---------------------------------------------------------------------------

  /** The popup's form: the notes textarea (absent for an Airtable destination),
      the destination and template selections, the table selection with its
      option text, and the rendered Airtable inputs. */
  datatype FormState = FormState(notes: Option<string>, destinationId: string, selectedTemplate: Option<string>,
                                 tableId: string, tableName: string, inputs: seq<DynamicInput>)

  const TabMessage := "Could not get current tab information."
  const NoDestinationMessage := "Bitte w\U{00E4}hle eine Destination aus"
  const UnknownDestinationMessage := "Destination nicht gefunden"
  const NoTableMessage := "Bitte w\U{00E4}hle eine Tabelle aus"

  /** Where the checks of `send` lead. */
  datatype Route = Abort(message: string) | ToWebhook(destination: Destination) | ToAirtable(destination: Destination)

  function RouteOf(tabs: seq<Tab>, form: FormState, destinations: seq<Destination>): Route
  {
    if !UsableTab(tabs) then Abort(TabMessage)
    else if form.destinationId == "" then Abort(NoDestinationMessage)
    else match FindDestination(destinations, form.destinationId)
      case None => Abort(UnknownDestinationMessage)
      case Some(k) =>
        if IsWebhook(destinations[k]) then ToWebhook(destinations[k])
        else if form.tableId == "" then Abort(NoTableMessage)
        else ToAirtable(destinations[k])
  }

  /** The checks of `send`, in order: the tab, a chosen destination, a known
      destination, and for Airtable a chosen table. A route to a destination
      carries the chosen id. */
  lemma RouteSpec(tabs: seq<Tab>, form: FormState, destinations: seq<Destination>)
    ensures var route := RouteOf(tabs, form, destinations);
      && (!UsableTab(tabs) ==> route == Abort(TabMessage))
      && (UsableTab(tabs) && form.destinationId == "" ==> route == Abort(NoDestinationMessage))
      && (UsableTab(tabs) && form.destinationId != "" && (forall d :: d in destinations ==> d.id != Some(form.destinationId))
          ==> route == Abort(UnknownDestinationMessage))
      && (route.ToWebhook? ==> route.destination in destinations && route.destination.id == Some(form.destinationId)
                               && IsWebhook(route.destination))
      && (route.ToAirtable? ==> route.destination in destinations && route.destination.id == Some(form.destinationId)
                                && !IsWebhook(route.destination) && form.tableId != "")
  {
    if UsableTab(tabs) && form.destinationId != "" {
      match FindDestination(destinations, form.destinationId)
      case None =>
      case Some(k) =>
        assert destinations[k] in destinations;
    }
  }

  datatype SendReport = Failed(message: string) | WebhookSent(webhook: WebhookResult) | AirtableSent(airtable: AirtableResult)

  /** `lastUsedDestination` */
  datatype LastUsed = LastUsed(kind: string, id: Option<string>, name: Option<string>)

  /** `send()`: the checks, the captured payload, and the dispatch to the chosen
      destination; a successful send records the destination as last used. */
  method Send(limiter: AirtableRateLimiter, files: AttachmentList, tabs: seq<Tab>, page: PageContext, form: FormState,
              destinations: seq<Destination>, now: int, lateness: nat, failedAt: int,
              webhookOutcome: Exchange<string>, airtableOutcome: Exchange<ApiBody>)
    returns (report: SendReport, lastUsed: Option<LastUsed>)
    modifies limiter
    ensures old(limiter.WindowsEmpty()) ==> limiter.WindowsEmpty()
    ensures RouteOf(tabs, form, destinations).Abort? ==>
      report == Failed(RouteOf(tabs, form, destinations).message) && lastUsed.None? && unchanged(limiter)
    ensures RouteOf(tabs, form, destinations).ToWebhook? ==>
      var d := RouteOf(tabs, form, destinations).destination;
      var payload := CapturePayload(tabs[0], page, form.notes, files.windowAttachments.items);
      var r := SendToWebhook(d.config.webhook, payload, form.selectedTemplate, page.formattedTime, webhookOutcome).1;
      && report == WebhookSent(r)
      && lastUsed == (if r.WebhookSuccess? then Some(LastUsed("webhook", d.id, d.name)) else None)
      && unchanged(limiter)
    ensures RouteOf(tabs, form, destinations).ToAirtable? ==>
      var d := RouteOf(tabs, form, destinations).destination;
      var payload := CapturePayload(tabs[0], page, form.notes, files.windowAttachments.items);
      var r := AirtableExpected(d.config.base, form.tableId, payload, form.inputs, airtableOutcome).1;
      && report == AirtableSent(r)
      && lastUsed == (if r.AirtableSuccess?
                      then Some(LastUsed("airtable", Some(Show(d.id) + "|" + form.tableId), Some(Show(d.name) + " - " + form.tableName)))
                      else None)
  {
    lastUsed := None;
    if !UsableTab(tabs) {
      return Failed(TabMessage), None;
    }
    var currentTab := tabs[0];
    var basePayload := CapturePayload(currentTab, page, form.notes, files.windowAttachments.items);
    if form.destinationId == "" {
      return Failed(NoDestinationMessage), None;
    }
    var found := FindDestination(destinations, form.destinationId);
    if found.None? {
      return Failed(UnknownDestinationMessage), None;
    }
    var destination := destinations[found.value];
    match destination.config {
      case WebhookSettings(webhook) =>
        var sent := SendToWebhook(webhook, basePayload, form.selectedTemplate, page.formattedTime, webhookOutcome);
        report := WebhookSent(sent.1);
        if sent.1.WebhookSuccess? {
          lastUsed := Some(LastUsed("webhook", destination.id, destination.name));
        }
      case AirtableSettings(base) =>
        if form.tableId == "" {
          return Failed(NoTableMessage), None;
        }
        var wait, request, r := SendToAirtable(limiter, base, form.tableId, basePayload, form.inputs,
                                               now, lateness, failedAt, airtableOutcome);
        report := AirtableSent(r);
        if r.AirtableSuccess? {
          lastUsed := Some(LastUsed("airtable", Some(Show(destination.id) + "|" + form.tableId),
                                    Some(Show(destination.name) + " - " + form.tableName)));
        }
    }
  }
}
