# URL-Webhook-Clipper in Dafny

A model of the configuration and dispatch logic of URL-Webhook-Clipper. This Chrome extension sends the current page (its url, title, notes, description and attached files) to a user's webhooks or as a record into an Airtable table. It sends either from its popup or from a context menu built by its background worker.

Browser, storage, network and file-reading effects are not modelled directly. Their results are inputs to the model:
- stored lists;
- HTTP responses, as `Exchange` values: a response with status, status text and body, or a thrown error;
- the result of a page script;
- file sizes and data;
- the current time.

Each core source file is one module. Each module is one `.dfy` file.

| module | file | source |
|---|---|---|
| `Common` | common.dfy | JavaScript semantics the other modules rely on: `Option`/`Result`, truthiness and `undefined` in template literals, `trim`, `toLowerCase`, `indexOf`, `replace` of a first occurrence, `parseInt`, integers as text |
| `RateLimiter` | rate_limiter.dfy | popup/modules/rateLimiter.js: the per-base sliding window, as written and as evidently intended |
| `AirtableSender` | airtable_sender.dfy | popup/modules/airtableSender.js: configuration guard, request shape, HTTP status → message |
| `AirtableManager` | airtable_manager.dfy | popup/modules/airtableManager.js: credential prefix checks, schema shaping, collaborator de-duplication, field auto-mapping, and in-place edits of the stored base list |
| `WebhookManager` | webhook_manager.dfy | popup/modules/webhookManager.js: fresh ids, save validation, templates, import validation |
| `FileHandler` | file_handler.dfy | popup/modules/fileHandler.js: size caps, de-duplication, removal, clearing (with JavaScript array identity) |
| `Popup` | popup.dfy | popup/popup.js: merged destination list, dropdown grouping, table form order, field type → input kind, template description |
| `Sender` | sender.dfy | popup/modules/sender.js: webhook payload and result, Airtable field assembly per input type, the `send` checks |
| `Background` | background.dfy | background.js: flattening into context-menu destinations, menu structure, the `send-` id round trip, click payload, webhook and Airtable sends |

State the source changes in place is modelled as a class:
- the limiter's map of windows;
- the stored webhook and Airtable configuration lists;
- the attachment arrays;
- the popup's and the worker's destination lists.

Each such class has methods with `modifies` clauses. Loops become `while` loops with invariants, proved against the specification functions beside them.

Where the code disagrees with its own documentation, the model follows the code:
- Saving a webhook whose templates repeat a name does not reject the save. The alert sits inside a `forEach` callback, so its `return` only skips that row (popup/modules/webhookManager.js:296-307). The later duplicates are dropped, one alert is shown per dropped row, and the save goes ahead. `SaveOutcome.Saved` carries the number of alerts (`WebhookManager.DuplicateRowsSpec`, `WebhookManager.SavedOrAlerted`).
- A failing webhook send from the popup reports `Webhook {status} {statusText}` without the response body (popup/modules/sender.js:154-159).
- An empty multi-select is sent as an empty array, not omitted (popup/modules/sender.js:234-249).

These inconsistencies between modules are modelled as written:
- background.js and popup/popup.js read `webhook.name`, but the settings page writes `label`. `WebhookConfig` keeps a separate optional `name`, and its absence renders as `undefined`.
- background.js reads `base.config.tables` and `base.config.*`, but popup/modules/airtableManager.js stores `base.tables` and never writes a nested `config`. `Background.ManagedBasesGiveNoEntries` proves that bases stored by the settings page never reach the context menu.
- A context-menu destination without an id gets the item `send-undefined`, which never resolves back to it (`Background.SendItemRoundTrip`). An absent webhook id matches the first stored webhook without an id (`Background.FindWebhook`).
- The Airtable senders go through the one shared limiter as written (popup/modules/airtableSender.js:6 and 36, popup/modules/rateLimiter.js:91). `AirtableSender.Send`, `Sender.SendToAirtable` and `Sender.Send` take a `RateLimiter.AirtableRateLimiter`, so its windows stay empty and no send waits. The corrected limiter appears only as the corrected half of the first finding.

## Model

| member | source | states |
|---|---|---|
| AirtableManager.ValidationOrder | popup/modules/airtableManager.js:19-30 | a connection passes the checks iff the token starts with "pat" and the base id with "app"; the field request also needs a table id starting with "tbl", checked last (lines 75-90) |
| AirtableManager.FetchTableNames | popup/modules/airtableManager.js:19-70 | a failed check is the error; success iff the checks pass and the response is 2xx, and then one table per returned table, same id and name, fields not loaded |
| AirtableManager.ShapeField | popup/modules/airtableManager.js:154-165 | a field keeps id, name and type; select types keep their choices, collaborator types get empty options, other types none |
| AirtableManager.FindSchemaTable | popup/modules/airtableManager.js:133 | the index of the first table with the id, or none when no table has it |
| AirtableManager.FetchTableFields | popup/modules/airtableManager.js:75-167 | a failed check is the error; a thrown fetch keeps its message; a non-2xx response fails with the API message or "HTTP {status}: {statusText}"; a 2xx response gives the first table with the id, loaded, with one shaped field per returned field, and fails with "Table … not found in base …" when no table has it |
| AirtableManager.CollectSpec | popup/modules/airtableManager.js:246-269 | the collected collaborators have distinct ids, every value with an id is represented, and each entry is built from the first value with its id |
| AirtableManager.AdmitEach | popup/modules/airtableManager.js:257-265 | the innermost loop admits each value of a cell in turn and keeps the seen ids equal to the list's ids |
| AirtableManager.ExtractCollaborators | popup/modules/airtableManager.js:246-269 | the nested loops over records, collaborator fields and cell values compute the first-occurrence collection of all values |
| AirtableManager.CollaboratorFieldNames | popup/modules/airtableManager.js:207-209 | every listed name is the name of a collaborator-typed field; none when there is no such field |
| AirtableManager.CollaboratorFieldNamesComplete | popup/modules/airtableManager.js:207-209 | every collaborator-typed field's name is listed (with `CollaboratorFieldNames`, a name is listed iff it names such a field) |
| AirtableManager.CollaboratorFieldNamesIsFilter | popup/modules/airtableManager.js:207-209 | the names are the `filter` of the fields, in order and with repeats: one field contributes its name iff it is collaborator-typed, and a concatenation gives the concatenated names |
| AirtableManager.FetchCollaboratorsFromRecords | popup/modules/airtableManager.js:173-277 | missing inputs give "Missing Token, Base ID, or Table ID."; a thrown schema request keeps its message; a non-2xx one gives "Failed to fetch table schema: {statusText}"; a table not in the schema gives "Table {id} not found"; no collaborator fields give the empty list; a thrown records request keeps its message; a non-2xx one gives the API message or "Failed to fetch records: {statusText}"; otherwise the result is the unique collaborators of the returned records; and success happens only on those paths |
| AirtableManager.FirstSuiting | popup/modules/airtableManager.js:693-696 | the first field whose lower-cased name contains a keyword of the role (attachments only among attachment fields), or none |
| AirtableManager.AutoMapChoosesFirstSuiting | popup/modules/airtableManager.js:684-700 | a role is mapped iff some field suits it, to the first such field; an attachments mapping names an attachment field |
| AirtableManager.AutoMapFields | popup/modules/airtableManager.js:684-700 | the loop over the four roles produces the auto-mapping |
| AirtableManager.FirstSuitingFrom | popup/modules/airtableManager.js:693-696 | the `find` from a position on: a result is the first field at or after it that suits the role; no result means none there suits it |
| AirtableManager.MappingsForSpec | popup/modules/airtableManager.js:684-700 | over any list of roles, a role is mapped iff it is listed and some field suits it, and then to the id of the first suiting field |
| AirtableManager.FieldEntries | popup/modules/airtableManager.js:468-472 | there are at most as many options as fields |
| AirtableManager.FieldEntriesSound | popup/modules/airtableManager.js:468-472 | each option is a field passing the type filter, valued by its id, captioned "name (type)", selected iff it is the mapped field |
| AirtableManager.FieldEntriesComplete | popup/modules/airtableManager.js:468-472 | every field passing the type filter has its option |
| AirtableManager.FieldEntriesOfOne | popup/modules/airtableManager.js:468-472 | one field gives its option iff it passes the type filter, and nothing otherwise |
| AirtableManager.FieldEntriesIsFilter | popup/modules/airtableManager.js:468-472 | the options of a concatenation of field lists are the concatenated options; with `FieldEntriesOfOne`, the options follow the fields in order and with repeats |
| AirtableManager.CreateFieldOptions | popup/modules/airtableManager.js:466-474 | the first option is always "-- Nicht zuordnen --"; every later option is that of a field passing the type filter, and every such field has its option after the placeholder |
| AirtableManager.UnfilteredOffersEveryField | popup/modules/airtableManager.js:466-474 | without a type filter every field is offered, in order, after the placeholder |
| AirtableManager.FindConfig | popup/modules/airtableManager.js:801 | the index of the first config with the id, or none |
| AirtableManager.FindTable | popup/modules/airtableManager.js:652 | the index of the first table with the id, or none when no table has it |
| AirtableManager.ToggleIsLocal | popup/modules/airtableManager.js:504-530 | an unknown config id changes nothing; otherwise only the first config with the id changes, and only in its table entries: an absent entry becomes `{isCollapsed: false}`, a present one has its flag negated (a missing flag counting as false) and keeps its mappings, and every other entry is kept |
| AirtableManager.ToggleEntryTwice | popup/modules/airtableManager.js:520-524 | toggling a recorded collapse flag twice restores the entry |
| AirtableManager.ToggleTwiceRestores | popup/modules/airtableManager.js:504-530 | toggling a table with a recorded flag twice restores the whole list |
| AirtableManager.DeleteRemovesExactlyOne | popup/modules/airtableManager.js:795-816 | deleting removes exactly the first config with the id and keeps the rest in order; an unknown id changes nothing |
| AirtableManager.RemovedAtLeavesNoDuplicate | popup/modules/airtableManager.js:795-816 | with pairwise distinct ids, removing the found config leaves no config with its id |
| AirtableManager.AddThenDeleteRestores | popup/modules/airtableManager.js:705-724 | adding a new base and deleting it by its id restores the list |
| AirtableManager.LoadKeepsConfiguration | popup/modules/airtableManager.js:612-679 | a failed load changes nothing; a load changes only the first config with the id: the fetched table replaces the table's listed entry and no other, every existing table configuration is kept, and a table without one gets the configuration auto-mapped from the fetched fields |
| AirtableManager.LoadIntoKeepsTables | popup/modules/airtableManager.js:612-679 | within one config, the fetched table replaces the entry `FindTable` finds and no other; existing table configurations are kept, and a missing one is created auto-mapped from the fetched fields |
| AirtableManager.AirtableConfigStore.constructor | popup/modules/airtableManager.js:285-286 | the store holds the stored connections |
| AirtableManager.AirtableConfigStore.ToggleCollapsible | popup/modules/airtableManager.js:504-530 | the stored list becomes the toggled list |
| AirtableManager.AirtableConfigStore.AddAirtableBase | popup/modules/airtableManager.js:705-724 | appends one empty base named "Airtable Base n+1" |
| AirtableManager.AirtableConfigStore.DeleteAirtableBase | popup/modules/airtableManager.js:795-816 | the stored list loses the config with the id |
| AirtableManager.AirtableConfigStore.LoadTableFields | popup/modules/airtableManager.js:612-679 | the stored list and the result follow the field-loading specification |
| AirtableManager.AirtableConfigStore.ConnectAndFetchTableNames | popup/modules/airtableManager.js:549-607 | the trimmed inputs are checked, and each failed check reports its own German message; a failed fetch reports "Fehler: " + its message and a missing config "Fehler: Config not found"; on any error nothing is stored; it succeeds iff the checks pass, the fetch succeeds and the config exists, and then the config gets token, base id and tables, keeps its table configurations, and the table count is reported |
| AirtableManager.ManagerNeverWritesNestedConfig | popup/modules/airtableManager.js:504-816 | no edit of the settings page ever gives a base the nested `config` object the service worker reads |
| AirtableManager.ToggleKeepsNestedConfig | popup/modules/airtableManager.js:504-530 | toggling keeps the number of configs and each config's nested `config` |
| AirtableManager.DeleteKeepsNestedConfig | popup/modules/airtableManager.js:795-816 | deleting from a list without nested `config` objects leaves a list without them |
| AirtableManager.LoadKeepsNestedConfig | popup/modules/airtableManager.js:612-679 | loading fields keeps the number of configs and each config's nested `config` |
| AirtableSender.FieldsToSend | popup/modules/airtableSender.js:27 | the record's fields when present, otherwise the empty field map |
| AirtableSender.ApiRequest | popup/modules/airtableSender.js:48-70 | a JSON POST to the base/table URL under the API root, with a bearer token, carrying one record with the fields and typecast on |
| AirtableSender.ErrorText | popup/modules/airtableSender.js:111 | the error's message when non-empty, otherwise "Unknown error"; never empty |
| AirtableSender.ErrorMessageEndsWithErrorText | popup/modules/airtableSender.js:110-127 | for every status but 401, 403, 404 and 429 the message ends with the error text |
| AirtableSender.ErrorMessageByStatus | popup/modules/airtableSender.js:110-127 | the fixed texts for 401, 403, 404 and 429; "Invalid field data: {error}" for 422; "Airtable API Error ({status}): {error}" for any other status |
| AirtableSender.FixedMessagesIgnoreError | popup/modules/airtableSender.js:110-127 | a message is independent of the error body exactly for 401, 403, 404 and 429 |
| AirtableSender.CatchMessage | popup/modules/airtableSender.js:95-101 | a message mentioning "Failed to fetch" becomes the network-error message; any other is kept |
| AirtableSender.ApiOutcome | popup/modules/airtableSender.js:62-101 | success iff a 2xx response, then the response body; a non-2xx response fails with the status message; a thrown error keeps its message unless it is a failed fetch |
| AirtableSender.Send | popup/modules/airtableSender.js:15-39 | an incomplete configuration fails before any request and leaves the limiter unchanged; otherwise the request is built from the fields, the outcome is that of the exchange, and the program's limiter replaces only the base's window by its recent part, computing its wait; on a limiter whose windows are all empty, as the shared one always is, they stay empty and no send waits |
| Background.TemplateDestinations | background.js:33-44 | one entry per template, in order, each with id "{webhook id}\|{template}" and name "{webhook name} - {template}" |
| Background.TableDestinations | background.js:58-66 | one entry per table, in order, each with id "{base id}\|{table id}" |
| Background.WebhookMenuSpec | background.js:30-52 | every template of every webhook gets its entry, a webhook without templates gets one entry with its own id, and every entry targets a stored webhook |
| Background.WebhookMenuListsDirect | background.js:43-51 | every webhook without templates has its direct entry in the menu |
| Background.WebhookMenuListsTemplates | background.js:31-42 | every template of a webhook with templates has its own entry in the menu |
| Background.WebhookMenuEntriesKnown | background.js:30-52 | every webhook menu entry is a webhook entry targeting the id of a stored webhook |
| Background.AirtableMenuSpec | background.js:56-68 | every table of a base's nested `config` gets its entry, and every entry belongs to a base that has that `config` |
| Background.AirtableMenuListsTables | background.js:56-68 | every table of a base's nested `config` has its entry in the menu |
| Background.AirtableMenuEntriesKnown | background.js:56-68 | every Airtable menu entry targets a stored base that has the nested `config` |
| Background.ManagedBasesGiveNoEntries | background.js:56-68 | bases as the settings page stores them, without nested `config`, give no context-menu entries |
| Background.BackgroundWorker.constructor | background.js:7-8 | the worker starts with no destinations and no webhooks |
| Background.BackgroundWorker.LoadDestinations | background.js:18-88 | the stored webhooks (none when absent) are kept, and the destinations become the webhook entries followed by the table entries |
| Background.CollectWebhookDestinations | background.js:30-52 | the nested loops over webhooks and their templates produce the webhook entries |
| Background.CollectAirtableDestinations | background.js:56-68 | the nested loops over bases and their tables produce the table entries |
| Background.SendItems | background.js:129-136 | one enabled child item "send-{id}" titled with the name per destination, in order |
| Background.EntriesPartition | background.js:114-115 | every destination is in exactly one of the two groups |
| Background.GroupSectionSpec | background.js:118-168 | a group section holds its disabled header iff the group is non-empty, one item per destination, and no top-level item, separator or other header |
| Background.ContextMenuSpec | background.js:91-172 | an empty list gives only "Configure Destinations"; otherwise the parent first, a header iff its group is non-empty, a separator iff both are, and one item per destination, nothing more |
| Background.FindMenuDestination | background.js:184 | the index of the first destination with the id, or none when no destination has it |
| Background.ResolveClick | background.js:175-189 | "configure" opens the popup; an id not starting with "send-" does nothing; otherwise the prefix is removed and a found destination carries exactly the rest as id |
| Background.SendItemRoundTrip | background.js:129-136 | clicking the item of a destination with an id finds a destination with that id, itself when ids are unique; a destination without id gets "send-undefined" and is never found by it |
| Background.ClickPayloadOf | background.js:191-211 | the url is the link, else the image source, else the tab url; notes are the selection or ""; the context type is never empty; the description is absent exactly when the page script failed |
| Background.FindWebhook | background.js:243 | the first webhook whose id equals the given one, an absent id matching an absent id; none when no webhook has it |
| Background.SendToWebhook | background.js:242-265 | an unknown webhook or one without url fails with "Webhook configuration not found" before any request; a found webhook with a url is always posted to; the post carries the payload with the template set when one is named; success iff the post gets a 2xx response; a non-2xx response reads "Webhook failed: {status} {statusText}", and a thrown fetch keeps its message |
| Background.FindBase | background.js:271 | the first base with the id, or none when no base has it |
| Background.ClickFields | background.js:283-295 | url, title and notes under their mapped ids, later ones winning a shared id; a missing url and empty notes are not sent; nothing else is sent |
| Background.SendToAirtable | background.js:268-316 | a missing base or nested `config` and missing field mappings fail before any request; a base with a nested `config` and mappings for the table always gets a request; the request goes to the nested base id and token with the assembled fields; success iff the request gets a 2xx response; a non-2xx response reads "Airtable failed: " and the error message or status text, and a thrown fetch keeps its message |
| Background.OnClicked | background.js:175-239 | "configure" opens the popup; a send happens iff the item resolves to a destination; the post is exactly that of the destination's send, webhook or Airtable, and no other post is made; the notification is "Sent to {name}" iff that send succeeded and the send's error message otherwise; the description is absent iff the page script failed |
| Background.ClickOnSendItem | background.js:175-239 | with unique ids, clicking a destination's item sends to that destination with the click's payload |
| Background.TemplatedClickSendsTemplate | background.js:30-265 | a click on a templated webhook item posts to that webhook's url with the template name set |
| Background.TemplatedWebhookPost | background.js:242-265 | for a stored webhook with a url and a non-empty template name, the post goes to that url with the template set to the name |
| Common.IndexOf | background.js:183-184 | `indexOf`: the first position at which the pattern occurs, or none when it occurs nowhere |
| Common.ReplaceFirstOfPrefix | background.js:183-184 | replacing the first occurrence of a prefix with "" strips exactly that prefix |
| Common.TrimEmptyIffBlank | popup/modules/webhookManager.js:270-274 | a string trims to "" iff it is all whitespace |
| Common.TrimIsTrimmed | popup/modules/airtableManager.js:553-554 | trimming is idempotent |
| Common.ToLower | popup/modules/airtableManager.js:695 | `toLowerCase`: each character is replaced by its lower-case form, the length is kept |
| Common.NatToString | popup/modules/airtableManager.js:596 | the text of a count is a non-empty string of decimal digits |
| Common.ParseIntOfNatToString | popup/modules/webhookManager.js:245-251 | parseInt reads back exactly the number whose decimal text it is given |
| Common.ParseIntOfDigits | popup/modules/webhookManager.js:245-246 | a non-empty string of decimal digits parses to its decimal value |
| FileHandler.AttachmentArray.constructor | popup/modules/fileHandler.js:6 | a new array holds the given attachments |
| FileHandler.Judge | popup/modules/fileHandler.js:54-61 | a file is refused as too large iff it exceeds 10 MB, and admitted iff it does not and the running total plus it stays within 10 MB |
| FileHandler.AdmissionSpec | popup/modules/fileHandler.js:50-86 | one verdict per file; every oversized file is refused; the total grows by exactly the admitted sizes; the batch never takes the total over the cap unless it admitted nothing |
| FileHandler.VerdictAt | popup/modules/fileHandler.js:53-63 | the verdict on a file is the checks applied to the total the earlier files left |
| FileHandler.CapBoundary | popup/modules/fileHandler.js:7 | a file of exactly 10 MB is admitted into an empty list; one byte more is refused whatever the list holds |
| FileHandler.AttachmentList.constructor | popup/modules/fileHandler.js:6-17 | the handler's list starts empty and is the same array as the global one |
| FileHandler.AttachmentList.HandleFiles | popup/modules/fileHandler.js:50-86 | the loop computes the verdicts from the current list's estimated size and reads exactly the admitted files, in order |
| FileHandler.AttachmentList.OnFileLoaded | popup/modules/fileHandler.js:66-80 | a loaded file is appended iff no listed file has the same name and content; otherwise the list is unchanged |
| FileHandler.AttachmentList.RemoveAt | popup/modules/fileHandler.js:103-111 | a valid index removes exactly that entry; NaN or an index out of range changes nothing |
| FileHandler.RemovalKeepsNoCopies | popup/modules/fileHandler.js:106-107 | removing an entry keeps the others in order and keeps the list free of copies |
| FileHandler.AttachmentList.ClearAttachments | popup/modules/fileHandler.js:118-122 | as written: both lists become new, empty and different arrays |
| FileHandler.AttachmentList.ClearAttachmentsShared | popup/modules/fileHandler.js:118-122 | corrected: one new, empty array shared by the handler and the global |
| FileHandler.ClearThenLoad | popup/modules/fileHandler.js:118-122 | as written: after a clear, a loaded file is listed but the global list the sender reads stays empty |
| FileHandler.ClearSharedThenLoad | popup/modules/fileHandler.js:118-122 | corrected: after a clear, the sender sees exactly the listed file |
| Popup.WebhookDestinations | popup/popup.js:114-123 | one webhook destination per stored webhook, in order |
| Popup.AirtableDestinations | popup/popup.js:126-135 | one Airtable destination per stored base, in order |
| Popup.GroupsPartition | popup/popup.js:180-192 | every destination is in exactly one of the two type filters |
| Popup.FilterConcat | popup/popup.js:180-192 | each type filter distributes over concatenation |
| Popup.FilterOfAllWebhooks | popup/popup.js:180-192 | a list of webhook destinations only passes the webhook filter unchanged and the Airtable filter not at all |
| Popup.FilterOfAllBases | popup/popup.js:180-192 | a list of base destinations only passes the Airtable filter unchanged and the webhook filter not at all |
| Popup.MergedSpec | popup/popup.js:94-151 | the loaded list has one entry per webhook followed by one per base, each with its stored configuration and id |
| Popup.MergedGroups | popup/popup.js:94-204 | filtering the loaded list by type gives back the webhooks and the bases, each in stored order |
| Popup.DisplayNameSpec | popup/popup.js:119-132 | every display name is the kind's icon, a space and the name ("undefined" when absent) |
| Popup.OptionsOf | popup/popup.js:184-199 | one option per destination, in order |
| Popup.GroupedOptionsOfGroup | popup/popup.js:181-201 | a group offers exactly its destinations' options |
| Popup.DropdownGroups | popup/popup.js:162-204 | an empty list gives the placeholder and a disabled "No destinations configured"; otherwise the placeholder first, a webhook group iff a webhook exists, an Airtable group iff a base exists |
| Popup.DropdownOptions | popup/popup.js:162-204 | the groups offer one option per destination, webhooks first, each kind in list order |
| Popup.WebhooksNonEmpty | popup/popup.js:181-193 | a type filter is non-empty iff a destination of that type exists |
| Popup.DropdownOfMerged | popup/popup.js:94-204 | for a loaded list the dropdown offers the destinations in loaded order |
| Popup.FindDestination | popup/popup.js:226 | the index of the first destination with the id, or none when no destination has it |
| Popup.PopupState.constructor | popup/popup.js:13-19 | the popup starts with no destinations and none selected |
| Popup.PopupState.LoadDestinations | popup/popup.js:94-157 | the destinations become the merged list; the status is shown iff the list is empty; the selection is kept |
| Popup.PushWebhooks | popup/popup.js:113-123 | the `forEach` over the webhooks pushes exactly their destinations, in stored order |
| Popup.PushAirtableBases | popup/popup.js:125-135 | the `forEach` over the bases pushes exactly their destinations, in stored order |
| Popup.PopupState.RenderFieldsForDestination | popup/popup.js:209-252 | an empty id selects nothing; an unknown id reports "not found"; a known id makes its destination current; the list never changes |
| Popup.SelectableAfterLoad | popup/popup.js:94-252 | after loading, every stored base with a non-empty id can be selected by it and selects an entry with that id |
| Popup.InputKindByType | popup/popup.js:469-552 | the input for each field type: textarea, checkbox, single or multiple select with a leading empty option, number, date, date-time, else text; select options follow the collaborators or choices in order |
| Popup.FindField | popup/popup.js:432 | the first field with the id, or none when no field has it |
| Popup.CustomElementsSpec | popup/popup.js:440-448 | the custom elements are the selected ids that name an existing field, in stored order, each with element id "airtable-field-"+id |
| Popup.TableFormSpec | popup/popup.js:367-464 | a rendered form exists only for a chosen table whose schema is found, configured and loaded, and then holds the notes element first when notes are mapped to a present field, followed by the known custom fields in stored order |
| Popup.FindTableOf | popup/popup.js:385 | the first of the base's tables with the id; none found means the base has no tables or none with the id |
| Popup.TableFormStops | popup/popup.js:367-403 | no table chosen iff the id is empty; a missing schema or configuration shows the configuration-missing message; a schema whose fields are not loaded shows no form |
| Popup.FormElementsShape | popup/popup.js:429-448 | the rendered elements are the notes element first when notes are mapped to a present field, then one element per known custom field, whatever the collaborators |
| Popup.NotesElementsShape | popup/popup.js:429-437 | at most one notes element, present independently of the collaborators, with element id "airtable-field-notes" and the mapped field |
| Popup.FindTemplate | popup/popup.js:313 | the first template with the name, or none when no template has it |
| Popup.DescriptionOfSavedTemplates | popup/popup.js:301-319 | for templates saved from the form, the description shown is that of the first row with the selected name, or "" for a name no row has |
| Popup.TemplateDescriptionSpec | popup/popup.js:301-319 | for any webhook, imported ones with repeated names included: no selection or no template with the name shows "", otherwise the description of the first template with the name |
| RateLimiter.RecentKeepsOrder | popup/modules/rateLimiter.js:29 | filtering a window keeps exactly the timestamps less than 1000 ms old, in order, and distributes over concatenation |
| RateLimiter.RecentMembers | popup/modules/rateLimiter.js:29 | a timestamp survives the filter iff it was stored and is less than one window old; the filter never grows the window |
| RateLimiter.WaitBounds | popup/modules/rateLimiter.js:33-39 | a wait happens iff five or more recent timestamps are stored, and then lasts more than the 10 ms buffer and at most a window plus the buffer |
| RateLimiter.WaitNotNegative | popup/modules/rateLimiter.js:33-35 | the scheduled wait is always positive |
| RateLimiter.RemoveFirst | popup/modules/rateLimiter.js:49-52 | removing the first occurrence of a timestamp leaves an absent one's window unchanged and shortens a present one's by one |
| RateLimiter.AirtableRateLimiter.constructor | popup/modules/rateLimiter.js:7-12 | a new limiter stores no windows |
| RateLimiter.AirtableRateLimiter.Throttle | popup/modules/rateLimiter.js:20-55 | as written: the stored window becomes the filtered copy, the timestamp is pushed on the discarded array, the wait is the one computed from the filtered window, the operation's result passes through, and with every stored window empty no call ever waits |
| RateLimiter.AirtableRateLimiter.ClearQueue | popup/modules/rateLimiter.js:61-63 | removes exactly the base's window |
| RateLimiter.AirtableRateLimiter.ClearAllQueues | popup/modules/rateLimiter.js:68-70 | removes every window |
| RateLimiter.AirtableRateLimiter.GetQueueStatus | popup/modules/rateLimiter.js:77-87 | reports the recent count, the remaining capacity of five minus it, and whether it is below five, changing nothing |
| RateLimiter.SixCallsAtOnce | popup/modules/rateLimiter.js:20-55 | six calls for one base at the same instant on a fresh limiter: none waits |
| RateLimiter.RecentOfAllRecent | popup/modules/rateLimiter.js:29 | a window of recent timestamps passes the filter unchanged |
| RateLimiter.RecentOfSorted | popup/modules/rateLimiter.js:29 | filtering a sorted window drops exactly a prefix of too-old timestamps |
| RateLimiter.SplitAtRecent | popup/modules/rateLimiter.js:29-30 | the filtered window is the suffix of the record of starts that is less than a window old |
| RateLimiter.RecentAtMostLimit | popup/modules/rateLimiter.js:3 | a record with no six starts within a window holds at most five recent ones |
| RateLimiter.AppendKeepsSpaced | popup/modules/rateLimiter.js:33-42 | appending a start one window plus the buffer after the fifth-last keeps no six starts within a window |
| RateLimiter.AdmitKeepsWindow | popup/modules/rateLimiter.js:29-42 | admitting after the computed wait keeps the stored window the recent suffix of the record |
| RateLimiter.LaterClockKeepsWindow | popup/modules/rateLimiter.js:26 | the window invariant survives the clock moving forward |
| RateLimiter.AdmitKeepsValid | popup/modules/rateLimiter.js:20-42 | one admission keeps the limiter invariant and leaves the key's record with no six starts within 1000 ms |
| RateLimiter.IntendedRateLimiter.constructor | popup/modules/rateLimiter.js:7-12 | a new limiter stores no windows and satisfies the invariant |
| RateLimiter.IntendedRateLimiter.Throttle | popup/modules/rateLimiter.js:20-55 | corrected: the start is pushed onto the stored window; the invariant holds afterwards and no six starts for one base lie within one second |
| Sender.MetaDescription | popup/modules/sender.js:35-47 | a chrome:// or edge:// page gets an empty description; any other page gets the script's result, or "" when it gave none |
| Sender.SendToWebhook | popup/modules/sender.js:124-167 | a webhook without url fails before any request; otherwise a JSON POST to its url carrying the page fields, the selected template ("" when none) and the formatted time; success iff a 2xx response; a failure reads "Webhook {status} {statusText}"; a thrown error keeps its message |
| Sender.WebhookFailureIgnoresBody | popup/modules/sender.js:154-159 | the failure message does not depend on the response body; a 500 reads "Webhook 500 " and the status text |
| Sender.LeadTemplateScenario | popup/modules/sender.js:131-143 | with template "Lead" selected and no files, the posted body has template "Lead" and no attachments |
| Sender.NonEmpty | popup/modules/sender.js:234-236 | a value is kept iff it is a non-empty selected value; never more values than selected |
| Sender.NonEmptyIsFilter | popup/modules/sender.js:234-236 | the kept values follow the selection in order and with repeats: one value is kept iff it is non-empty, and a concatenation gives the concatenated values |
| Sender.WrittenSpec | popup/modules/sender.js:214-249 | a checkbox writes its checked state; a multiple select writes its non-empty selected values, an empty list when all are empty; a single select or text input writes its value iff non-empty |
| Sender.NonEmptyOfBlank | popup/modules/sender.js:234-236 | a selection of only empty values gives the empty list |
| Sender.LastWriter | popup/modules/sender.js:214-250 | the last input writing the field id, or none when no input writes it |
| Sender.ApplyInputsSpec | popup/modules/sender.js:196-250 | each field id holds the value of the last input that writes it; an id no input writes keeps its mapped value or stays absent |
| Sender.ApplyInputsKeys | popup/modules/sender.js:196-250 | every key sent was mapped or written by an input |
| Sender.CollectFields | popup/modules/sender.js:214-250 | the loop over the inputs assembles the fields the specification gives |
| Sender.MappedFields | popup/modules/sender.js:196-208 | the url and the title under their mapped ids, the title winning a shared id, nothing else |
| Sender.RenderedFieldWrites | popup/modules/sender.js:214-249 | an input rendered for a checkbox field writes a flag, for a multiple-collaborator field a list, and for any other field text or nothing |
| Sender.RecordIdOf | popup/modules/sender.js:279 | the first record's id when present, otherwise "unknown"; never empty |
| Sender.AirtableFailsBeforeRequest | popup/modules/sender.js:172-187 | an unknown table or a table without configuration fails with its message before any request, and a request is made iff the checks and the sender's configuration check pass |
| Sender.AirtableRequestFields | popup/modules/sender.js:196-274 | the request goes to the base/table URL with one record and typecast, and a mapped url or title no input overwrites is sent under its id |
| Sender.MappedUrlTitleScenario | popup/modules/sender.js:196-274 | url mapped to "fldA" and title to "fldB" with no inputs sends exactly those two fields |
| Sender.SendToAirtable | popup/modules/sender.js:172-287 | the request and result follow the Airtable send specification; no request leaves the limiter unchanged; a request goes through the program's limiter, which keeps only the recent part of the base's window and computes the wait from it; with all windows empty nothing waits |
| Sender.RouteSpec | popup/modules/sender.js:19-84 | no usable tab, no destination chosen and an unknown destination abort with their messages; a route carries the chosen destination, and an Airtable route needs a table |
| Sender.Send | popup/modules/sender.js:12-93 | an abort reports its message and records nothing; a webhook or Airtable send reports its result and records the destination as last used only on success, an Airtable one as "{id}\|{table}" and "{name} - {table name}"; the shared limiter's windows stay empty |
| WebhookManager.MaxIdNumIsMaximum | popup/modules/webhookManager.js:242-249 | the computed maximum bounds the number of every "webhook"-prefixed id and is 0 or one of them |
| WebhookManager.NumberOfId | popup/modules/webhookManager.js:245 | the number read from an id "webhook"+digits is parseInt of the digits |
| WebhookManager.NotNewId | popup/modules/webhookManager.js:251 | a config whose number is at most the maximum never has the new id |
| WebhookManager.NewIdIsFresh | popup/modules/webhookManager.js:238-262 | the new webhook's id differs from every stored id |
| WebhookManager.AddNewWebhookKeepsIdsUnique | popup/modules/webhookManager.js:238-262 | adding a webhook keeps stored ids pairwise distinct |
| WebhookManager.SavedTemplatesSpec | popup/modules/webhookManager.js:290-309 | saved templates have distinct non-empty names, every named row is represented, and by its first occurrence |
| WebhookManager.SaveChangesOneEntry | popup/modules/webhookManager.js:269-318 | an empty url alerts, an unparsable one alerts, and neither changes anything; a save changes only the one webhook: the trimmed url, the trimmed label or "Webhook {id}" for a blank one, the saved templates, every other field kept; a save reports one duplicate-name alert per repeated named row |
| WebhookManager.Without | popup/modules/webhookManager.js:382 | exactly the templates not named so, never more |
| WebhookManager.WithoutKeepsOrder | popup/modules/webhookManager.js:382 | the removal distributes over concatenation |
| WebhookManager.WithoutAbsentIsIdentity | popup/modules/webhookManager.js:382 | removing an absent name leaves the templates as they are |
| WebhookManager.AddTemplateKeepsNamesDistinct | popup/modules/webhookManager.js:340-373 | a cancelled prompt changes nothing silently; a blank one alerts "Template name cannot be empty."; an index out of range changes nothing; a taken trimmed name alerts "Template \"{name}\" already exists for this webhook." and changes nothing; a fresh one is appended with an empty description, changing nothing else and keeping names distinct |
| WebhookManager.RemoveTemplateSpec | popup/modules/webhookManager.js:375-390 | removal changes only the one webhook, whose templates become those with another name |
| WebhookManager.AddThenRemoveTemplate | popup/modules/webhookManager.js:340-390 | adding a template and removing it by name restores the list |
| WebhookManager.Import | popup/modules/webhookManager.js:414-459 | the list changes only for a confirmed JSON array, which then replaces it item by item when every item is valid |
| WebhookManager.ImportRefusesInvalidItem | popup/modules/webhookManager.js:427-438 | one invalid element refuses the whole import with its message |
| WebhookManager.WebhookStore.constructor | popup/modules/webhookManager.js:68-72 | the store holds the stored webhooks |
| WebhookManager.WebhookStore.AddNewWebhook | popup/modules/webhookManager.js:238-262 | appends one webhook numbered one past the maximum |
| WebhookManager.HighestIdNumber | popup/modules/webhookManager.js:242-250 | the loop leaves the largest numeric suffix of a `webhook`-prefixed id, 0 when there is none |
| WebhookManager.WebhookStore.SaveWebhook | popup/modules/webhookManager.js:269-318 | the list and the outcome follow the save specification |
| WebhookManager.ReadTemplateRows | popup/modules/webhookManager.js:292-307 | the `forEach` over the template rows produces exactly the saved-template list and raises one duplicate-name alert per repeated named row |
| WebhookManager.SavedNamesAreTags | popup/modules/webhookManager.js:296-307 | every saved template name is the tag of some row |
| WebhookManager.AlertedRowsShareName | popup/modules/webhookManager.js:299-303 | an alert is raised only when two named rows carry the same name |
| WebhookManager.SharedNameAlerts | popup/modules/webhookManager.js:299-303 | two named rows carrying the same name always raise an alert |
| WebhookManager.DuplicateRowsSpec | popup/modules/webhookManager.js:299-303 | the duplicate-name alert is shown iff two named rows carry the same name |
| WebhookManager.SavedOrAlerted | popup/modules/webhookManager.js:296-307 | every named row is either saved or alerted on: saved templates plus alerts equal the named rows |
| WebhookManager.WebhookStore.DeleteWebhook | popup/modules/webhookManager.js:320-338 | a confirmed delete of a valid index removes exactly that entry; otherwise nothing changes |
| WebhookManager.WebhookStore.AddTemplate | popup/modules/webhookManager.js:340-373 | the list and the alert follow the add-template specification |
| WebhookManager.WebhookStore.RemoveTemplate | popup/modules/webhookManager.js:375-390 | the list follows the removal specification |
| WebhookManager.WebhookStore.ImportWebhooks | popup/modules/webhookManager.js:414-459 | the list and the status follow the import specification |
| Background.TemplateEntryListed | background.js:30-74 | the entry of every template of every stored webhook is in the flattened list |
| Background.FindWebhookUnique | background.js:243 | with unique ids, looking a webhook up by its own id finds it |

## Left out

- Network, storage, tabs, scripting, notifications, context-menu, file-reader and dialog calls: their results are parameters. A failing storage read and what Chrome does with an item's missing title are not modelled.
- FetchTableFields, FetchTableNames and FetchCollaboratorsFromRecords: their requests also pass through the shared limiter (popup/modules/airtableManager.js:41, 102, 186, 224). That limiter never waits, so the model takes each response as a parameter and does not record the empty window the call leaves for the base.
- Concurrency: interleavings of asynchronous calls, in particular of concurrent `throttle` calls for one base, need a concurrency model the project does not have.
- Timers and the clock: `Date.now()` and the ISO timestamp are parameters, and a wait is returned as a delay rather than slept.
- `new URL(...)` validity is a predicate parameter of `WebhookManager.SaveWebhook`, because URL parsing is library code.
- `JSON.parse`/`JSON.stringify` are left out, because request and response bodies are modelled as structured values.
- `encodeURIComponent` in the webhook export is left out, because it is library code.
- `toLocaleDateString` in the timestamp formatter (popup/modules/sender.js:109-118) is left out; the formatted time is a parameter.
- The base64 size estimate `length × 3/4` (popup/modules/fileHandler.js:51) is compared in quarter bytes as `3 · length`, so there is no fractional arithmetic.
- DOM and HTML-string rendering is left out, because it is presentation only: `renderAirtableList`, the `create…HTML` helpers, `renderWebhookList`, `renderWebhookFields`, `updateFileList`, `updateTemplateOptions`, table selects, and `showStatus`/`showResults`/`showFeedback` display and auto-hide. Only the selection and ordering logic the rendering uses is modelled.
- `saveAirtableConnection` (popup/modules/airtableManager.js) is left out: it only scrapes form inputs into the stored list and saves it.
- In popup/modules/webhookManager.js, `exportWebhooks`, `loadConfigurations`, `updateTemplateOptions` and `updateTemplateDescription` are left out: they are a file download and dropdown refreshes that only fill DOM selects. The popup's own template-description lookup is modelled as `Popup.TemplateDescriptionSpec` and `Popup.DescriptionOfSavedTemplates`.
- popup/popup.js `initializePopup`, `setupEventListeners`, `saveFormData`/`clearFormData`, `debugStorage` and `clearAllStorage` are left out; they are event wiring and storage wrappers.
- fileHandler `init`, its drag-and-drop handlers and `saveToSession` are left out, because they are DOM events and storage.
- background.js's `onStartup`/`onInstalled` and storage-change listeners (background.js:11-15, 318-331) are left out; they only call the modelled `loadDestinations` and menu rebuild.
- popup/modules/storage.js, popup/modules/theme.js, tailwind.config.js and the legacy root popup.js are not part of this model: they are storage and theme wrappers, build configuration, and a superseded popup.
- The `Ungültiger Destination-Typ` branch of popup/modules/sender.js is not modelled, because a destination is either a webhook or an Airtable base by construction.
- The console warning printed when collaborator fetching fails is not modelled; only the returned list is.
- `Background.ClickPayloadOf`: the tab's title is taken as present (a string).
- `Common.ToLower`: folds only A-Z and the Latin-1 capitals, not all Unicode case mappings, because field names are matched against ASCII keywords.
- `Common.Trim`: removes the whitespace characters of ECMAScript's WhiteSpace and LineTerminator productions. Characters outside that list are kept, as in JavaScript.
- Only some ids and names are optional. A webhook's `id`, `label`, `url`, `templates` and legacy `name`, a nested `config`'s fields, and the ids and names of menu and popup destinations are `Option<string>`, printed through `Common.Show` with an absent one as `undefined`. Webhook ids are only ever absent or strings: an import accepts any item that has an `id` key (popup/modules/webhookManager.js:431-433), so an imported `null` or numeric id, which would print as "null" or "5" in `send-${id}`, `Webhook ${id}` and `${webhook.id}|${template}`, is not represented.
- `WebhookManager.Template`: a template's `name` is a plain string. An imported template without a `name` would give the menu id `{id}|undefined` and `templateName: undefined` (background.js:35-39), which the worker's send skips (background.js:250). The model does not represent such a template. A template's `description` is likewise always a string.
- `AirtableManager.BaseConfig` and `AirtableManager.Table`: a stored base's `id`, `name`, `token` and `baseId`, and a table's `id` and `name`, are plain strings. The settings page always writes them as strings, and the model does not represent a hand-edited storage entry where they are missing.
- Integers are unbounded. The source's numbers are doubles, but every count, size and timestamp it handles stays far below 2^53.

## Findings

| source | as written | input that shows it | evidently intended | confidence | as-written member | corrected member |
|---|---|---|---|---|---|---|
| popup/modules/rateLimiter.js:25-42 | `queue` is captured before the map entry is replaced by the filtered copy, so `queue.push` lands on an array no longer in the map; every stored window stays empty and the wait never fires | six `throttle` calls for one base at the same instant on a new limiter: none waits | the timestamp is pushed onto the stored window, so a sixth call within one second waits | not executed | RateLimiter.SixCallsAtOnce | RateLimiter.IntendedRateLimiter.Throttle |
| popup/modules/fileHandler.js:118-122 | `clearAttachments` assigns two different new arrays to `this.attachments` and `window.attachments`, so files added after a clear never reach the list the sender and storage read | clear, then load one file: the popup lists it but the sent attachments are empty | both names refer to one new, empty array | not executed | FileHandler.ClearThenLoad | FileHandler.ClearSharedThenLoad |
