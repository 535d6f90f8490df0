/**
 * The Airtable configuration manager: validating connection parameters,
 * shaping the metadata API's answers in two phases (table names first, one
 * table's fields on demand), extracting collaborators from existing records,
 * proposing field mappings, and the in-place edits of the stored list of base
 * connections.
 *
 * Storage and the network are parameters: `AirtableConfigStore.configs` is the
 * stored `airtableConfigs` list, and each request is given by its `Exchange`.
 */
module AirtableManager {
  import opened Common
  import opened AirtableSender

  // ---------------------------------------------------------------------------
  // Data model
  // ---------------------------------------------------------------------------

  datatype Choice = Choice(id: string, name: string)

  /** A field as the metadata API describes it. */
  datatype SchemaField = SchemaField(id: string, name: string, fieldType: string, choices: Option<seq<Choice>>)
  datatype SchemaTable = SchemaTable(id: string, name: string, primaryFieldId: Option<string>, fields: seq<SchemaField>)

  /** The body of `GET /v0/meta/bases/{baseId}/tables`. */
  datatype MetaBody = MetaBody(tables: Option<seq<SchemaTable>>, error: Option<ApiError>)

  /** The options kept for a field: the choices of a select field, an empty
      object for a collaborator field, none for any other type. */
  datatype FieldOptions = NoOptions | SelectOptions(choices: seq<Choice>) | CollaboratorOptions

  datatype Field = Field(id: string, name: string, fieldType: string, options: FieldOptions)

  /** A table as stored: `fields` is absent until its fields are loaded. */
  datatype Table = Table(id: string, name: string, primaryFieldId: Option<string>,
                         fieldsLoaded: bool, fields: Option<seq<Field>>)

  /** The four standard values a table can map to its fields. */
  datatype Role = Url | Title | Notes | Attachments

  /** role -> field id */
  type FieldMappings = map<Role, string>

  /** `configuredTables[tableId]` */
  datatype TableConfig = TableConfig(fieldMappings: Option<FieldMappings>,
                                     selectedCustomFields: Option<seq<string>>,
                                     isCollapsed: Option<bool>)

  /** The nested `config` object the context menu reads; no operation of the
      manager writes it. */
  datatype NestedConfig = NestedConfig(name: Option<string>, token: Option<string>, baseId: Option<string>,
                                       tables: Option<seq<Table>>,
                                       configuredTables: Option<map<string, TableConfig>>)

  /** One stored base connection. */
  datatype BaseConfig = BaseConfig(id: string, name: string, token: string, baseId: string,
                                   tables: Option<seq<Table>>,
                                   configuredTables: Option<map<string, TableConfig>>,
                                   config: Option<NestedConfig>)

  // ---------------------------------------------------------------------------
  // Validation
  // ---------------------------------------------------------------------------

  const TokenFormatMessage := "Invalid token format. Token must start with \"pat\""
  const BaseFormatMessage := "Invalid Base ID format. Base ID must start with \"app\""
  const TableFormatMessage := "Invalid Table ID format. Table ID must start with \"tbl\""

  /** The checks `fetchTableNames` makes before any request; the first failing
      one gives the error. */
  function CheckConnection(token: string, baseId: string): Option<string>
  {
    if token == "" || baseId == "" then Some("Missing Token or Base ID.")
    else if !StartsWith(token, "pat") then Some(TokenFormatMessage)
    else if !StartsWith(baseId, "app") then Some(BaseFormatMessage)
    else None
  }

  /** The checks `fetchTableFields` makes before any request. */
  function CheckTableRequest(token: string, baseId: string, tableId: string): Option<string>
  {
    if token == "" || baseId == "" || tableId == "" then Some("Missing Token, Base ID, or Table ID.")
    else if !StartsWith(token, "pat") then Some(TokenFormatMessage)
    else if !StartsWith(baseId, "app") then Some(BaseFormatMessage)
    else if !StartsWith(tableId, "tbl") then Some(TableFormatMessage)
    else None
  }

  /** Both fetches accept exactly the tokens starting with `pat` and the base ids
      starting with `app`, and reject them with the same messages in the same
      order; the field fetch also demands a table id starting with `tbl`. */
  lemma ValidationOrder(token: string, baseId: string, tableId: string)
    ensures CheckConnection(token, baseId).None? <==> StartsWith(token, "pat") && StartsWith(baseId, "app")
    ensures CheckTableRequest(token, baseId, tableId).None? <==>
      CheckConnection(token, baseId).None? && StartsWith(tableId, "tbl")
    ensures tableId != "" && CheckConnection(token, baseId).Some? ==>
      CheckTableRequest(token, baseId, tableId) == CheckConnection(token, baseId)
        || CheckConnection(token, baseId) == Some("Missing Token or Base ID.")
  {
  }

  /** `errorData.error?.message || \`HTTP ${status}: ${statusText}\`` */
  function HttpFailureMessage(status: int, statusText: string, error: Option<ApiError>): string
  {
    if error.Some? && Truthy(error.value.message) then error.value.message.value
    else "HTTP " + IntToString(status) + ": " + statusText
  }

  // ---------------------------------------------------------------------------
  // Phase 1 and phase 2 of the schema
  // ---------------------------------------------------------------------------

  /** `data.tables || []` */
  function TablesOf(body: MetaBody): seq<SchemaTable>
  {
    if body.tables.Some? then body.tables.value else []
  }

  /** A table listed by name only; its fields are not loaded. */
  function TableStub(t: SchemaTable): Table
  {
    Table(t.id, t.name, None, false, None)
  }

  /** `fetchTableNames({token, baseId})` */
  function FetchTableNames(token: string, baseId: string, outcome: Exchange<MetaBody>): (r: Result<seq<Table>>)
    ensures CheckConnection(token, baseId).Some? ==> r == Err(CheckConnection(token, baseId).value)
    ensures r.Ok? <==> CheckConnection(token, baseId).None? && outcome.Responded? && IsSuccess(outcome.status)
    ensures r.Ok? ==>
      var ts := TablesOf(outcome.body);
      && |r.value| == |ts|
      && forall i :: 0 <= i < |ts| ==>
           r.value[i].id == ts[i].id && r.value[i].name == ts[i].name
           && !r.value[i].fieldsLoaded && r.value[i].fields.None?
  {
    match CheckConnection(token, baseId)
    case Some(message) => Err(message)
    case None =>
      match outcome
      case Thrown(message) => Err(message)
      case Responded(status, statusText, body) =>
        if !IsSuccess(status) then Err(HttpFailureMessage(status, statusText, body.error))
        else
          var ts := TablesOf(body);
          Ok(seq(|ts|, i requires 0 <= i < |ts| => TableStub(ts[i])))
  }

  predicate IsSelectType(fieldType: string)
  {
    fieldType == "singleSelect" || fieldType == "multipleSelects"
  }

  predicate IsCollaboratorType(fieldType: string)
  {
    fieldType == "singleCollaborator" || fieldType == "multipleCollaborators"
  }

  /** One field as `fetchTableFields` keeps it. */
  function ShapeField(f: SchemaField): (g: Field)
    ensures g.id == f.id && g.name == f.name && g.fieldType == f.fieldType
    ensures IsSelectType(f.fieldType) ==> g.options == SelectOptions(if f.choices.Some? then f.choices.value else [])
    ensures IsCollaboratorType(f.fieldType) ==> g.options == CollaboratorOptions
    ensures !IsSelectType(f.fieldType) && !IsCollaboratorType(f.fieldType) ==> g.options == NoOptions
  {
    var options :=
      if IsSelectType(f.fieldType) then SelectOptions(if f.choices.Some? then f.choices.value else [])
      else if IsCollaboratorType(f.fieldType) then CollaboratorOptions
      else NoOptions;
    Field(f.id, f.name, f.fieldType, options)
  }

  /** `tables.find(t => t.id === tableId)`, as an index. */
  function FindSchemaTable(ts: seq<SchemaTable>, tableId: string): (r: Option<nat>)
    ensures r.Some? ==> r.value < |ts| && ts[r.value].id == tableId
    ensures r.Some? ==> forall j :: 0 <= j < r.value ==> ts[j].id != tableId
    ensures r.None? ==> forall j :: 0 <= j < |ts| ==> ts[j].id != tableId
  {
    if ts == [] then None
    else if ts[0].id == tableId then Some(0)
    else match FindSchemaTable(ts[1..], tableId)
      case None => None
      case Some(k) => Some(k + 1)
  }

  /** The table with its fields, as phase 2 returns it. */
  function LoadedTable(t: SchemaTable): Table
  {
    Table(t.id, t.name, t.primaryFieldId, true, Some(seq(|t.fields|, i requires 0 <= i < |t.fields| => ShapeField(t.fields[i]))))
  }

  /** `fetchTableFields({token, baseId}, tableId)` */
  function FetchTableFields(token: string, baseId: string, tableId: string, outcome: Exchange<MetaBody>)
    : (r: Result<Table>)
    ensures CheckTableRequest(token, baseId, tableId).Some? ==> r == Err(CheckTableRequest(token, baseId, tableId).value)
    ensures r.Ok? ==> CheckTableRequest(token, baseId, tableId).None? && outcome.Responded? && IsSuccess(outcome.status)
    ensures r.Ok? ==>
      && r.value.id == tableId && r.value.fieldsLoaded && r.value.fields.Some?
      && exists k :: 0 <= k < |TablesOf(outcome.body)| && TablesOf(outcome.body)[k].id == tableId
           && r.value == LoadedTable(TablesOf(outcome.body)[k])
           && |r.value.fields.value| == |TablesOf(outcome.body)[k].fields|
    ensures CheckTableRequest(token, baseId, tableId).None? && outcome.Responded? && IsSuccess(outcome.status)
      && (forall k :: 0 <= k < |TablesOf(outcome.body)| ==> TablesOf(outcome.body)[k].id != tableId)
      ==> r == Err("Table " + tableId + " not found in base " + baseId)
    ensures CheckTableRequest(token, baseId, tableId).None? && outcome.Thrown? ==> r == Err(outcome.message)
    ensures CheckTableRequest(token, baseId, tableId).None? && outcome.Responded? && !IsSuccess(outcome.status)
      ==> r == Err(HttpFailureMessage(outcome.status, outcome.statusText, outcome.body.error))
    ensures CheckTableRequest(token, baseId, tableId).None? && outcome.Responded? && IsSuccess(outcome.status)
      ==> forall k :: 0 <= k < |TablesOf(outcome.body)| && TablesOf(outcome.body)[k].id == tableId
            && (forall j :: 0 <= j < k ==> TablesOf(outcome.body)[j].id != tableId)
            ==> r == Ok(LoadedTable(TablesOf(outcome.body)[k]))
  {
    match CheckTableRequest(token, baseId, tableId)
    case Some(message) => Err(message)
    case None =>
      match outcome
      case Thrown(message) => Err(message)
      case Responded(status, statusText, body) =>
        if !IsSuccess(status) then Err(HttpFailureMessage(status, statusText, body.error))
        else
          match FindSchemaTable(TablesOf(body), tableId)
          case None => Err("Table " + tableId + " not found in base " + baseId)
          case Some(k) => Ok(LoadedTable(TablesOf(body)[k]))
  }

  // ---------------------------------------------------------------------------
  // Collaborators from existing records
  // ---------------------------------------------------------------------------

  /** A collaborator value found in a record; any part may be missing. */
  datatype CollabValue = CollabValue(id: Option<string>, name: Option<string>, email: Option<string>)

  /** The value of a collaborator cell: missing or falsy, one value, or an array
      whose elements may be null. */
  datatype CellValue = NoValue | Single(value: CollabValue) | Multiple(items: seq<Option<CollabValue>>)

  /** field name -> cell */
  type RecordFields = map<string, CellValue>

  datatype RecordsBody = RecordsBody(records: Option<seq<RecordFields>>, error: Option<ApiError>)

  datatype Collaborator = Collaborator(id: string, name: string, email: string)

  /** The entry kept for a value with an id. */
  function Entry(c: CollabValue): Collaborator
    requires c.id.Some?
  {
    Collaborator(c.id.value, Or(c.name, "Unknown"), Or(c.email, ""))
  }

  predicate HasId(item: Option<CollabValue>)
  {
    item.Some? && Truthy(item.value.id)
  }

  function Ids(list: seq<Collaborator>): set<string>
  {
    set c | c in list :: c.id
  }

  /** `Array.isArray(v) ? v : [v]`, after skipping a falsy cell. */
  function CellItems(cell: CellValue): seq<Option<CollabValue>>
  {
    match cell
    case NoValue => []
    case Single(v) => [Some(v)]
    case Multiple(items) => items
  }

  function Lookup(record: RecordFields, name: string): CellValue
  {
    if name in record then record[name] else NoValue
  }

  /** The values met in one record, field by field. */
  function RecordItems(record: RecordFields, names: seq<string>): seq<Option<CollabValue>>
  {
    if names == [] then []
    else RecordItems(record, names[..|names| - 1]) + CellItems(Lookup(record, names[|names| - 1]))
  }

  /** The values met in all records, record by record. */
  function AllItems(records: seq<RecordFields>, names: seq<string>): seq<Option<CollabValue>>
  {
    if records == [] then []
    else AllItems(records[..|records| - 1], names) + RecordItems(records[|records| - 1], names)
  }

  /** One step of the extraction: a value with an id not seen yet is added. */
  function Admit(list: seq<Collaborator>, item: Option<CollabValue>): seq<Collaborator>
  {
    if HasId(item) && item.value.id.value !in Ids(list) then list + [Entry(item.value)] else list
  }

  /** The collaborators extracted from the values, in the order of first appearance. */
  function Collect(items: seq<Option<CollabValue>>): seq<Collaborator>
  {
    if items == [] then [] else Admit(Collect(items[..|items| - 1]), items[|items| - 1])
  }

  /** The entry made from the first value carrying the given id, if any. */
  function FirstEntry(items: seq<Option<CollabValue>>, id: string): Option<Collaborator>
  {
    if items == [] then None
    else match FirstEntry(items[..|items| - 1], id)
      case Some(e) => Some(e)
      case None =>
        var last := items[|items| - 1];
        if HasId(last) && last.value.id.value == id then Some(Entry(last.value)) else None
  }

  lemma CollectStep(items: seq<Option<CollabValue>>, x: Option<CollabValue>)
    ensures Collect(items + [x]) == Admit(Collect(items), x)
  {
    assert (items + [x])[..|items|] == items;
  }

  /** The extracted collaborators have pairwise distinct ids; every value with an
      id is represented; each entry is built from the first value with its id. */
  lemma {:induction false} CollectSpec(items: seq<Option<CollabValue>>)
    ensures forall i, j :: 0 <= i < j < |Collect(items)| ==> Collect(items)[i].id != Collect(items)[j].id
    ensures forall k :: 0 <= k < |items| && HasId(items[k]) ==> items[k].value.id.value in Ids(Collect(items))
    ensures forall c :: c in Collect(items) ==> FirstEntry(items, c.id) == Some(c)
    ensures forall id :: id in Ids(Collect(items)) <==> FirstEntry(items, id).Some?
  {
    if items != [] {
      var pre := items[..|items| - 1];
      var x := items[|items| - 1];
      CollectSpec(pre);
      var l := Collect(pre);
      assert Collect(items) == Admit(l, x);
      forall k | 0 <= k < |items| && HasId(items[k]) ensures items[k].value.id.value in Ids(Collect(items)) {
        if k < |pre| {
          assert items[k] == pre[k];
        }
      }
      if HasId(x) && x.value.id.value !in Ids(l) {
        assert Ids(Collect(items)) == Ids(l) + {x.value.id.value};
      }
    }
  }

  lemma IdsAppend(list: seq<Collaborator>, c: Collaborator)
    ensures Ids(list + [c]) == Ids(list) + {c.id}
  {
    assert forall x :: x in list + [c] <==> x in list || x == c;
  }

  lemma ConcatAssoc<T>(a: seq<T>, b: seq<T>, c: seq<T>)
    ensures (a + b) + c == a + (b + c)
  {
  }

  lemma RecordItemsStep(record: RecordFields, names: seq<string>, j: nat)
    requires j < |names|
    ensures RecordItems(record, names[..j + 1]) == RecordItems(record, names[..j]) + CellItems(Lookup(record, names[j]))
  {
    assert names[..j + 1][..j] == names[..j];
  }

  lemma AllItemsStep(records: seq<RecordFields>, names: seq<string>, i: nat)
    requires i < |records|
    ensures AllItems(records[..i + 1], names) == AllItems(records[..i], names) + RecordItems(records[i], names)
  {
    assert records[..i + 1][..i] == records[..i];
  }

  /** The innermost loop: each value of one cell is admitted in turn; `seen`
      holds the ids collected so far. */
  method AdmitEach(ghost before: seq<Option<CollabValue>>, list: seq<Collaborator>, seen: set<string>,
                   items: seq<Option<CollabValue>>)
    returns (list': seq<Collaborator>, seen': set<string>)
    requires list == Collect(before) && seen == Ids(list)
    ensures list' == Collect(before + items) && seen' == Ids(list')
  {
    list', seen' := list, seen;
    var k := 0;
    assert before + items[..0] == before;
    while k < |items|
      invariant 0 <= k <= |items|
      invariant list' == Collect(before + items[..k]) && seen' == Ids(list')
    {
      var item := items[k];
      CollectStep(before + items[..k], item);
      assert before + items[..k + 1] == (before + items[..k]) + [item];
      if item.Some? && Truthy(item.value.id) && item.value.id.value !in seen' {
        IdsAppend(list', Entry(item.value));
        list' := list' + [Entry(item.value)];
        seen' := seen' + {item.value.id.value};
      }
      k := k + 1;
    }
    assert items[..k] == items;
  }

  /** The nested loops of `fetchCollaboratorsFromRecords`: records, then the
      collaborator fields, then the values of each cell. */
  method ExtractCollaborators(records: seq<RecordFields>, names: seq<string>) returns (list: seq<Collaborator>)
    ensures list == Collect(AllItems(records, names))
  {
    list := [];
    var seen: set<string> := {};
    var i := 0;
    while i < |records|
      invariant 0 <= i <= |records|
      invariant list == Collect(AllItems(records[..i], names)) && seen == Ids(list)
    {
      ghost var done := AllItems(records[..i], names);
      var j := 0;
      assert RecordItems(records[i], names[..0]) == [];
      assert done + [] == done;
      while j < |names|
        invariant 0 <= j <= |names|
        invariant list == Collect(done + RecordItems(records[i], names[..j])) && seen == Ids(list)
      {
        ghost var before := done + RecordItems(records[i], names[..j]);
        var items := CellItems(Lookup(records[i], names[j]));
        list, seen := AdmitEach(before, list, seen, items);
        RecordItemsStep(records[i], names, j);
        ConcatAssoc(done, RecordItems(records[i], names[..j]), items);
        j := j + 1;
      }
      assert names[..j] == names;
      AllItemsStep(records, names, i);
      i := i + 1;
    }
    assert records[..i] == records;
  }

  /** `table.fields.filter(...)` for the collaborator types, by name. */
  function CollaboratorFieldNames(fields: seq<SchemaField>): (names: seq<string>)
    ensures |names| <= |fields|
    ensures forall n :: n in names ==> exists f :: f in fields && IsCollaboratorType(f.fieldType) && f.name == n
    ensures (forall f :: f in fields ==> !IsCollaboratorType(f.fieldType)) ==> names == []
  {
    if fields == [] then []
    else
      var rest := CollaboratorFieldNames(fields[1..]);
      assert forall f :: f in fields[1..] ==> f in fields;
      if IsCollaboratorType(fields[0].fieldType) then [fields[0].name] + rest else rest
  }

  /** Every collaborator field's name is among the names. */
  lemma {:induction false} CollaboratorFieldNamesComplete(fields: seq<SchemaField>)
    ensures forall f :: f in fields && IsCollaboratorType(f.fieldType) ==> f.name in CollaboratorFieldNames(fields)
  {
    if fields != [] {
      CollaboratorFieldNamesComplete(fields[1..]);
      assert forall f :: f in fields ==> f == fields[0] || f in fields[1..];
    }
  }

  /** The names are the filter of the fields, in order and with repeats: one
      field gives its name exactly when it is a collaborator field, and the
      names of a concatenation are the concatenation of the names. */
  lemma {:induction false} CollaboratorFieldNamesIsFilter(a: seq<SchemaField>, b: seq<SchemaField>)
    ensures CollaboratorFieldNames(a + b) == CollaboratorFieldNames(a) + CollaboratorFieldNames(b)
    ensures |a| == 1 ==> CollaboratorFieldNames(a) == if IsCollaboratorType(a[0].fieldType) then [a[0].name] else []
  {
    if a != [] {
      var head := if IsCollaboratorType(a[0].fieldType) then [a[0].name] else [];
      assert (a + b)[0] == a[0];
      assert (a + b)[1..] == a[1..] + b;
      assert CollaboratorFieldNames(a) == head + CollaboratorFieldNames(a[1..]);
      assert CollaboratorFieldNames(a + b) == head + CollaboratorFieldNames(a[1..] + b);
      CollaboratorFieldNamesIsFilter(a[1..], b);
    } else {
      assert a + b == b;
    }
  }

  /** `fetchCollaboratorsFromRecords({token, baseId}, tableId)`, given the schema
      request and the records request. */
  method FetchCollaboratorsFromRecords(token: string, baseId: string, tableId: string,
                                       schema: Exchange<MetaBody>, records: Exchange<RecordsBody>)
    returns (r: Result<seq<Collaborator>>)
    ensures token == "" || baseId == "" || tableId == "" ==> r == Err("Missing Token, Base ID, or Table ID.")
    ensures token != "" && baseId != "" && tableId != "" && schema.Responded? && !IsSuccess(schema.status)
      ==> r == Err("Failed to fetch table schema: " + schema.statusText)
    ensures token != "" && baseId != "" && tableId != "" && schema.Thrown? ==> r == Err(schema.message)
    ensures token != "" && baseId != "" && tableId != "" && schema.Responded? && IsSuccess(schema.status)
      && FindSchemaTable(TablesOf(schema.body), tableId).None?
      ==> r == Err("Table " + tableId + " not found")
    ensures token != "" && baseId != "" && tableId != "" && schema.Responded? && IsSuccess(schema.status)
      && FindSchemaTable(TablesOf(schema.body), tableId).Some?
      ==> var names := CollaboratorFieldNames(TablesOf(schema.body)[FindSchemaTable(TablesOf(schema.body), tableId).value].fields);
          && (names == [] ==> r == Ok([]))
          && (names != [] && records.Thrown? ==> r == Err(records.message))
          && (names != [] && records.Responded? && !IsSuccess(records.status) ==>
                r == Err(if records.body.error.Some? && Truthy(records.body.error.value.message)
                         then records.body.error.value.message.value
                         else "Failed to fetch records: " + records.statusText))
          && (names != [] && records.Responded? && IsSuccess(records.status) ==>
                r == Ok(Collect(AllItems(if records.body.records.Some? then records.body.records.value else [], names))))
    ensures r.Ok? ==>
      && schema.Responded? && IsSuccess(schema.status)
      && var k := FindSchemaTable(TablesOf(schema.body), tableId);
      && k.Some?
      && var names := CollaboratorFieldNames(TablesOf(schema.body)[k.value].fields);
      && (names == [] ==> r.value == [])
      && (names != [] ==>
            && records.Responded? && IsSuccess(records.status)
            && var rs := if records.body.records.Some? then records.body.records.value else [];
               r.value == Collect(AllItems(rs, names)))
  {
    if token == "" || baseId == "" || tableId == "" {
      return Err("Missing Token, Base ID, or Table ID.");
    }
    match schema
    case Thrown(message) => return Err(message);
    case Responded(status, statusText, body) =>
      if !IsSuccess(status) {
        return Err("Failed to fetch table schema: " + statusText);
      }
      var k := FindSchemaTable(TablesOf(body), tableId);
      if k.None? {
        return Err("Table " + tableId + " not found");
      }
      var names := CollaboratorFieldNames(TablesOf(body)[k.value].fields);
      if names == [] {
        return Ok([]);
      }
      match records
      case Thrown(message) => return Err(message);
      case Responded(rStatus, rStatusText, rBody) =>
        if !IsSuccess(rStatus) {
          var message := if rBody.error.Some? && Truthy(rBody.error.value.message)
            then rBody.error.value.message.value else "Failed to fetch records: " + rStatusText;
          return Err(message);
        }
        var rs := if rBody.records.Some? then rBody.records.value else [];
        var list := ExtractCollaborators(rs, names);
        return Ok(list);
  }

  // ---------------------------------------------------------------------------
  // Proposed mappings
  // ---------------------------------------------------------------------------

  const MappedRoles: seq<Role> := [Url, Title, Notes, Attachments]

  /** The keywords `autoMapFields` looks for, per role. */
  function Keywords(role: Role): seq<string>
  {
    match role
    case Url => ["url", "link", "website"]
    case Title => ["title", "name", "subject", "titel"]
    case Notes => ["notes", "description", "body", "notizen", "beschreibung"]
    case Attachments => ["attachments", "files", "media", "anh\U{00E4}nge", "dateien"]
  }

  /** `keywords.some(kw => name.includes(kw))` */
  predicate AnyKeyword(name: string, keywords: seq<string>)
  {
    keywords != [] && (Contains(name, keywords[0]) || AnyKeyword(name, keywords[1..]))
  }

  /** A field suits a role when its lower-cased name contains one of the role's
      keywords; only an attachment field suits the attachments role. */
  predicate Suits(f: Field, role: Role)
  {
    && (role == Attachments ==> f.fieldType == "multipleAttachments")
    && AnyKeyword(ToLower(f.name), Keywords(role))
  }

  /** `fields.find(...)` for a role, as an index. */
  function FirstSuiting(fields: seq<Field>, role: Role): (r: Option<nat>)
    ensures r.Some? ==> r.value < |fields| && Suits(fields[r.value], role)
    ensures r.Some? ==> forall j :: 0 <= j < r.value ==> !Suits(fields[j], role)
    ensures r.None? ==> forall j :: 0 <= j < |fields| ==> !Suits(fields[j], role)
  {
    FirstSuitingFrom(fields, role, 0)
  }

  /** The search of `fields.find(...)` from position `k` on. */
  function FirstSuitingFrom(fields: seq<Field>, role: Role, k: nat): (r: Option<nat>)
    requires k <= |fields|
    ensures r.Some? ==> k <= r.value < |fields| && Suits(fields[r.value], role)
    ensures r.Some? ==> forall j :: k <= j < r.value ==> !Suits(fields[j], role)
    ensures r.None? ==> forall j :: k <= j < |fields| ==> !Suits(fields[j], role)
    decreases |fields| - k
  {
    if k == |fields| then None
    else if Suits(fields[k], role) then Some(k)
    else FirstSuitingFrom(fields, role, k + 1)
  }

  /** The mappings `autoMapFields` proposes. */
  function AutoMap(fields: seq<Field>): FieldMappings
  {
    MappingsFor(fields, MappedRoles)
  }

  /** The mappings of the given roles, each to its first suiting field, a later
      role's entry written after an earlier one's. */
  function MappingsFor(fields: seq<Field>, roles: seq<Role>): FieldMappings
  {
    if roles == [] then map[]
    else
      var before := MappingsFor(fields, roles[..|roles| - 1]);
      var role := roles[|roles| - 1];
      match FirstSuiting(fields, role)
      case Some(i) => before[role := fields[i].id]
      case None => before
  }

  lemma MappingsForStep(fields: seq<Field>, roles: seq<Role>, role: Role)
    ensures MappingsFor(fields, roles + [role]) ==
      match FirstSuiting(fields, role)
      case Some(i) => MappingsFor(fields, roles)[role := fields[i].id]
      case None => MappingsFor(fields, roles)
  {
    assert (roles + [role])[..|roles|] == roles;
  }

  /** A role is mapped exactly when it is one of the roles and some field suits
      it, and then to the first such field. */
  lemma {:induction false} MappingsForSpec(fields: seq<Field>, roles: seq<Role>, role: Role)
    ensures role in MappingsFor(fields, roles) <==> role in roles && FirstSuiting(fields, role).Some?
    ensures role in MappingsFor(fields, roles) ==>
      MappingsFor(fields, roles)[role] == fields[FirstSuiting(fields, role).value].id
  {
    if roles != [] {
      var pre := roles[..|roles| - 1];
      var last := roles[|roles| - 1];
      var before := MappingsFor(fields, pre);
      match FirstSuiting(fields, last)
      case Some(i) =>
        assert MappingsFor(fields, roles) == before[last := fields[i].id];
        MappingsForSpec(fields, pre, role);
        assert role in roles <==> role in pre || role == last;
      case None =>
        assert MappingsFor(fields, roles) == before;
        MappingsForSpec(fields, pre, role);
        assert role in roles <==> role in pre || role == last;
    }
  }

  /** A role is mapped exactly when some field suits it, and then to the first
      such field; an attachments mapping always names an attachment field. */
  lemma AutoMapChoosesFirstSuiting(fields: seq<Field>, role: Role)
    ensures role in AutoMap(fields) <==> exists i :: 0 <= i < |fields| && Suits(fields[i], role)
    ensures role in AutoMap(fields) ==>
      exists i :: 0 <= i < |fields| && AutoMap(fields)[role] == fields[i].id && Suits(fields[i], role)
                  && (forall j :: 0 <= j < i ==> !Suits(fields[j], role))
    ensures Attachments in AutoMap(fields) ==>
      exists i :: 0 <= i < |fields| && AutoMap(fields)[Attachments] == fields[i].id
                  && fields[i].fieldType == "multipleAttachments"
  {
    assert role in MappedRoles;
    assert Attachments in MappedRoles;
    MappingsForSpec(fields, MappedRoles, role);
    MappingsForSpec(fields, MappedRoles, Attachments);
    var r := FirstSuiting(fields, role);
    if r.Some? {
      assert Suits(fields[r.value], role);
    }
    var a := FirstSuiting(fields, Attachments);
    if a.Some? {
      assert Suits(fields[a.value], Attachments);
    }
  }

  /** `autoMapFields(fields)`: the loop over the four roles. */
  method AutoMapFields(fields: seq<Field>) returns (mappings: FieldMappings)
    ensures mappings == AutoMap(fields)
  {
    mappings := map[];
    var n := 0;
    while n < |MappedRoles|
      invariant 0 <= n <= |MappedRoles|
      invariant mappings == MappingsFor(fields, MappedRoles[..n])
    {
      var role := MappedRoles[n];
      MappingsForStep(fields, MappedRoles[..n], role);
      var field := FirstSuiting(fields, role);
      if field.Some? {
        mappings := mappings[role := fields[field.value].id];
      }
      assert MappedRoles[..n + 1] == MappedRoles[..n] + [role];
      n := n + 1;
    }
    assert MappedRoles[..n] == MappedRoles;
  }

  // ---------------------------------------------------------------------------
  // Mapping dropdown
  // ---------------------------------------------------------------------------

  /** One `<option>` of a mapping dropdown. */
  datatype FieldOption = FieldOption(value: string, caption: string, selected: bool)

  const NoMappingOption := FieldOption("", "-- Nicht zuordnen --", false)

  predicate PassesFilter(f: Field, typeFilter: Option<string>)
  {
    !Truthy(typeFilter) || f.fieldType == typeFilter.value
  }

  /** The option of one field: its id, "name (type)", selected when its id is
      the selected one. */
  function OptionOf(f: Field, selected: Option<string>): FieldOption
  {
    FieldOption(f.id, f.name + " (" + f.fieldType + ")", selected == Some(f.id))
  }

  /** The options after the placeholder, one per field passing the type filter. */
  function FieldEntries(fields: seq<Field>, selected: Option<string>, typeFilter: Option<string>): (r: seq<FieldOption>)
    ensures |r| <= |fields|
  {
    if fields == [] then []
    else
      var f := fields[|fields| - 1];
      var pre := FieldEntries(fields[..|fields| - 1], selected, typeFilter);
      if PassesFilter(f, typeFilter) then pre + [OptionOf(f, selected)] else pre
  }

  /** Every entry is the option of a field passing the type filter. */
  lemma {:induction false} FieldEntriesSound(fields: seq<Field>, selected: Option<string>, typeFilter: Option<string>)
    ensures forall e :: e in FieldEntries(fields, selected, typeFilter) ==>
              exists f :: f in fields && PassesFilter(f, typeFilter) && e == OptionOf(f, selected)
  {
    if fields != [] {
      var n := |fields| - 1;
      var pre := fields[..n];
      var x := fields[n];
      assert FieldEntries(fields, selected, typeFilter)
        == FieldEntries(pre, selected, typeFilter) + (if PassesFilter(x, typeFilter) then [OptionOf(x, selected)] else []);
      FieldEntriesSound(pre, selected, typeFilter);
      assert forall g :: g in pre ==> g in fields;
    }
  }

  /** Every field passing the type filter is offered. */
  lemma {:induction false} FieldEntriesComplete(fields: seq<Field>, selected: Option<string>, typeFilter: Option<string>)
    ensures forall f :: f in fields && PassesFilter(f, typeFilter) ==> OptionOf(f, selected) in FieldEntries(fields, selected, typeFilter)
  {
    if fields != [] {
      var n := |fields| - 1;
      var pre := fields[..n];
      var x := fields[n];
      assert FieldEntries(fields, selected, typeFilter)
        == FieldEntries(pre, selected, typeFilter) + (if PassesFilter(x, typeFilter) then [OptionOf(x, selected)] else []);
      FieldEntriesComplete(pre, selected, typeFilter);
      forall f | f in fields && PassesFilter(f, typeFilter)
        ensures OptionOf(f, selected) in FieldEntries(fields, selected, typeFilter)
      {
        if f != x {
          var k :| 0 <= k < |fields| && fields[k] == f;
          assert k < n && pre[k] == f;
        }
      }
    }
  }

  /** One field gives its option exactly when it passes the type filter. */
  lemma FieldEntriesOfOne(f: Field, selected: Option<string>, typeFilter: Option<string>)
    ensures FieldEntries([f], selected, typeFilter) == if PassesFilter(f, typeFilter) then [OptionOf(f, selected)] else []
  {
    assert [f][..0] == [];
  }

  /** The entries are the filter of the fields, in order and with repeats (with
      `FieldEntriesOfOne`): the entries of a concatenation are the
      concatenation of the entries. */
  lemma {:induction false} FieldEntriesIsFilter(a: seq<Field>, b: seq<Field>, selected: Option<string>,
                                                typeFilter: Option<string>)
    ensures FieldEntries(a + b, selected, typeFilter) == FieldEntries(a, selected, typeFilter) + FieldEntries(b, selected, typeFilter)
    decreases |b|
  {
    if b == [] {
      assert a + b == a;
    } else {
      var c := b[..|b| - 1];
      var x := b[|b| - 1];
      assert b == c + [x];
      assert a + b == (a + c) + [x];
      var tail := if PassesFilter(x, typeFilter) then [OptionOf(x, selected)] else [];
      FieldEntriesSnoc(a + c, x, selected, typeFilter);
      FieldEntriesSnoc(c, x, selected, typeFilter);
      FieldEntriesIsFilter(a, c, selected, typeFilter);
      ConcatAssoc(FieldEntries(a, selected, typeFilter), FieldEntries(c, selected, typeFilter), tail);
    }
  }

  lemma FieldEntriesSnoc(s: seq<Field>, x: Field, selected: Option<string>, typeFilter: Option<string>)
    ensures FieldEntries(s + [x], selected, typeFilter)
         == FieldEntries(s, selected, typeFilter) + (if PassesFilter(x, typeFilter) then [OptionOf(x, selected)] else [])
  {
    assert (s + [x])[..|s|] == s;
  }

  /** `createFieldOptions(fields, selectedField, fieldTypeFilter)` */
  function CreateFieldOptions(fields: seq<Field>, selected: Option<string>, typeFilter: Option<string>)
    : (r: seq<FieldOption>)
    ensures |r| >= 1 && r[0] == NoMappingOption
    ensures forall i :: 1 <= i < |r| ==> exists f :: f in fields && PassesFilter(f, typeFilter) && r[i] == OptionOf(f, selected)
    ensures forall f :: f in fields && PassesFilter(f, typeFilter) ==> OptionOf(f, selected) in r[1..]
  {
    var entries := FieldEntries(fields, selected, typeFilter);
    FieldEntriesSound(fields, selected, typeFilter);
    FieldEntriesComplete(fields, selected, typeFilter);
    assert forall i :: 1 <= i < |entries| + 1 ==> ([NoMappingOption] + entries)[i] == entries[i - 1];
    assert forall i :: 0 <= i < |entries| ==> entries[i] in entries;
    assert ([NoMappingOption] + entries)[1..] == entries;
    [NoMappingOption] + entries
  }

  /** Without a type filter every field is offered, in order. */
  lemma UnfilteredOffersEveryField(fields: seq<Field>, selected: Option<string>)
    ensures |CreateFieldOptions(fields, selected, None)| == |fields| + 1
    ensures forall i :: 0 <= i < |fields| ==> CreateFieldOptions(fields, selected, None)[i + 1].value == fields[i].id
  {
    UnfilteredEntries(fields, selected);
    assert CreateFieldOptions(fields, selected, None) == [NoMappingOption] + FieldEntries(fields, selected, None);
  }

  lemma {:induction false} UnfilteredEntries(fields: seq<Field>, selected: Option<string>)
    ensures |FieldEntries(fields, selected, None)| == |fields|
    ensures forall i :: 0 <= i < |fields| ==> FieldEntries(fields, selected, None)[i] == OptionOf(fields[i], selected)
  {
    if fields != [] {
      var n := |fields| - 1;
      var pre := fields[..n];
      assert FieldEntries(fields, selected, None) == FieldEntries(pre, selected, None) + [OptionOf(fields[n], selected)];
      UnfilteredEntries(pre, selected);
    }
  }

  // ---------------------------------------------------------------------------
  // Edits of the stored list of base connections
  // ---------------------------------------------------------------------------

  /** `configs.findIndex(c => c.id === configId)`, as an index. */
  function FindConfig(cs: seq<BaseConfig>, configId: string): (r: Option<nat>)
    ensures r.Some? ==> r.value < |cs| && cs[r.value].id == configId
    ensures r.Some? ==> forall j :: 0 <= j < r.value ==> cs[j].id != configId
    ensures r.None? ==> forall j :: 0 <= j < |cs| ==> cs[j].id != configId
  {
    if cs == [] then None
    else if cs[0].id == configId then Some(0)
    else match FindConfig(cs[1..], configId)
      case None => None
      case Some(k) => Some(k + 1)
  }

  /** `tables.findIndex(t => t.id === tableId)`, as an index. */
  function FindTable(ts: seq<Table>, tableId: string): (r: Option<nat>)
    ensures r.Some? ==> r.value < |ts| && ts[r.value].id == tableId
    ensures r.Some? ==> forall j :: 0 <= j < r.value ==> ts[j].id != tableId
    ensures r.None? ==> forall j :: 0 <= j < |ts| ==> ts[j].id != tableId
  {
    if ts == [] then None
    else if ts[0].id == tableId then Some(0)
    else match FindTable(ts[1..], tableId)
      case None => None
      case Some(k) => Some(k + 1)
  }

  function ConfiguredTablesOf(c: BaseConfig): map<string, TableConfig>
  {
    if c.configuredTables.Some? then c.configuredTables.value else map[]
  }

  /** The collapse toggle of one table entry: an absent entry is created expanded;
      otherwise `isCollapsed` is negated, a missing flag counting as false. */
  function ToggleEntry(entry: Option<TableConfig>): TableConfig
  {
    match entry
    case None => TableConfig(None, None, Some(false))
    case Some(tc) => tc.(isCollapsed := Some(tc.isCollapsed != Some(true)))
  }

  /** The stored list after `toggleCollapsible(configId, tableId)`. */
  function Toggled(cs: seq<BaseConfig>, configId: string, tableId: string): seq<BaseConfig>
  {
    match FindConfig(cs, configId)
    case None => cs
    case Some(i) =>
      var tables := ConfiguredTablesOf(cs[i]);
      var entry := if tableId in tables then Some(tables[tableId]) else None;
      cs[i := cs[i].(configuredTables := Some(tables[tableId := ToggleEntry(entry)]))]
  }

  /** Toggling changes one entry of the first config with the id: an unknown
      config id changes nothing; an absent entry is created expanded with no
      mappings; a present entry has its flag negated and keeps the rest. */
  lemma ToggleIsLocal(cs: seq<BaseConfig>, configId: string, tableId: string)
    ensures |Toggled(cs, configId, tableId)| == |cs|
    ensures FindConfig(cs, configId).None? ==> Toggled(cs, configId, tableId) == cs
    ensures FindConfig(cs, configId).Some? ==>
      var i := FindConfig(cs, configId).value;
      forall j :: 0 <= j < |cs| && j != i ==> Toggled(cs, configId, tableId)[j] == cs[j]
    ensures FindConfig(cs, configId).Some? ==>
      var i := FindConfig(cs, configId).value;
      var before := ConfiguredTablesOf(cs[i]);
      var c := Toggled(cs, configId, tableId)[i];
      && c.(configuredTables := cs[i].configuredTables) == cs[i]
      && c.configuredTables.Some? && c.configuredTables.value.Keys == before.Keys + {tableId}
      && (forall t :: t in before && t != tableId ==> c.configuredTables.value[t] == before[t])
      && (tableId !in before ==> c.configuredTables.value[tableId] == TableConfig(None, None, Some(false)))
      && (tableId in before ==>
            c.configuredTables.value[tableId]
              == before[tableId].(isCollapsed := Some(!(before[tableId].isCollapsed == Some(true)))))
  {
  }

  lemma ToggleEntryTwice(tc: TableConfig)
    requires tc.isCollapsed.Some?
    ensures ToggleEntry(Some(ToggleEntry(Some(tc)))) == tc
  {
    var once := ToggleEntry(Some(tc));
    assert once.isCollapsed == Some(!tc.isCollapsed.value);
    assert ToggleEntry(Some(once)).isCollapsed == tc.isCollapsed;
  }

  lemma ToggleTwiceRestores(cs: seq<BaseConfig>, configId: string, tableId: string)
    requires FindConfig(cs, configId).Some?
    requires var tables := ConfiguredTablesOf(cs[FindConfig(cs, configId).value]);
      tableId in tables && tables[tableId].isCollapsed.Some?
    ensures Toggled(Toggled(cs, configId, tableId), configId, tableId) == cs
  {
    var i := FindConfig(cs, configId).value;
    var tables := ConfiguredTablesOf(cs[i]);
    var onceTables := tables[tableId := ToggleEntry(Some(tables[tableId]))];
    var once := cs[i := cs[i].(configuredTables := Some(onceTables))];
    assert Toggled(cs, configId, tableId) == once;
    FindConfigOfFirst(once, configId, i);
    assert ConfiguredTablesOf(once[i]) == onceTables;
    TableToggleTwice(tables, tableId);
    assert Toggled(once, configId, tableId) == once[i := once[i].(configuredTables := Some(tables))];
    assert cs[i].configuredTables == Some(tables);
    assert once[i := cs[i]] == cs;
  }

  /** Toggling a recorded flag twice gives back the table map. */
  lemma TableToggleTwice(tables: map<string, TableConfig>, tableId: string)
    requires tableId in tables && tables[tableId].isCollapsed.Some?
    ensures var once := tables[tableId := ToggleEntry(Some(tables[tableId]))];
      once[tableId := ToggleEntry(Some(once[tableId]))] == tables
  {
    ToggleEntryTwice(tables[tableId]);
  }

  /** `findIndex` returns the first position carrying the id. */
  lemma FindConfigOfFirst(cs: seq<BaseConfig>, configId: string, i: nat)
    requires i < |cs| && cs[i].id == configId
    requires forall j :: 0 <= j < i ==> cs[j].id != configId
    ensures FindConfig(cs, configId) == Some(i)
  {
  }

  /** A fresh base connection; `stamp` is the clock reading that names it. */
  function NewBase(stamp: int, count: nat): BaseConfig
  {
    BaseConfig("airtable_" + IntToString(stamp), "Airtable Base " + NatToString(count + 1), "", "",
               None, Some(map[]), None)
  }

  /** The stored list after `deleteAirtableBase(configId)`. */
  function Deleted(cs: seq<BaseConfig>, configId: string): seq<BaseConfig>
  {
    match FindConfig(cs, configId)
    case None => cs
    case Some(i) => cs[..i] + cs[i + 1..]
  }

  predicate UniqueIds(cs: seq<BaseConfig>)
  {
    forall i, j :: 0 <= i < j < |cs| ==> cs[i].id != cs[j].id
  }

  /** Deleting removes exactly the first config with the id and keeps the others
      in order; with unique ids no config with that id remains. */
  lemma DeleteRemovesExactlyOne(cs: seq<BaseConfig>, configId: string)
    ensures FindConfig(cs, configId).None? ==> Deleted(cs, configId) == cs
    ensures FindConfig(cs, configId).Some? ==>
      var i := FindConfig(cs, configId).value;
      && |Deleted(cs, configId)| == |cs| - 1
      && (forall j :: 0 <= j < i ==> Deleted(cs, configId)[j] == cs[j])
      && (forall j :: i < j < |cs| ==> Deleted(cs, configId)[j - 1] == cs[j])
    ensures UniqueIds(cs) ==> forall c :: c in Deleted(cs, configId) ==> c.id != configId
  {
    match FindConfig(cs, configId)
    case None =>
      if UniqueIds(cs) {
        forall c | c in cs ensures c.id != configId {
          var k :| 0 <= k < |cs| && cs[k] == c;
        }
      }
    case Some(i) =>
      var d := Deleted(cs, configId);
      assert d == cs[..i] + cs[i + 1..];
      RemovedAt(cs, i);
      if UniqueIds(cs) {
        RemovedAtLeavesNoDuplicate(cs, i);
      }
  }

  /** With unique ids, removing position `i` leaves no config with its id. */
  lemma RemovedAtLeavesNoDuplicate(cs: seq<BaseConfig>, i: nat)
    requires i < |cs| && UniqueIds(cs)
    ensures forall c :: c in cs[..i] + cs[i + 1..] ==> c.id != cs[i].id
  {
    var d := cs[..i] + cs[i + 1..];
    RemovedAt(cs, i);
    forall c | c in d ensures c.id != cs[i].id {
      var m :| 0 <= m < |d| && d[m] == c;
      var k := if m < i then m else m + 1;
      assert cs[k] == c && k != i;
    }
  }

  /** Removing position `i` shifts the later elements down by one. */
  lemma RemovedAt<T>(s: seq<T>, i: nat)
    requires i < |s|
    ensures |s[..i] + s[i + 1..]| == |s| - 1
    ensures forall j :: 0 <= j < i ==> (s[..i] + s[i + 1..])[j] == s[j]
    ensures forall j :: i < j < |s| ==> (s[..i] + s[i + 1..])[j - 1] == s[j]
  {
  }

  /** Adding a base and deleting it again by its id restores the list. */
  lemma AddThenDeleteRestores(cs: seq<BaseConfig>, stamp: int)
    requires forall c :: c in cs ==> c.id != NewBase(stamp, |cs|).id
    ensures Deleted(cs + [NewBase(stamp, |cs|)], NewBase(stamp, |cs|).id) == cs
  {
    var added := cs + [NewBase(stamp, |cs|)];
    var id := NewBase(stamp, |cs|).id;
    assert forall j :: 0 <= j < |cs| ==> added[j].id != id by {
      assert forall j :: 0 <= j < |cs| ==> added[j] == cs[j] && cs[j] in cs;
    }
    assert added[|cs|].id == id;
    var r := FindConfig(added, id);
    assert r.Some?;
    assert r == Some(|cs|);
    assert added[..|cs|] == cs;
  }

  /** What `loadTableFields` reports, one constructor per way it ends. */
  datatype LoadResult =
    | NoValidConnection | BadTokenFormat | BadBaseId | BadTableId
    | FetchFailed(message: string)
    | TablesMissing         // `config.tables` is null: the lookup throws
    | TableNotListed        // `findIndex` gives -1: nothing happens
    | ConfiguredTablesMissing   // `config.configuredTables` is absent: the lookup throws
    | FieldsLoaded(tableName: string)

  /** The table entry created when a table's fields are loaded for the first time. */
  function InitialTableConfig(fields: seq<Field>): TableConfig
  {
    TableConfig(Some(AutoMap(fields)), Some([]), Some(false))
  }

  /** The stored list and the report of `loadTableFields(configId, tableId)`,
      the field request answering with `outcome`. Nothing is stored unless the
      fields are installed. */
  function LoadFields(cs: seq<BaseConfig>, configId: string, tableId: string, outcome: Exchange<MetaBody>)
    : (seq<BaseConfig>, LoadResult)
  {
    match FindConfig(cs, configId)
    case None => (cs, NoValidConnection)
    case Some(i) =>
      var (c, result) := LoadInto(cs[i], tableId, outcome);
      (if result.FieldsLoaded? then cs[i := c] else cs, result)
  }

  /** The found config after `loadTableFields`, and the report: the checks of
      the stored credentials and the table id, the field request, then the
      loaded table replaces its listed entry and a missing table configuration
      is created. */
  function LoadInto(c: BaseConfig, tableId: string, outcome: Exchange<MetaBody>): (BaseConfig, LoadResult)
  {
    if c.token == "" || c.baseId == "" then (c, NoValidConnection)
    else if !StartsWith(c.token, "pat") then (c, BadTokenFormat)
    else if !StartsWith(c.baseId, "app") then (c, BadBaseId)
    else if !StartsWith(tableId, "tbl") then (c, BadTableId)
    else match FetchTableFields(c.token, c.baseId, tableId, outcome)
      case Err(message) => (c, FetchFailed(message))
      case Ok(loaded) =>
        if c.tables.None? then (c, TablesMissing)
        else match FindTable(c.tables.value, tableId)
          case None => (c, TableNotListed)
          case Some(k) =>
            if c.configuredTables.None? then (c, ConfiguredTablesMissing)
            else
              var tables := c.configuredTables.value;
              var entry := if tableId in tables then tables[tableId]
                           else InitialTableConfig(loaded.fields.value);
              (c.(tables := Some(c.tables.value[k := loaded]),
                  configuredTables := Some(tables[tableId := entry])),
               FieldsLoaded(loaded.name))
  }

  /** Loading fields installs the fetched table in place of its listed entry of
      only that config, never overwrites an existing table configuration, and
      creates an auto-mapped, expanded one with no custom fields from the
      fetched fields when there was none. */
  lemma LoadKeepsConfiguration(cs: seq<BaseConfig>, configId: string, tableId: string, outcome: Exchange<MetaBody>)
    ensures var (after, result) := LoadFields(cs, configId, tableId, outcome);
      && |after| == |cs|
      && (!result.FieldsLoaded? ==> after == cs)
      && (forall j :: 0 <= j < |cs| && cs[j].id != configId ==> after[j] == cs[j])
    ensures var (after, result) := LoadFields(cs, configId, tableId, outcome);
      result.FieldsLoaded? ==>
      var i := FindConfig(cs, configId).value;
      && (forall j :: 0 <= j < |cs| && j != i ==> after[j] == cs[j])
      && after[i].tables.Some? && cs[i].tables.Some?
      && |after[i].tables.value| == |cs[i].tables.value|
      && (forall k :: 0 <= k < |cs[i].tables.value| && cs[i].tables.value[k].id != tableId ==>
            after[i].tables.value[k] == cs[i].tables.value[k])
      && after[i].configuredTables.Some? && cs[i].configuredTables.Some?
      && (forall t :: t in cs[i].configuredTables.value ==>
            t in after[i].configuredTables.value
            && after[i].configuredTables.value[t] == cs[i].configuredTables.value[t])
      && var fetched := FetchTableFields(cs[i].token, cs[i].baseId, tableId, outcome);
      && fetched.Ok? && fetched.value.fields.Some? && FindTable(cs[i].tables.value, tableId).Some?
      && after[i].tables.value[FindTable(cs[i].tables.value, tableId).value] == fetched.value
      && (tableId !in cs[i].configuredTables.value ==>
            after[i].configuredTables.value
              == cs[i].configuredTables.value[tableId := InitialTableConfig(fetched.value.fields.value)])
  {
    match FindConfig(cs, configId)
    case None =>
    case Some(i) =>
      var (d, result) := LoadInto(cs[i], tableId, outcome);
      if result.FieldsLoaded? {
        assert LoadFields(cs, configId, tableId, outcome) == (cs[i := d], result);
        LoadIntoKeepsTables(cs[i], tableId, outcome);
      }
  }

  /** On one config: the fetched table replaces its own entry and no other, and
      existing table configurations stay as they were. */
  lemma LoadIntoKeepsTables(c: BaseConfig, tableId: string, outcome: Exchange<MetaBody>)
    requires LoadInto(c, tableId, outcome).1.FieldsLoaded?
    ensures var d := LoadInto(c, tableId, outcome).0;
      && d.id == c.id && d.config == c.config
      && d.tables.Some? && c.tables.Some? && |d.tables.value| == |c.tables.value|
      && (forall k :: 0 <= k < |c.tables.value| && c.tables.value[k].id != tableId ==> d.tables.value[k] == c.tables.value[k])
      && d.configuredTables.Some? && c.configuredTables.Some?
      && (forall t :: t in c.configuredTables.value ==>
            t in d.configuredTables.value && d.configuredTables.value[t] == c.configuredTables.value[t])
      && var fetched := FetchTableFields(c.token, c.baseId, tableId, outcome);
      && fetched.Ok? && fetched.value.fields.Some? && FindTable(c.tables.value, tableId).Some?
      && d.tables.value[FindTable(c.tables.value, tableId).value] == fetched.value
      && (tableId !in c.configuredTables.value ==>
            d.configuredTables.value == c.configuredTables.value[tableId := InitialTableConfig(fetched.value.fields.value)])
  {
    var loaded := FetchTableFields(c.token, c.baseId, tableId, outcome).value;
    var k := FindTable(c.tables.value, tableId).value;
    var d := LoadInto(c, tableId, outcome).0;
    forall k' | 0 <= k' < |c.tables.value| && c.tables.value[k'].id != tableId
      ensures d.tables.value[k'] == c.tables.value[k'] {
      assert k' != k;
    }
  }

  /** Feedback shown in a connection item. */
  datatype Feedback = Feedback(isError: bool, text: string)

  /** The stored list of base connections (`airtableConfigs`). */
  class AirtableConfigStore {
    var configs: seq<BaseConfig>

    constructor (stored: seq<BaseConfig>)
      ensures configs == stored
    {
      configs := stored;
    }

    /** `toggleCollapsible(configId, tableId)` */
    method ToggleCollapsible(configId: string, tableId: string)
      modifies this
      ensures configs == Toggled(old(configs), configId, tableId)
    {
      var found := FindConfig(configs, configId);
      if found.None? {
        return;
      }
      var i := found.value;
      var config := configs[i];
      var tables := if config.configuredTables.Some? then config.configuredTables.value else map[];
      if tableId !in tables {
        tables := tables[tableId := TableConfig(None, None, Some(false))];
      } else {
        var entry := tables[tableId];
        tables := tables[tableId := entry.(isCollapsed := Some(entry.isCollapsed != Some(true)))];
      }
      configs := configs[i := config.(configuredTables := Some(tables))];
    }

    /** `addAirtableBase()`; `stamp` is the clock reading that names the new base. */
    method AddAirtableBase(stamp: int)
      modifies this
      ensures configs == old(configs) + [NewBase(stamp, |old(configs)|)]
    {
      var newConfig := BaseConfig("airtable_" + IntToString(stamp), "Airtable Base " + NatToString(|configs| + 1),
                                  "", "", None, Some(map[]), None);
      configs := configs + [newConfig];
    }

    /** `deleteAirtableBase(configId)` */
    method DeleteAirtableBase(configId: string)
      modifies this
      ensures configs == Deleted(old(configs), configId)
    {
      var found := FindConfig(configs, configId);
      if found.None? {
        return;
      }
      configs := configs[..found.value] + configs[found.value + 1..];
    }

    /** `loadTableFields(configId, tableId)`, the field request answering with `outcome`. */
    method LoadTableFields(configId: string, tableId: string, outcome: Exchange<MetaBody>)
      returns (result: LoadResult)
      modifies this
      ensures (configs, result) == LoadFields(old(configs), configId, tableId, outcome)
    {
      var found := FindConfig(configs, configId);
      if found.None? {
        return NoValidConnection;
      }
      var i := found.value;
      var config := configs[i];
      if config.token == "" || config.baseId == "" {
        return NoValidConnection;
      }
      if !StartsWith(config.token, "pat") {
        return BadTokenFormat;
      }
      if !StartsWith(config.baseId, "app") {
        return BadBaseId;
      }
      if !StartsWith(tableId, "tbl") {
        return BadTableId;
      }
      var fetched := FetchTableFields(config.token, config.baseId, tableId, outcome);
      if fetched.Err? {
        return FetchFailed(fetched.message);
      }
      var loaded := fetched.value;
      if config.tables.None? {
        return TablesMissing;
      }
      var tableIndex := FindTable(config.tables.value, tableId);
      if tableIndex.None? {
        return TableNotListed;
      }
      if config.configuredTables.None? {
        return ConfiguredTablesMissing;
      }
      var tables := config.configuredTables.value;
      if tableId !in tables {
        var mappings := AutoMapFields(loaded.fields.value);
        tables := tables[tableId := TableConfig(Some(mappings), Some([]), Some(false))];
      } else {
        assert tables[tableId := tables[tableId]] == tables;
      }
      configs := configs[i := config.(tables := Some(config.tables.value[tableIndex.value := loaded]),
                                      configuredTables := Some(tables))];
      result := FieldsLoaded(loaded.name);
    }

    /** `connectAndFetchTableNames(configId)`: the trimmed inputs are checked,
        the table names fetched, and the config updated with them. */
    method ConnectAndFetchTableNames(configId: string, tokenInput: string, baseInput: string,
                                     outcome: Exchange<MetaBody>)
      returns (feedback: Feedback)
      modifies this
      ensures var token := Trim(tokenInput); var baseId := Trim(baseInput);
        && (CheckConnection(token, baseId).Some? ==> feedback.isError && configs == old(configs))
        && (feedback.isError ==> configs == old(configs))
        && (!feedback.isError ==>
              && CheckConnection(token, baseId).None?
              && FindConfig(old(configs), configId).Some?
              && FetchTableNames(token, baseId, outcome).Ok?
              && var i := FindConfig(old(configs), configId).value;
              && var tables := FetchTableNames(token, baseId, outcome).value;
              && configs == old(configs)[i := old(configs)[i].(token := token, baseId := baseId,
                               tables := Some(tables), configuredTables := Some(ConfiguredTablesOf(old(configs)[i])))]
              && feedback.text == "\U{2705} Erfolgreich! " + NatToString(|tables|) + " Tabellen gefunden.")
      ensures var token := Trim(tokenInput); var baseId := Trim(baseInput);
        && (token == "" || baseId == "" ==> feedback == Feedback(true, "Bitte Token und Base ID angeben"))
        && (token != "" && baseId != "" && !StartsWith(token, "pat") ==>
              feedback == Feedback(true, "Token muss mit \"pat\" beginnen"))
        && (token != "" && baseId != "" && StartsWith(token, "pat") && !StartsWith(baseId, "app") ==>
              feedback == Feedback(true, "Base ID muss mit \"app\" beginnen"))
      ensures var token := Trim(tokenInput); var baseId := Trim(baseInput);
        CheckConnection(token, baseId).None? ==>
          && (FetchTableNames(token, baseId, outcome).Err? ==>
                feedback == Feedback(true, "Fehler: " + FetchTableNames(token, baseId, outcome).message))
          && (FetchTableNames(token, baseId, outcome).Ok? && FindConfig(old(configs), configId).None? ==>
                feedback == Feedback(true, "Fehler: Config not found"))
          && (FetchTableNames(token, baseId, outcome).Ok? && FindConfig(old(configs), configId).Some? ==>
                !feedback.isError)
    {
      var token := Trim(tokenInput);
      var baseId := Trim(baseInput);
      if token == "" || baseId == "" {
        return Feedback(true, "Bitte Token und Base ID angeben");
      }
      if !StartsWith(token, "pat") {
        return Feedback(true, "Token muss mit \"pat\" beginnen");
      }
      if !StartsWith(baseId, "app") {
        return Feedback(true, "Base ID muss mit \"app\" beginnen");
      }
      var fetched := FetchTableNames(token, baseId, outcome);
      if fetched.Err? {
        return Feedback(true, "Fehler: " + fetched.message);
      }
      var tables := fetched.value;
      var found := FindConfig(configs, configId);
      if found.None? {
        return Feedback(true, "Fehler: Config not found");
      }
      var i := found.value;
      var config := configs[i];
      var configured := if config.configuredTables.Some? then config.configuredTables.value else map[];
      configs := configs[i := config.(token := token, baseId := baseId, tables := Some(tables),
                                      configuredTables := Some(configured))];
      feedback := Feedback(false, "\U{2705} Erfolgreich! " + NatToString(|tables|) + " Tabellen gefunden.");
    }
  }

  /** Every edit of the manager leaves the nested `config` object of every base
      as it was: bases the manager creates never have one. */
  lemma ManagerNeverWritesNestedConfig(cs: seq<BaseConfig>, stamp: int, configId: string, tableId: string,
                                       outcome: Exchange<MetaBody>)
    requires NoNestedConfig(cs)
    ensures NoNestedConfig(cs + [NewBase(stamp, |cs|)])
    ensures NoNestedConfig(Toggled(cs, configId, tableId))
    ensures NoNestedConfig(Deleted(cs, configId))
    ensures NoNestedConfig(LoadFields(cs, configId, tableId, outcome).0)
  {
    var added := cs + [NewBase(stamp, |cs|)];
    assert forall j :: 0 <= j < |cs| ==> added[j] == cs[j];
    ToggleKeepsNestedConfig(cs, configId, tableId);
    DeleteKeepsNestedConfig(cs, configId);
    LoadKeepsNestedConfig(cs, configId, tableId, outcome);
  }

  lemma ToggleKeepsNestedConfig(cs: seq<BaseConfig>, configId: string, tableId: string)
    ensures |Toggled(cs, configId, tableId)| == |cs|
    ensures forall j :: 0 <= j < |cs| ==> Toggled(cs, configId, tableId)[j].config == cs[j].config
  {
  }

  lemma DeleteKeepsNestedConfig(cs: seq<BaseConfig>, configId: string)
    ensures NoNestedConfig(cs) ==> NoNestedConfig(Deleted(cs, configId))
  {
    if FindConfig(cs, configId).Some? && NoNestedConfig(cs) {
      var i := FindConfig(cs, configId).value;
      var d := Deleted(cs, configId);
      assert d == cs[..i] + cs[i + 1..];
      forall j | 0 <= j < |d| ensures d[j].config.None? {
        if j >= i { assert d[j] == cs[j + 1]; }
      }
    }
  }

  lemma LoadKeepsNestedConfig(cs: seq<BaseConfig>, configId: string, tableId: string, outcome: Exchange<MetaBody>)
    ensures |LoadFields(cs, configId, tableId, outcome).0| == |cs|
    ensures forall j :: 0 <= j < |cs| ==> LoadFields(cs, configId, tableId, outcome).0[j].config == cs[j].config
  {
    match FindConfig(cs, configId)
    case None =>
    case Some(i) =>
      if LoadInto(cs[i], tableId, outcome).1.FieldsLoaded? {
        LoadIntoKeepsTables(cs[i], tableId, outcome);
      }
  }

  /** No base carries the nested `config` object. */
  predicate NoNestedConfig(cs: seq<BaseConfig>)
  {
    forall j :: 0 <= j < |cs| ==> cs[j].config.None?
  }
}
