/**
 * The popup's destination logic: merging the stored webhooks and Airtable
 * bases into one list of destinations, grouping them in the destination
 * dropdown, selecting one, the form of an Airtable table (which fields, in
 * which order, with which kind of input), and the description of the chosen
 * webhook template.
 *
 * Storage reads are parameters (`None` when a key is not stored), and the
 * DOM is modelled by what it would show: dropdown entries, form elements and
 * input kinds.
 */
module Popup {
  import opened Common
  import opened WebhookManager
  import opened AirtableManager

  // ---------------------------------------------------------------------------
  // Destinations
  // ---------------------------------------------------------------------------

  const WebhookIcon := "\U{1F4E4}"
  const AirtableIcon := "\U{1F4CA}"

  /** What a destination sends to, with its stored configuration. */
  datatype DestinationConfig = WebhookSettings(webhook: WebhookConfig) | AirtableSettings(base: BaseConfig)

  /** One entry of the merged list; its type is the kind of its configuration. */
  datatype Destination = Destination(id: Option<string>, name: Option<string>, icon: string,
                                     displayName: string, config: DestinationConfig)

  predicate IsWebhook(d: Destination)
  {
    d.config.WebhookSettings?
  }

  /** The entry of a stored webhook; the name read is the legacy `name`
      field, so a webhook saved by the settings page is shown as "undefined". */
  function WebhookDestination(w: WebhookConfig): Destination
  {
    Destination(w.id, w.name, WebhookIcon, WebhookIcon + " " + Show(w.name), WebhookSettings(w))
  }

  function AirtableDestination(b: BaseConfig): Destination
  {
    Destination(Some(b.id), Some(b.name), AirtableIcon, AirtableIcon + " " + b.name, AirtableSettings(b))
  }

  function WebhookDestinations(ws: seq<WebhookConfig>): (ds: seq<Destination>)
    ensures |ds| == |ws| && forall i :: 0 <= i < |ws| ==> ds[i] == WebhookDestination(ws[i])
  {
    seq(|ws|, i requires 0 <= i < |ws| => WebhookDestination(ws[i]))
  }

  function AirtableDestinations(bs: seq<BaseConfig>): (ds: seq<Destination>)
    ensures |ds| == |bs| && forall i :: 0 <= i < |bs| ==> ds[i] == AirtableDestination(bs[i])
  {
    seq(|bs|, i requires 0 <= i < |bs| => AirtableDestination(bs[i]))
  }

  lemma WebhookDestinationsStep(ws: seq<WebhookConfig>, i: nat)
    requires i < |ws|
    ensures WebhookDestinations(ws[..i + 1]) == WebhookDestinations(ws[..i]) + [WebhookDestination(ws[i])]
  {
    var a, b := WebhookDestinations(ws[..i + 1]), WebhookDestinations(ws[..i]) + [WebhookDestination(ws[i])];
    assert |a| == |b|;
    forall k | 0 <= k < |a| ensures a[k] == b[k] {
      assert ws[..i + 1][k] == ws[k];
    }
  }

  lemma AirtableDestinationsStep(bs: seq<BaseConfig>, j: nat)
    requires j < |bs|
    ensures AirtableDestinations(bs[..j + 1]) == AirtableDestinations(bs[..j]) + [AirtableDestination(bs[j])]
  {
    var a, b := AirtableDestinations(bs[..j + 1]), AirtableDestinations(bs[..j]) + [AirtableDestination(bs[j])];
    assert |a| == |b|;
    forall k | 0 <= k < |a| ensures a[k] == b[k] {
      assert bs[..j + 1][k] == bs[k];
    }
  }

  /** The `webhooks.forEach(... destinations.push(...))` loop of `loadDestinations()`. */
  method PushWebhooks(webhooks: seq<WebhookConfig>) returns (list: seq<Destination>)
    ensures list == WebhookDestinations(webhooks)
  {
    list := [];
    var i := 0;
    while i < |webhooks|
      invariant 0 <= i <= |webhooks|
      invariant list == WebhookDestinations(webhooks[..i])
    {
      WebhookDestinationsStep(webhooks, i);
      list := list + [WebhookDestination(webhooks[i])];
      i := i + 1;
    }
    assert webhooks[..i] == webhooks;
  }

  /** The `airtableBases.forEach(... destinations.push(...))` loop of `loadDestinations()`. */
  method PushAirtableBases(airtableBases: seq<BaseConfig>) returns (list: seq<Destination>)
    ensures list == AirtableDestinations(airtableBases)
  {
    list := [];
    var j := 0;
    while j < |airtableBases|
      invariant 0 <= j <= |airtableBases|
      invariant list == AirtableDestinations(airtableBases[..j])
    {
      AirtableDestinationsStep(airtableBases, j);
      list := list + [AirtableDestination(airtableBases[j])];
      j := j + 1;
    }
    assert airtableBases[..j] == airtableBases;
  }

  /** The merged list: every webhook, then every base, each in stored order. */
  function Merged(ws: seq<WebhookConfig>, bs: seq<BaseConfig>): seq<Destination>
  {
    WebhookDestinations(ws) + AirtableDestinations(bs)
  }

  /** `destinations.filter(d => d.type === 'webhook')` */
  function Webhooks(ds: seq<Destination>): seq<Destination>
  {
    if ds == [] then []
    else Webhooks(ds[..|ds| - 1]) + (if IsWebhook(ds[|ds| - 1]) then [ds[|ds| - 1]] else [])
  }

  /** `destinations.filter(d => d.type === 'airtable')` */
  function Airtables(ds: seq<Destination>): seq<Destination>
  {
    if ds == [] then []
    else Airtables(ds[..|ds| - 1]) + (if !IsWebhook(ds[|ds| - 1]) then [ds[|ds| - 1]] else [])
  }

  /** Every destination is in exactly one of the two groups. */
  lemma {:induction false} GroupsPartition(ds: seq<Destination>)
    ensures |Webhooks(ds)| + |Airtables(ds)| == |ds|
    ensures forall d :: d in Webhooks(ds) ==> d in ds && IsWebhook(d)
    ensures forall d :: d in Airtables(ds) ==> d in ds && !IsWebhook(d)
  {
    if ds != [] {
      GroupsPartition(ds[..|ds| - 1]);
    }
  }

  lemma {:induction false} FilterConcat(a: seq<Destination>, b: seq<Destination>)
    ensures Webhooks(a + b) == Webhooks(a) + Webhooks(b)
    ensures Airtables(a + b) == Airtables(a) + Airtables(b)
    decreases |b|
  {
    if b == [] {
      assert a + b == a;
    } else {
      var n := |b| - 1;
      assert (a + b)[..|a + b| - 1] == a + b[..n];
      FilterConcat(a, b[..n]);
    }
  }

  /** A list of webhooks only is its own webhook group and has no Airtable group. */
  lemma {:induction false} FilterOfAllWebhooks(ds: seq<Destination>)
    requires forall i :: 0 <= i < |ds| ==> IsWebhook(ds[i])
    ensures Webhooks(ds) == ds && Airtables(ds) == []
  {
    if ds != [] {
      var n := |ds| - 1;
      var pre := ds[..n];
      assert IsWebhook(ds[n]);
      assert Webhooks(ds) == Webhooks(pre) + [ds[n]];
      assert forall i :: 0 <= i < n ==> pre[i] == ds[i];
      FilterOfAllWebhooks(pre);
      assert pre + [ds[n]] == ds;
    }
    GroupsPartition(ds);
  }

  /** A list of bases only is its own Airtable group and has no webhook group. */
  lemma {:induction false} FilterOfAllBases(ds: seq<Destination>)
    requires forall i :: 0 <= i < |ds| ==> !IsWebhook(ds[i])
    ensures Webhooks(ds) == [] && Airtables(ds) == ds
  {
    if ds != [] {
      var n := |ds| - 1;
      var pre := ds[..n];
      assert !IsWebhook(ds[n]);
      assert Airtables(ds) == Airtables(pre) + [ds[n]];
      assert forall i :: 0 <= i < n ==> pre[i] == ds[i];
      FilterOfAllBases(pre);
      assert pre + [ds[n]] == ds;
    }
    GroupsPartition(ds);
  }

  /** The merged list has one entry per webhook followed by one per base,
      each carrying its stored configuration and id. */
  lemma MergedSpec(ws: seq<WebhookConfig>, bs: seq<BaseConfig>)
    ensures |Merged(ws, bs)| == |ws| + |bs|
    ensures forall i :: 0 <= i < |ws| ==> Merged(ws, bs)[i].config == WebhookSettings(ws[i]) && Merged(ws, bs)[i].id == ws[i].id
    ensures forall j :: |ws| <= j < |ws| + |bs| ==>
      Merged(ws, bs)[j].config == AirtableSettings(bs[j - |ws|]) && Merged(ws, bs)[j].id == Some(bs[j - |ws|].id)
  {
  }

  /** Filtering the merged list by kind gives back each group in stored order. */
  lemma MergedGroups(ws: seq<WebhookConfig>, bs: seq<BaseConfig>)
    ensures Webhooks(Merged(ws, bs)) == WebhookDestinations(ws)
    ensures Airtables(Merged(ws, bs)) == AirtableDestinations(bs)
  {
    var w, a := WebhookDestinations(ws), AirtableDestinations(bs);
    FilterConcat(w, a);
    FilterOfAllWebhooks(w);
    FilterOfAllBases(a);
    assert Webhooks(w + a) == w + [];
    assert Airtables(w + a) == [] + a;
  }

  /** Every display name is the icon of its kind, a space, and the name. */
  lemma DisplayNameSpec(ws: seq<WebhookConfig>, bs: seq<BaseConfig>, i: nat)
    requires i < |ws| + |bs|
    ensures var d := Merged(ws, bs)[i];
      && d.displayName == d.icon + " " + Show(d.name)
      && d.icon == (if IsWebhook(d) then WebhookIcon else AirtableIcon)
  {
  }

  // ---------------------------------------------------------------------------
  // The dropdown
  // ---------------------------------------------------------------------------

  datatype DropdownOption = DropdownOption(text: string, value: string, disabled: bool)

  /** A top-level option, or an option group with its label. */
  datatype DropdownEntry = Standalone(option: DropdownOption) | Group(heading: string, options: seq<DropdownOption>)

  const Placeholder := DropdownOption("Select destination...", "", false)
  const NothingConfigured := DropdownOption("No destinations configured", "", true)
  const WebhookGroupLabel := "\U{2501}\U{2501}\U{2501}\U{2501}\U{2501}\U{2501} WEBHOOKS \U{2501}\U{2501}\U{2501}\U{2501}\U{2501}\U{2501}"
  const AirtableGroupLabel := "\U{2501}\U{2501}\U{2501}\U{2501}\U{2501}\U{2501} AIRTABLE \U{2501}\U{2501}\U{2501}\U{2501}\U{2501}\U{2501}"

  /** `new Option(displayName, id)`: without an id the option's value is its text. */
  function OptionOf(d: Destination): DropdownOption
  {
    DropdownOption(d.displayName, if d.id.Some? then d.id.value else d.displayName, false)
  }

  function OptionsOf(ds: seq<Destination>): (os: seq<DropdownOption>)
    ensures |os| == |ds| && forall i :: 0 <= i < |ds| ==> os[i] == OptionOf(ds[i])
  {
    seq(|ds|, i requires 0 <= i < |ds| => OptionOf(ds[i]))
  }

  /** An option group for a non-empty kind, nothing for an empty one. */
  function GroupOf(heading: string, ds: seq<Destination>): seq<DropdownEntry>
  {
    if ds != [] then [Group(heading, OptionsOf(ds))] else []
  }

  /** `populateDestinationDropdown()` */
  function Dropdown(ds: seq<Destination>): seq<DropdownEntry>
  {
    if ds == [] then [Standalone(Placeholder), Standalone(NothingConfigured)]
    else [Standalone(Placeholder)] + GroupOf(WebhookGroupLabel, Webhooks(ds)) + GroupOf(AirtableGroupLabel, Airtables(ds))
  }

  /** The options inside the groups, in order. */
  function GroupedOptions(es: seq<DropdownEntry>): seq<DropdownOption>
  {
    if es == [] then []
    else GroupedOptions(es[..|es| - 1]) + (if es[|es| - 1].Group? then es[|es| - 1].options else [])
  }

  lemma {:induction false} GroupedOptionsConcat(a: seq<DropdownEntry>, b: seq<DropdownEntry>)
    ensures GroupedOptions(a + b) == GroupedOptions(a) + GroupedOptions(b)
    decreases |b|
  {
    if b == [] {
      assert a + b == a;
    } else {
      var n := |b| - 1;
      assert (a + b)[..|a + b| - 1] == a + b[..n];
      GroupedOptionsConcat(a, b[..n]);
    }
  }

  lemma GroupedOptionsOfGroup(heading: string, ds: seq<Destination>)
    ensures GroupedOptions(GroupOf(heading, ds)) == OptionsOf(ds)
  {
    if ds != [] {
      assert GroupOf(heading, ds)[..0] == [];
    }
  }

  /** An empty list gives the placeholder and one disabled option. Otherwise
      the placeholder comes first, followed by a webhook group exactly when a
      webhook exists and an Airtable group exactly when a base exists. */
  lemma DropdownGroups(ds: seq<Destination>)
    ensures ds == [] ==> Dropdown(ds) == [Standalone(Placeholder), Standalone(NothingConfigured)] && NothingConfigured.disabled
    ensures ds != [] ==>
      && Dropdown(ds)[0] == Standalone(Placeholder)
      && (Group(WebhookGroupLabel, OptionsOf(Webhooks(ds))) in Dropdown(ds) <==> exists d :: d in ds && IsWebhook(d))
      && (Group(AirtableGroupLabel, OptionsOf(Airtables(ds))) in Dropdown(ds) <==> exists d :: d in ds && !IsWebhook(d))
  {
    if ds != [] {
      WebhooksNonEmpty(ds);
      var w, a := GroupOf(WebhookGroupLabel, Webhooks(ds)), GroupOf(AirtableGroupLabel, Airtables(ds));
      assert Dropdown(ds) == [Standalone(Placeholder)] + w + a;
      assert Group(WebhookGroupLabel, OptionsOf(Webhooks(ds))) in Dropdown(ds) <==> Webhooks(ds) != [];
      assert Group(AirtableGroupLabel, OptionsOf(Airtables(ds))) in Dropdown(ds) <==> Airtables(ds) != [];
    }
  }

  /** The groups offer one option per destination, webhooks first, each kind in list order. */
  lemma DropdownOptions(ds: seq<Destination>)
    requires ds != []
    ensures GroupedOptions(Dropdown(ds)) == OptionsOf(Webhooks(ds)) + OptionsOf(Airtables(ds))
    ensures |GroupedOptions(Dropdown(ds))| == |ds|
  {
    GroupsPartition(ds);
    var p: seq<DropdownEntry> := [Standalone(Placeholder)];
    var w, a := GroupOf(WebhookGroupLabel, Webhooks(ds)), GroupOf(AirtableGroupLabel, Airtables(ds));
    GroupedOptionsConcat(p + w, a);
    GroupedOptionsConcat(p, w);
    assert GroupedOptions(p) == [] by {
      assert p[..0] == [];
    }
    GroupedOptionsOfGroup(WebhookGroupLabel, Webhooks(ds));
    GroupedOptionsOfGroup(AirtableGroupLabel, Airtables(ds));
  }

  lemma {:induction false} WebhooksNonEmpty(ds: seq<Destination>)
    ensures Webhooks(ds) != [] <==> exists d :: d in ds && IsWebhook(d)
    ensures Airtables(ds) != [] <==> exists d :: d in ds && !IsWebhook(d)
  {
    if ds != [] {
      var pre := ds[..|ds| - 1];
      WebhooksNonEmpty(pre);
      assert forall d :: d in ds <==> d in pre || d == ds[|ds| - 1];
    }
  }

  /** For the merged list, the dropdown offers the destinations in the merged order. */
  lemma DropdownOfMerged(ws: seq<WebhookConfig>, bs: seq<BaseConfig>)
    requires |ws| + |bs| > 0
    ensures GroupedOptions(Dropdown(Merged(ws, bs))) == OptionsOf(Merged(ws, bs))
  {
    var m := Merged(ws, bs);
    MergedGroups(ws, bs);
    DropdownOptions(m);
    OptionsOfConcat(WebhookDestinations(ws), AirtableDestinations(bs));
  }

  lemma OptionsOfConcat(a: seq<Destination>, b: seq<Destination>)
    ensures OptionsOf(a + b) == OptionsOf(a) + OptionsOf(b)
  {
    assert forall i :: 0 <= i < |a| + |b| ==> (OptionsOf(a) + OptionsOf(b))[i] == OptionOf((a + b)[i]);
  }

  // ---------------------------------------------------------------------------
  // Selection
  // ---------------------------------------------------------------------------

  /** `destinations.find(d => d.id === id)`, as an index. */
  function FindDestination(ds: seq<Destination>, id: string): (r: Option<nat>)
    ensures r.Some? ==> r.value < |ds| && ds[r.value].id == Some(id)
    ensures r.Some? ==> forall j :: 0 <= j < r.value ==> ds[j].id != Some(id)
    ensures r.None? ==> forall j :: 0 <= j < |ds| ==> ds[j].id != Some(id)
  {
    if ds == [] then None
    else if ds[0].id == Some(id) then Some(0)
    else match FindDestination(ds[1..], id)
      case None => None
      case Some(k) => Some(k + 1)
  }

  const NoDestinationsMessage := "\U{26A0}\U{FE0F} Keine Destinations konfiguriert. Bitte gehe zu Einstellungen."
  const DestinationNotFoundMessage := "\U{274C} Destination nicht gefunden"

  /** What choosing an entry of the dropdown does. */
  datatype Selection = NothingSelected | Unknown(message: string) | Selected(destination: Destination)

  class PopupState {
    /** the module-level `destinations`, also published as `window.destinations` */
    var destinations: seq<Destination>
    var currentDestination: Option<Destination>

    constructor ()
      ensures destinations == [] && currentDestination == None
    {
      destinations := [];
      currentDestination := None;
    }

    /** `loadDestinations()`, given the stored `webhookConfigs` and `airtableConfigs`. */
    method LoadDestinations(webhookConfigs: Option<seq<WebhookConfig>>, airtableConfigs: Option<seq<BaseConfig>>)
      returns (status: Option<string>)
      modifies this
      ensures destinations == Merged(if webhookConfigs.Some? then webhookConfigs.value else [],
                                     if airtableConfigs.Some? then airtableConfigs.value else [])
      ensures status == (if destinations == [] then Some(NoDestinationsMessage) else None)
      ensures currentDestination == old(currentDestination)
    {
      var webhooks := if webhookConfigs.Some? then webhookConfigs.value else [];
      var airtableBases := if airtableConfigs.Some? then airtableConfigs.value else [];
      var webhookEntries := PushWebhooks(webhooks);
      var airtableEntries := PushAirtableBases(airtableBases);
      destinations := webhookEntries + airtableEntries;
      status := if destinations == [] then Some(NoDestinationsMessage) else None;
    }

    /** The destination part of `renderFieldsForDestination(destinationId)`:
        an empty id selects nothing, an unknown id is reported, a known one
        becomes the current destination. */
    method RenderFieldsForDestination(destinationId: string) returns (r: Selection)
      modifies this
      ensures destinations == old(destinations)
      ensures destinationId == "" ==> r == NothingSelected && currentDestination == old(currentDestination)
      ensures destinationId != "" && FindDestination(destinations, destinationId).None? ==>
        r == Unknown(DestinationNotFoundMessage) && currentDestination == old(currentDestination)
      ensures destinationId != "" && FindDestination(destinations, destinationId).Some? ==>
        var d := destinations[FindDestination(destinations, destinationId).value];
        r == Selected(d) && currentDestination == Some(d)
    {
      if destinationId == "" {
        return NothingSelected;
      }
      match FindDestination(destinations, destinationId)
      case None =>
        r := Unknown(DestinationNotFoundMessage);
      case Some(k) =>
        currentDestination := Some(destinations[k]);
        r := Selected(destinations[k]);
    }
  }

  /** After loading, every stored base with a non-empty id can be selected by
      that id, and the selection is an entry carrying it. */
  lemma SelectableAfterLoad(ws: seq<WebhookConfig>, bs: seq<BaseConfig>, j: nat)
    requires j < |bs| && bs[j].id != ""
    ensures FindDestination(Merged(ws, bs), bs[j].id).Some?
    ensures Merged(ws, bs)[FindDestination(Merged(ws, bs), bs[j].id).value].id == Some(bs[j].id)
  {
    MergedSpec(ws, bs);
    assert Merged(ws, bs)[|ws| + j].id == Some(bs[j].id);
  }

  // ---------------------------------------------------------------------------
  // The form of an Airtable table
  // ---------------------------------------------------------------------------

  /** One option of a select input. */
  datatype SelectEntry = SelectEntry(value: string, caption: string)

  /** The kind of input rendered for a field. */
  datatype InputKind =
    | Textarea
    | CheckboxInput
    | SelectInput(multiple: bool, options: seq<SelectEntry>)
    | NumberInput
    | DateInput
    | DateTimeInput
    | TextInput

  /** One rendered field: the input's id (also the label's target), the label
      text, and the field id and type stored in the input's data attributes. */
  datatype FieldElement = FieldElement(elementId: string, caption: string, fieldId: string,
                                       fieldType: string, input: InputKind)

  const NoCollaboratorsCaption := "Keine Bearbeiter in Eintr\U{00E4}gen gefunden"

  function CollaboratorEntry(c: Collaborator): SelectEntry
  {
    SelectEntry(c.id, c.name + (if c.email != "" then " (" + c.email + ")" else ""))
  }

  function ChoicesOf(f: Field): seq<Choice>
  {
    if f.options.SelectOptions? then f.options.choices else []
  }

  /** The `switch` of `createFieldElement` on the field's type. */
  function InputFor(f: Field, collaborators: seq<Collaborator>): InputKind
  {
    match f.fieldType
    case "multilineText" => Textarea
    case "richText" => Textarea
    case "checkbox" => CheckboxInput
    case "singleCollaborator" => CollaboratorSelect(false, collaborators)
    case "multipleCollaborators" => CollaboratorSelect(true, collaborators)
    case "singleSelect" =>
      var cs := ChoicesOf(f);
      SelectInput(false, [SelectEntry("", "Select...")] + seq(|cs|, i requires 0 <= i < |cs| => SelectEntry(cs[i].id, cs[i].name)))
    case "number" => NumberInput
    case "currency" => NumberInput
    case "percent" => NumberInput
    case "date" => DateInput
    case "dateTime" => DateTimeInput
    case _ => TextInput
  }

  function CollaboratorSelect(multiple: bool, collaborators: seq<Collaborator>): InputKind
  {
    if collaborators == [] then SelectInput(multiple, [SelectEntry("", NoCollaboratorsCaption)])
    else SelectInput(multiple, [SelectEntry("", "Select...")]
                               + seq(|collaborators|, i requires 0 <= i < |collaborators| => CollaboratorEntry(collaborators[i])))
  }

  /** The type table of the form: each kind of input and the field types that
      get it; every select starts with an option of empty value, and a
      collaborator select offers one option per collaborator, by id. */
  lemma InputKindByType(f: Field, collaborators: seq<Collaborator>)
    ensures var k := InputFor(f, collaborators);
      && (k == Textarea <==> f.fieldType == "multilineText" || f.fieldType == "richText")
      && (k == CheckboxInput <==> f.fieldType == "checkbox")
      && (k.SelectInput? <==> IsCollaboratorType(f.fieldType) || f.fieldType == "singleSelect")
      && (k.SelectInput? ==> k.multiple == (f.fieldType == "multipleCollaborators") && k.options[0].value == "")
      && (k == NumberInput <==> f.fieldType == "number" || f.fieldType == "currency" || f.fieldType == "percent")
      && (k == DateInput <==> f.fieldType == "date")
      && (k == DateTimeInput <==> f.fieldType == "dateTime")
      && (k == TextInput <==> !KnownInputType(f.fieldType))
      && (IsCollaboratorType(f.fieldType) && collaborators != [] ==>
            |k.options| == |collaborators| + 1
            && forall i :: 0 <= i < |collaborators| ==> k.options[i + 1].value == collaborators[i].id)
      && (f.fieldType == "singleSelect" ==>
            |k.options| == |ChoicesOf(f)| + 1
            && forall i :: 0 <= i < |ChoicesOf(f)| ==> k.options[i + 1] == SelectEntry(ChoicesOf(f)[i].id, ChoicesOf(f)[i].name))
  {
  }

  /** The field types `createFieldElement` names in its switch. */
  predicate KnownInputType(t: string)
  {
    t == "multilineText" || t == "richText" || t == "checkbox" || IsCollaboratorType(t)
    || t == "singleSelect" || t == "number" || t == "currency" || t == "percent" || t == "date" || t == "dateTime"
  }

  /** `createFieldElement(field, collaborators, elementId)` */
  function CreateFieldElement(f: Field, collaborators: seq<Collaborator>, elementId: Option<string>): FieldElement
  {
    FieldElement(if Truthy(elementId) then elementId.value else "airtable-field-" + f.id,
                 f.name, f.id, f.fieldType, InputFor(f, collaborators))
  }

  /** `fields.find(f => f.id === id)` */
  function FindField(fs: seq<Field>, id: string): (r: Option<Field>)
    ensures r.Some? ==> r.value in fs && r.value.id == id
    ensures r.Some? ==> exists k :: 0 <= k < |fs| && fs[k] == r.value && forall j :: 0 <= j < k ==> fs[j].id != id
    ensures r.None? ==> forall f :: f in fs ==> f.id != id
  {
    if fs == [] then None
    else if fs[0].id == id then Some(fs[0])
    else FindField(fs[1..], id)
  }

  const NotesElementId := "airtable-field-notes"

  /** The notes element: rendered when the notes mapping is set and names a field of the table. */
  function NotesElements(fs: seq<Field>, mappings: Option<FieldMappings>, collaborators: seq<Collaborator>)
    : seq<FieldElement>
  {
    if mappings.Some? && Notes in mappings.value && mappings.value[Notes] != "" then
      match FindField(fs, mappings.value[Notes])
      case Some(f) => [CreateFieldElement(f, collaborators, Some(NotesElementId))]
      case None => []
    else []
  }

  /** The custom field elements, one per selected id that names a field. */
  function CustomElements(fs: seq<Field>, ids: seq<string>, collaborators: seq<Collaborator>): seq<FieldElement>
  {
    if ids == [] then []
    else
      CustomElements(fs, ids[..|ids| - 1], collaborators)
      + match FindField(fs, ids[|ids| - 1])
        case Some(f) => [CreateFieldElement(f, collaborators, None)]
        case None => []
  }

  /** The selected ids that name a field of the table, in stored order. */
  function KnownIds(fs: seq<Field>, ids: seq<string>): seq<string>
  {
    if ids == [] then []
    else KnownIds(fs, ids[..|ids| - 1]) + (if FindField(fs, ids[|ids| - 1]).Some? then [ids[|ids| - 1]] else [])
  }

  /** The custom elements are the known selected ids, in stored order, each
      with its own element id; unknown ids are skipped. */
  lemma {:induction false} CustomElementsSpec(fs: seq<Field>, ids: seq<string>, collaborators: seq<Collaborator>)
    ensures |CustomElements(fs, ids, collaborators)| == |KnownIds(fs, ids)|
    ensures forall k :: 0 <= k < |KnownIds(fs, ids)| ==>
      && CustomElements(fs, ids, collaborators)[k].fieldId == KnownIds(fs, ids)[k]
      && CustomElements(fs, ids, collaborators)[k].elementId == "airtable-field-" + KnownIds(fs, ids)[k]
    ensures forall id :: id in KnownIds(fs, ids) <==> id in ids && exists f :: f in fs && f.id == id
  {
    if ids != [] {
      var pre := ids[..|ids| - 1];
      CustomElementsSpec(fs, pre, collaborators);
      assert forall id :: id in ids <==> id in pre || id == ids[|ids| - 1];
    }
  }

  /** What the table area of the popup shows. */
  datatype TableForm =
    | NoTableChosen
    | ConfigurationMissing
    | FieldsNotLoaded
    | RenderFailed
    | FormFields(elements: seq<FieldElement>)

  /** `destination.config.tables?.find(t => t.id === tableId)` */
  function FindTableOf(b: BaseConfig, tableId: string): (r: Option<Table>)
    ensures r.Some? ==> b.tables.Some? && r.value in b.tables.value && r.value.id == tableId
    ensures r.Some? ==>
      exists k :: 0 <= k < |b.tables.value| && b.tables.value[k] == r.value && forall j :: 0 <= j < k ==> b.tables.value[j].id != tableId
    ensures r.None? ==> b.tables.None? || forall t :: t in b.tables.value ==> t.id != tableId
  {
    if b.tables.Some? then
      match FindTable(b.tables.value, tableId)
      case Some(k) => Some(b.tables.value[k])
      case None => None
    else None
  }

  function HasCollaboratorField(fs: seq<Field>): bool
  {
    exists f :: f in fs && IsCollaboratorType(f.fieldType)
  }

  /** `renderAirtableTableFields(destination, tableId)` for a base. The
      collaborators are fetched only when the table has a collaborator field;
      `fetched` is that fetch's outcome, and a failed fetch leaves the list empty. */
  function RenderAirtableTableFields(b: BaseConfig, tableId: string, fetched: Result<seq<Collaborator>>): TableForm
  {
    if tableId == "" then NoTableChosen
    else
      var schema := FindTableOf(b, tableId);
      var config := if b.configuredTables.Some? && tableId in b.configuredTables.value
                    then Some(b.configuredTables.value[tableId]) else None;
      if schema.None? || config.None? then ConfigurationMissing
      else if !schema.value.fieldsLoaded then FieldsNotLoaded
      else if schema.value.fields.None? then RenderFailed
      else FieldsForm(schema.value.fields.value, config.value, fetched)
  }

  /** The form of a loaded table: the notes element, then the custom elements. */
  function FieldsForm(fs: seq<Field>, tc: TableConfig, fetched: Result<seq<Collaborator>>): TableForm
  {
    var collaborators := CollaboratorsFor(fs, fetched);
    FormFields(NotesElements(fs, tc.fieldMappings, collaborators) + CustomElements(fs, SelectedIds(tc), collaborators))
  }

  /** The collaborators offered: fetched only for a table with a collaborator field. */
  function CollaboratorsFor(fs: seq<Field>, fetched: Result<seq<Collaborator>>): seq<Collaborator>
  {
    if HasCollaboratorField(fs) && fetched.Ok? then fetched.value else []
  }

  /** `tableConfig.selectedCustomFields`, none when absent. */
  function SelectedIds(tc: TableConfig): seq<string>
  {
    if tc.selectedCustomFields.Some? then tc.selectedCustomFields.value else []
  }

  /** The form stops when no table is chosen, without a schema and
      configuration entry, or before the fields are loaded. */
  lemma TableFormStops(b: BaseConfig, tableId: string, fetched: Result<seq<Collaborator>>)
    ensures var form := RenderAirtableTableFields(b, tableId, fetched);
      && (tableId == "" <==> form == NoTableChosen)
      && (tableId != "" && (FindTableOf(b, tableId).None? || !(b.configuredTables.Some? && tableId in b.configuredTables.value))
          ==> form == ConfigurationMissing)
      && (FindTableOf(b, tableId).Some? && !FindTableOf(b, tableId).value.fieldsLoaded ==> !form.FormFields?)
  {
  }

  /** A rendered form shows the notes field (when mapped to a field of the
      table) first, under its fixed element id, followed by the selected custom
      fields that exist, in stored order. */
  lemma TableFormSpec(b: BaseConfig, tableId: string, fetched: Result<seq<Collaborator>>)
    ensures var form := RenderAirtableTableFields(b, tableId, fetched);
      form.FormFields? ==>
        && FindTableOf(b, tableId).Some? && b.configuredTables.Some? && tableId in b.configuredTables.value
        && FindTableOf(b, tableId).value.fieldsLoaded && FindTableOf(b, tableId).value.fields.Some?
        && var tc := b.configuredTables.value[tableId];
           var fs := FindTableOf(b, tableId).value.fields.value;
           NotesThenCustom(form.elements, fs, tc.fieldMappings, SelectedIds(tc))
  {
    var form := RenderAirtableTableFields(b, tableId, fetched);
    var schema := FindTableOf(b, tableId);
    if form.FormFields? {
      var tc := b.configuredTables.value[tableId];
      var fs := schema.value.fields.value;
      var collaborators := CollaboratorsFor(fs, fetched);
      assert form == FieldsForm(fs, tc, fetched);
      FormElementsShape(fs, tc.fieldMappings, SelectedIds(tc), collaborators);
    }
  }

  /** The notes element, when the notes role is mapped to a field of the table,
      comes first under its fixed element id; then one element per selected id
      that names a field of the table, in stored order. */
  predicate NotesThenCustom(elements: seq<FieldElement>, fs: seq<Field>, mappings: Option<FieldMappings>,
                            custom: seq<string>)
  {
    var notes := NotesElements(fs, mappings, []);
    && |notes| <= 1
    && |elements| == |notes| + |KnownIds(fs, custom)|
    && (|notes| == 1 ==> elements[0].elementId == NotesElementId && elements[0].fieldId == mappings.value[Notes])
    && forall k :: 0 <= k < |KnownIds(fs, custom)| ==> elements[|notes| + k].fieldId == KnownIds(fs, custom)[k]
  }

  /** The rendered elements are the notes element, when there is one, followed
      by one element per known selected id. */
  lemma FormElementsShape(fs: seq<Field>, mappings: Option<FieldMappings>, custom: seq<string>,
                          collaborators: seq<Collaborator>)
    ensures NotesThenCustom(NotesElements(fs, mappings, collaborators) + CustomElements(fs, custom, collaborators),
                            fs, mappings, custom)
  {
    CustomElementsSpec(fs, custom, collaborators);
    NotesElementsShape(fs, mappings, collaborators);
    ConcatFieldIds(NotesElements(fs, mappings, collaborators), CustomElements(fs, custom, collaborators), KnownIds(fs, custom));
  }

  /** Elements following a prefix keep their field ids, shifted by the prefix. */
  lemma ConcatFieldIds(prefix: seq<FieldElement>, elements: seq<FieldElement>, ids: seq<string>)
    requires |elements| == |ids|
    requires forall k :: 0 <= k < |ids| ==> elements[k].fieldId == ids[k]
    ensures |prefix + elements| == |prefix| + |ids|
    ensures forall k :: 0 <= k < |ids| ==> (prefix + elements)[|prefix| + k].fieldId == ids[k]
  {
  }

  /** At most one notes element, under the fixed element id and for the mapped
      field; whether it appears does not depend on the collaborators. */
  lemma NotesElementsShape(fs: seq<Field>, mappings: Option<FieldMappings>, collaborators: seq<Collaborator>)
    ensures var notes := NotesElements(fs, mappings, collaborators);
      && |notes| == |NotesElements(fs, mappings, [])| <= 1
      && (|notes| == 1 ==> notes[0].elementId == NotesElementId && notes[0].fieldId == mappings.value[Notes])
  {
  }

  // ---------------------------------------------------------------------------
  // The template description
  // ---------------------------------------------------------------------------

  /** `templates.find(t => t.name === name)` */
  function FindTemplate(ts: seq<Template>, name: string): (r: Option<Template>)
    ensures r.Some? ==> r.value in ts && r.value.name == name
    ensures r.Some? ==> exists k :: 0 <= k < |ts| && ts[k] == r.value && forall j :: 0 <= j < k ==> ts[j].name != name
    ensures r.None? ==> forall t :: t in ts ==> t.name != name
  {
    if ts == [] then None
    else if ts[0].name == name then Some(ts[0])
    else FindTemplate(ts[1..], name)
  }

  /** `updateTemplateDescription(webhookConfig)` for the selected template name. */
  function TemplateDescription(config: WebhookConfig, selected: string): string
  {
    if selected == "" then ""
    else
      var found := if config.templates.Some? then FindTemplate(config.templates.value, selected) else None;
      if found.Some? && found.value.description != "" then found.value.description else ""
  }

  /** For any webhook, imported ones with repeated names included: no selection
      or no template with the name shows "", and otherwise the description of
      the first template carrying the name is shown. */
  lemma TemplateDescriptionSpec(config: WebhookConfig, selected: string)
    ensures selected == "" ==> TemplateDescription(config, selected) == ""
    ensures selected != "" && (config.templates.None? || forall t :: t in config.templates.value ==> t.name != selected)
      ==> TemplateDescription(config, selected) == ""
    ensures selected != "" && config.templates.Some? ==>
      var ts := config.templates.value;
      forall k :: 0 <= k < |ts| && ts[k].name == selected && (forall j :: 0 <= j < k ==> ts[j].name != selected)
        ==> TemplateDescription(config, selected) == ts[k].description
  {
    if selected != "" && config.templates.Some? {
      var ts := config.templates.value;
      forall k | 0 <= k < |ts| && ts[k].name == selected && (forall j :: 0 <= j < k ==> ts[j].name != selected)
        ensures TemplateDescription(config, selected) == ts[k].description
      {
        var found := FindTemplate(ts, selected);
        assert ts[k] in ts;
        var m :| 0 <= m < |ts| && ts[m] == found.value && forall j :: 0 <= j < m ==> ts[j].name != selected;
        assert m == k;
      }
    }
  }

  /** For a webhook whose templates were saved from the settings form, the
      description shown for a name is the trimmed description of the first
      form row with that name, and "" for a name no row has. */
  lemma DescriptionOfSavedTemplates(config: WebhookConfig, entries: seq<TemplateEntry>, selected: string)
    requires config.templates == Some(SavedTemplates(entries))
    requires selected != ""
    ensures FirstNamed(entries, selected).None? ==> TemplateDescription(config, selected) == ""
    ensures FirstNamed(entries, selected).Some? ==>
      TemplateDescription(config, selected) == FirstNamed(entries, selected).value.description
  {
    SavedTemplatesSpec(entries);
    var found := FindTemplate(SavedTemplates(entries), selected);
    if found.Some? {
      assert found.value.name in Names(SavedTemplates(entries));
    }
  }
}
