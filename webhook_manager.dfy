/**
 * The webhook settings: the stored `webhookConfigs` list and its edits — a new
 * webhook with a fresh id, saving a webhook's label, url and templates,
 * deleting it, adding and removing templates, and replacing the list by an
 * imported one.
 *
 * Dialogs are parameters: `confirmed` is the answer to `confirm`, `answer` the
 * answer to `prompt` (None when cancelled), and `urlParses` whether `new URL`
 * accepts the trimmed url.
 */
module WebhookManager {
  import opened Common

  /** A template of a webhook: a name and what it is for. */
  datatype Template = Template(name: string, description: string)

  /** One stored webhook. Every part may be missing in an imported list; `name`
      is a legacy field that the settings page never writes. */
  datatype WebhookConfig = WebhookConfig(id: Option<string>, labelText: Option<string>, url: Option<string>,
                                         templates: Option<seq<Template>>, name: Option<string>)

  // ---------------------------------------------------------------------------
  // A new webhook
  // ---------------------------------------------------------------------------

  const IdPrefix := "webhook"

  /** The number after the `webhook` prefix of a config's id, as `parseInt` reads it. */
  function SuffixNumber(c: WebhookConfig): Option<int>
  {
    if Truthy(c.id) && StartsWith(c.id.value, IdPrefix) then ParseInt(c.id.value[|IdPrefix|..]) else None
  }

  /** The `maxIdNum` the loop of `addNewWebhook` ends with. */
  function MaxIdNum(configs: seq<WebhookConfig>): nat
  {
    if configs == [] then 0
    else
      var m := MaxIdNum(configs[..|configs| - 1]);
      var n := SuffixNumber(configs[|configs| - 1]);
      if n.Some? && n.value > m then n.value else m
  }

  lemma MaxIdNumStep(configs: seq<WebhookConfig>, i: nat)
    requires i < |configs|
    ensures var m := MaxIdNum(configs[..i]); var n := SuffixNumber(configs[i]);
      MaxIdNum(configs[..i + 1]) == if n.Some? && n.value > m then n.value else m
  {
    assert configs[..i + 1][..i] == configs[..i];
  }

  /** The entry `addNewWebhook` appends. */
  function NewWebhook(maxIdNum: nat): WebhookConfig
  {
    WebhookConfig(Some(IdPrefix + NatToString(maxIdNum + 1)), Some("Webhook " + NatToString(maxIdNum + 1)),
                  Some(""), Some([]), None)
  }

  /** `maxIdNum` bounds every numbered id and is either 0 or one of them. */
  lemma {:induction false} MaxIdNumIsMaximum(configs: seq<WebhookConfig>)
    ensures forall c :: c in configs && SuffixNumber(c).Some? ==> SuffixNumber(c).value <= MaxIdNum(configs)
    ensures MaxIdNum(configs) == 0 || exists c :: c in configs && SuffixNumber(c) == Some(MaxIdNum(configs) as int)
  {
    if configs != [] {
      var pre := configs[..|configs| - 1];
      MaxIdNumIsMaximum(pre);
      assert forall c :: c in configs ==> c in pre || c == configs[|configs| - 1];
      assert forall c :: c in pre ==> c in configs;
    }
  }

  lemma PrefixSplit(p: string, s: string)
    ensures StartsWith(p + s, p) && (p + s)[|p|..] == s
  {
  }

  lemma NumberOfId(c: WebhookConfig, digits: string)
    requires c.id == Some(IdPrefix + digits)
    ensures SuffixNumber(c) == ParseInt(digits)
  {
    PrefixSplit(IdPrefix, digits);
    assert |IdPrefix| == 7;
    assert Truthy(c.id);
  }

  /** The id of the new webhook differs from every stored id. */
  lemma NotNewId(c: WebhookConfig, m: nat)
    requires SuffixNumber(c).Some? ==> SuffixNumber(c).value <= m
    ensures c.id != Some(IdPrefix + NatToString(m + 1))
  {
    if c.id == Some(IdPrefix + NatToString(m + 1)) {
      NumberOfId(c, NatToString(m + 1));
      ParseIntOfNatToString(m + 1);
    }
  }

  lemma NewIdIsFresh(configs: seq<WebhookConfig>)
    ensures forall c :: c in configs ==> c.id != NewWebhook(MaxIdNum(configs)).id
  {
    var m := MaxIdNum(configs);
    MaxIdNumIsMaximum(configs);
    forall c | c in configs ensures c.id != Some(IdPrefix + NatToString(m + 1)) {
      NotNewId(c, m);
    }
  }

  // ---------------------------------------------------------------------------
  // Saving a webhook
  // ---------------------------------------------------------------------------

  /** One template row of the form: its tag text (missing when the row has no
      tag) and the description typed in. */
  datatype TemplateEntry = TemplateEntry(tag: Option<string>, descriptionInput: string)

  function Names(list: seq<Template>): set<string>
  {
    set t | t in list :: t.name
  }

  /** One step of the form scan: a named row whose name is new is kept, with its
      description trimmed; a row with a repeated name is skipped. */
  function KeepEntry(list: seq<Template>, e: TemplateEntry): seq<Template>
  {
    if Truthy(e.tag) && e.tag.value !in Names(list) then list + [Template(e.tag.value, Trim(e.descriptionInput))]
    else list
  }

  /** The templates saved from the form's rows. */
  function SavedTemplates(entries: seq<TemplateEntry>): seq<Template>
  {
    if entries == [] then [] else KeepEntry(SavedTemplates(entries[..|entries| - 1]), entries[|entries| - 1])
  }

  lemma SavedTemplatesStep(entries: seq<TemplateEntry>, k: nat)
    requires k < |entries|
    ensures SavedTemplates(entries[..k + 1]) == KeepEntry(SavedTemplates(entries[..k]), entries[k])
  {
    assert entries[..k + 1][..k] == entries[..k];
  }

  lemma NamesAppend(list: seq<Template>, t: Template)
    ensures Names(list + [t]) == Names(list) + {t.name}
  {
    assert forall u :: u in list + [t] <==> u in list || u == t;
  }

  /** The template made from the first row carrying the name, if any. */
  function FirstNamed(entries: seq<TemplateEntry>, name: string): Option<Template>
  {
    if entries == [] then None
    else match FirstNamed(entries[..|entries| - 1], name)
      case Some(t) => Some(t)
      case None =>
        var last := entries[|entries| - 1];
        if Truthy(last.tag) && last.tag.value == name then Some(Template(name, Trim(last.descriptionInput))) else None
  }

  predicate DistinctNames(list: seq<Template>)
  {
    forall i, j :: 0 <= i < j < |list| ==> list[i].name != list[j].name
  }

  /** Saved templates have pairwise distinct, non-empty names; every named row is
      represented, and by its first occurrence. */
  lemma {:induction false} SavedTemplatesSpec(entries: seq<TemplateEntry>)
    ensures DistinctNames(SavedTemplates(entries))
    ensures forall t :: t in SavedTemplates(entries) ==> t.name != "" && FirstNamed(entries, t.name) == Some(t)
    ensures forall k :: 0 <= k < |entries| && Truthy(entries[k].tag) ==> entries[k].tag.value in Names(SavedTemplates(entries))
    ensures forall name :: name in Names(SavedTemplates(entries)) <==> FirstNamed(entries, name).Some?
  {
    if entries != [] {
      var pre := entries[..|entries| - 1];
      var e := entries[|entries| - 1];
      var l := SavedTemplates(pre);
      assert SavedTemplates(entries) == KeepEntry(l, e);
      SavedTemplatesSpec(pre);
      if Truthy(e.tag) && e.tag.value !in Names(l) {
        var t := Template(e.tag.value, Trim(e.descriptionInput));
        NamesAppend(l, t);
        forall u | u in l ensures u.name != t.name {
          assert u.name in Names(l);
        }
        AppendFreshName(l, t);
      }
      forall k | 0 <= k < |entries| && Truthy(entries[k].tag)
        ensures entries[k].tag.value in Names(SavedTemplates(entries))
      {
        if k < |pre| {
          assert entries[k] == pre[k];
        }
      }
      forall t | t in l ensures FirstNamed(pre, t.name) == Some(t) && t.name != "" {
      }
    }
  }

  /** The number of rows the form scan alerts on: a named row whose name an
      earlier row already carried. */
  function DuplicateRows(entries: seq<TemplateEntry>): nat
  {
    if entries == [] then 0
    else
      var pre := entries[..|entries| - 1];
      var e := entries[|entries| - 1];
      DuplicateRows(pre) + (if Truthy(e.tag) && e.tag.value in Names(SavedTemplates(pre)) then 1 else 0)
  }

  lemma DuplicateRowsStep(entries: seq<TemplateEntry>, k: nat)
    requires k < |entries|
    ensures DuplicateRows(entries[..k + 1]) == DuplicateRows(entries[..k])
      + (if Truthy(entries[k].tag) && entries[k].tag.value in Names(SavedTemplates(entries[..k])) then 1 else 0)
  {
    assert entries[..k + 1][..k] == entries[..k];
  }

  /** Every saved name is the tag of some row. */
  lemma {:induction false} SavedNamesAreTags(entries: seq<TemplateEntry>)
    ensures forall name :: name in Names(SavedTemplates(entries)) ==>
              exists i :: 0 <= i < |entries| && Truthy(entries[i].tag) && entries[i].tag.value == name
  {
    if entries != [] {
      var pre := entries[..|entries| - 1];
      var e := entries[|entries| - 1];
      assert SavedTemplates(entries) == KeepEntry(SavedTemplates(pre), e);
      SavedNamesAreTags(pre);
      if Truthy(e.tag) && e.tag.value !in Names(SavedTemplates(pre)) {
        NamesAppend(SavedTemplates(pre), Template(e.tag.value, Trim(e.descriptionInput)));
      }
      forall name | name in Names(SavedTemplates(entries))
        ensures exists i :: 0 <= i < |entries| && Truthy(entries[i].tag) && entries[i].tag.value == name
      {
        if name in Names(SavedTemplates(pre)) {
          var i :| 0 <= i < |pre| && Truthy(pre[i].tag) && pre[i].tag.value == name;
          assert entries[i] == pre[i];
        } else {
          assert entries[|entries| - 1] == e;
        }
      }
    }
  }

  predicate SharedName(entries: seq<TemplateEntry>, i: int, j: int)
    requires 0 <= i < |entries| && 0 <= j < |entries|
  {
    Truthy(entries[i].tag) && Truthy(entries[j].tag) && entries[i].tag.value == entries[j].tag.value
  }

  /** An alert means that two named rows carry the same name. */
  lemma {:induction false} AlertedRowsShareName(entries: seq<TemplateEntry>)
    ensures DuplicateRows(entries) > 0 ==> exists i, j :: 0 <= i < j < |entries| && SharedName(entries, i, j)
  {
    if entries != [] && DuplicateRows(entries) > 0 {
      var n := |entries| - 1;
      var pre := entries[..n];
      var e := entries[n];
      if DuplicateRows(pre) > 0 {
        AlertedRowsShareName(pre);
        var i, j :| 0 <= i < j < |pre| && SharedName(pre, i, j);
        assert entries[i] == pre[i] && entries[j] == pre[j];
        assert SharedName(entries, i, j);
      } else {
        SavedNamesAreTags(pre);
        var i :| 0 <= i < |pre| && Truthy(pre[i].tag) && pre[i].tag.value == e.tag.value;
        assert entries[i] == pre[i];
        assert SharedName(entries, i, n);
      }
    }
  }

  /** Two named rows carrying the same name raise an alert. */
  lemma {:induction false} SharedNameAlerts(entries: seq<TemplateEntry>, i: nat, j: nat)
    requires i < j < |entries| && SharedName(entries, i, j)
    ensures DuplicateRows(entries) > 0
  {
    var n := |entries| - 1;
    var pre := entries[..n];
    assert entries[i] == pre[i];
    if j < n {
      assert entries[j] == pre[j];
      SharedNameAlerts(pre, i, j);
    } else {
      SavedTemplatesSpec(pre);
    }
  }

  /** The duplicate-name alert is shown iff two named rows carry the same name. */
  lemma DuplicateRowsSpec(entries: seq<TemplateEntry>)
    ensures DuplicateRows(entries) > 0 <==> exists i, j :: 0 <= i < j < |entries| && SharedName(entries, i, j)
  {
    AlertedRowsShareName(entries);
    forall i, j | 0 <= i < j < |entries| && SharedName(entries, i, j)
      ensures DuplicateRows(entries) > 0
    {
      SharedNameAlerts(entries, i, j);
    }
  }

  /** Every named row is either saved or alerted on. */
  function NamedRows(entries: seq<TemplateEntry>): nat
  {
    if entries == [] then 0
    else NamedRows(entries[..|entries| - 1]) + (if Truthy(entries[|entries| - 1].tag) then 1 else 0)
  }

  lemma {:induction false} SavedOrAlerted(entries: seq<TemplateEntry>)
    ensures |SavedTemplates(entries)| + DuplicateRows(entries) == NamedRows(entries)
  {
    if entries != [] {
      var pre := entries[..|entries| - 1];
      assert SavedTemplates(entries) == KeepEntry(SavedTemplates(pre), entries[|entries| - 1]);
      SavedOrAlerted(pre);
    }
  }

  const EmptyUrlMessage := "Webhook URL cannot be empty."
  const InvalidUrlMessage := "Invalid Webhook URL format."
  const DuplicateTemplateMessage := "Duplicate template names found. Please ensure names are unique."

  /** How a save ends: an alert, nothing at all (index out of range), or saved,
      after `duplicateAlerts` alerts with `DuplicateTemplateMessage`. */
  datatype SaveOutcome = Alerted(message: string) | Ignored | Saved(duplicateAlerts: nat)

  /** The stored list and outcome of `saveWebhook(index, item)`. */
  function Save(configs: seq<WebhookConfig>, index: int, labelInput: string, urlInput: string, urlParses: bool,
                entries: seq<TemplateEntry>): (seq<WebhookConfig>, SaveOutcome)
  {
    var url := Trim(urlInput);
    var labelText := Trim(labelInput);
    if url == "" then (configs, Alerted(EmptyUrlMessage))
    else if !urlParses then (configs, Alerted(InvalidUrlMessage))
    else if !(0 <= index < |configs|) then (configs, Ignored)
    else
      var c := configs[index];
      var saved := c.(labelText := Some(if labelText != "" then labelText else "Webhook " + Show(c.id)),
                      url := Some(url), templates := Some(SavedTemplates(entries)));
      (configs[index := saved], Saved(DuplicateRows(entries)))
  }

  /** A save changes the stored list only when the trimmed url is non-empty and
      parses and the index is in range; it then changes only that entry, gives it
      the trimmed label or "Webhook {id}" for a blank one and the trimmed url,
      and keeps its other fields. */
  lemma SaveChangesOneEntry(configs: seq<WebhookConfig>, index: int, labelInput: string, urlInput: string,
                            urlParses: bool, entries: seq<TemplateEntry>)
    ensures var (after, outcome) := Save(configs, index, labelInput, urlInput, urlParses, entries);
      && (outcome == Alerted(EmptyUrlMessage) <==> Trim(urlInput) == "")
      && (!outcome.Saved? ==> after == configs)
      && (outcome.Saved? <==> Trim(urlInput) != "" && urlParses && 0 <= index < |configs|)
    ensures var (after, outcome) := Save(configs, index, labelInput, urlInput, urlParses, entries);
      outcome.Saved? ==>
      && outcome.duplicateAlerts == DuplicateRows(entries)
      && |after| == |configs|
      && (forall j :: 0 <= j < |configs| && j != index ==> after[j] == configs[j])
      && after[index].id == configs[index].id
      && after[index].url == Some(Trim(urlInput)) && after[index].url != Some("")
      && after[index].labelText.Some? && after[index].labelText.value != ""
      && (Trim(labelInput) != "" ==> after[index].labelText == Some(Trim(labelInput)))
      && (Trim(labelInput) == "" ==> after[index].labelText == Some("Webhook " + Show(configs[index].id)))
      && after[index].(labelText := configs[index].labelText, url := configs[index].url,
                       templates := configs[index].templates) == configs[index]
      && after[index].templates == Some(SavedTemplates(entries))
      && DistinctNames(after[index].templates.value)
  {
    var (after, outcome) := Save(configs, index, labelInput, urlInput, urlParses, entries);
    SavedTemplatesSpec(entries);
  }

  // ---------------------------------------------------------------------------
  // Templates
  // ---------------------------------------------------------------------------

  /** `templates.filter(t => t.name !== name)` */
  function Without(templates: seq<Template>, name: string): (r: seq<Template>)
    ensures |r| <= |templates|
    ensures forall t :: t in r <==> t in templates && t.name != name
  {
    if templates == [] then []
    else
      var rest := Without(templates[..|templates| - 1], name);
      var last := templates[|templates| - 1];
      assert forall t :: t in templates <==> t in templates[..|templates| - 1] || t == last;
      if last.name != name then rest + [last] else rest
  }

  /** Filtering keeps the order: removing from a concatenation removes from each
      part; a list without the name is left as it is. */
  lemma {:induction false} WithoutKeepsOrder(a: seq<Template>, b: seq<Template>, name: string)
    ensures Without(a + b, name) == Without(a, name) + Without(b, name)
  {
    if b != [] {
      WithoutKeepsOrder(a, b[..|b| - 1], name);
      assert (a + b)[..|a + b| - 1] == a + b[..|b| - 1];
    } else {
      assert a + b == a;
    }
  }

  lemma {:induction false} WithoutAbsentIsIdentity(templates: seq<Template>, name: string)
    requires forall i :: 0 <= i < |templates| ==> templates[i].name != name
    ensures Without(templates, name) == templates
  {
    if templates != [] {
      var n := |templates| - 1;
      var pre := templates[..n];
      WithoutAbsentIsIdentity(pre, name);
      assert pre + [templates[n]] == templates;
    }
  }

  const EmptyTemplateMessage := "Template name cannot be empty."

  function TemplatesOf(c: WebhookConfig): seq<Template>
  {
    if c.templates.Some? then c.templates.value else []
  }

  /** The stored list and the alert of `addTemplate(index)`; `answer` is what the
      prompt returned. */
  function AddTemplateTo(configs: seq<WebhookConfig>, index: int, answer: Option<string>)
    : (seq<WebhookConfig>, Option<string>)
  {
    if !Truthy(answer) || Trim(answer.value) == "" then
      (configs, if answer.Some? then Some(EmptyTemplateMessage) else None)
    else if !(0 <= index < |configs|) then (configs, None)
    else
      var name := Trim(answer.value);
      var templates := TemplatesOf(configs[index]);
      if name in Names(templates) then
        (configs, Some("Template \"" + name + "\" already exists for this webhook."))
      else
        (configs[index := configs[index].(templates := Some(templates + [Template(name, "")]))], None)
  }

  /** Adding a template appends one with the trimmed name and an empty
      description, keeps names distinct, and touches no other webhook; a cancelled
      prompt changes nothing silently, a blank one or a taken name changes
      nothing and alerts. */
  lemma AddTemplateKeepsNamesDistinct(configs: seq<WebhookConfig>, index: int, answer: Option<string>)
    ensures var (after, alert) := AddTemplateTo(configs, index, answer);
      && |after| == |configs|
      && (alert.Some? ==> after == configs)
      && (answer.None? ==> after == configs && alert.None?)
      && (answer.Some? && Trim(answer.value) == "" ==> after == configs && alert == Some(EmptyTemplateMessage))
      && (answer.Some? && Trim(answer.value) != "" && !(0 <= index < |configs|) ==> after == configs && alert.None?)
      && (forall j :: 0 <= j < |configs| && j != index ==> after[j] == configs[j])
    ensures var (after, alert) := AddTemplateTo(configs, index, answer);
      answer.Some? && Trim(answer.value) != "" && 0 <= index < |configs| ==>
      var name := Trim(answer.value);
      && (name in Names(TemplatesOf(configs[index])) ==>
            after == configs && alert == Some("Template \"" + name + "\" already exists for this webhook."))
      && (name !in Names(TemplatesOf(configs[index])) ==>
            && alert.None?
            && TemplatesOf(after[index]) == TemplatesOf(configs[index]) + [Template(name, "")]
            && after[index].(templates := configs[index].templates) == configs[index])
    ensures var (after, alert) := AddTemplateTo(configs, index, answer);
      after != configs ==>
      && answer.Some? && 0 <= index < |configs|
      && TemplatesOf(after[index]) == TemplatesOf(configs[index]) + [Template(Trim(answer.value), "")]
      && Trim(answer.value) != ""
      && (DistinctNames(TemplatesOf(configs[index])) ==> DistinctNames(TemplatesOf(after[index])))
  {
    if Truthy(answer) && Trim(answer.value) != "" && 0 <= index < |configs| {
      var name := Trim(answer.value);
      var ts := TemplatesOf(configs[index]);
      if name !in Names(ts) {
        var t := Template(name, "");
        var after := configs[index := configs[index].(templates := Some(ts + [t]))];
        assert AddTemplateTo(configs, index, answer) == (after, None);
        assert TemplatesOf(after[index]) == ts + [t];
        AppendFreshName(ts, t);
      }
    }
  }

  /** A template whose name is not yet taken keeps the names distinct. */
  lemma AppendFreshName(ts: seq<Template>, t: Template)
    requires t.name !in Names(ts)
    ensures DistinctNames(ts) ==> DistinctNames(ts + [t])
  {
    forall i | 0 <= i < |ts| ensures ts[i].name != t.name {
      assert ts[i] in ts;
    }
  }

  /** The stored list after `removeTemplate(index, name)`. */
  function RemoveTemplateFrom(configs: seq<WebhookConfig>, index: int, name: string): seq<WebhookConfig>
  {
    if 0 <= index < |configs| && configs[index].templates.Some?
    then configs[index := configs[index].(templates := Some(Without(configs[index].templates.value, name)))]
    else configs
  }

  /** Removing leaves no template with the name on that webhook, keeps every other
      template, and touches no other webhook; adding a fresh name and removing it
      restores the templates. */
  lemma RemoveTemplateSpec(configs: seq<WebhookConfig>, index: int, name: string)
    ensures |RemoveTemplateFrom(configs, index, name)| == |configs|
    ensures !(0 <= index < |configs|) ==> RemoveTemplateFrom(configs, index, name) == configs
    ensures forall j :: 0 <= j < |configs| && j != index ==> RemoveTemplateFrom(configs, index, name)[j] == configs[j]
    ensures 0 <= index < |configs| ==>
      forall t :: t in TemplatesOf(RemoveTemplateFrom(configs, index, name)[index]) <==>
        t in TemplatesOf(configs[index]) && t.name != name
  {
  }

  lemma AddThenRemoveTemplate(configs: seq<WebhookConfig>, index: int, answer: Option<string>)
    requires 0 <= index < |configs| && configs[index].templates.Some? && answer.Some?
    requires AddTemplateTo(configs, index, answer).1.None? && Trim(answer.value) != ""
    ensures RemoveTemplateFrom(AddTemplateTo(configs, index, answer).0, index, Trim(answer.value)) == configs
  {
    var name := Trim(answer.value);
    var ts := configs[index].templates.value;
    var t := Template(name, "");
    var after := configs[index := configs[index].(templates := Some(ts + [t]))];
    assert name !in Names(ts);
    assert AddTemplateTo(configs, index, answer).0 == after;
    assert forall i :: 0 <= i < |ts| ==> ts[i].name != name by {
      assert forall i :: 0 <= i < |ts| ==> ts[i] in ts;
    }
    RemoveAppended(ts, t);
    assert RemoveTemplateFrom(after, index, name) == configs[index := configs[index].(templates := Some(ts))];
    assert configs[index].(templates := Some(ts)) == configs[index];
  }

  /** Removing the name of a template just appended under a new name gives back
      the list before. */
  lemma RemoveAppended(ts: seq<Template>, t: Template)
    requires forall i :: 0 <= i < |ts| ==> ts[i].name != t.name
    ensures Without(ts + [t], t.name) == ts
  {
    WithoutAbsentIsIdentity(ts, t.name);
    WithoutKeepsOrder(ts, [t], t.name);
    assert Without([t], t.name) == [];
  }

  // ---------------------------------------------------------------------------
  // Import
  // ---------------------------------------------------------------------------

  /** One element of an imported JSON array: an object, with whether it has the
      keys `id` and `url` and the webhook it describes, or any other value. */
  datatype JsonItem = JsonObject(hasId: bool, hasUrl: bool, config: WebhookConfig) | OtherValue

  /** The parsed file: an array, some other JSON value, or a parse error. */
  datatype ImportData = JsonArray(items: seq<JsonItem>) | NotAnArray | ParseError(message: string)

  predicate ItemValid(item: JsonItem)
  {
    item.JsonObject? && item.hasId && item.hasUrl
  }

  const NotArrayMessage := "Invalid JSON format: Expected an array of webhooks."
  const BadItemMessage := "Invalid data structure in JSON file. Each webhook must have at least \"id\" and \"url\"."

  /** The stored list and the status shown after the import reads `data`. */
  function Import(configs: seq<WebhookConfig>, data: ImportData, confirmed: bool)
    : (r: (seq<WebhookConfig>, Option<string>))
    ensures r.0 != configs ==> data.JsonArray? && confirmed
    ensures data.JsonArray? && confirmed && (forall i :: 0 <= i < |data.items| ==> ItemValid(data.items[i])) ==>
      && |r.0| == |data.items|
      && forall i :: 0 <= i < |data.items| ==> r.0[i] == data.items[i].config
  {
    match data
    case ParseError(message) => (configs, Some("Import failed: " + message))
    case NotAnArray => (configs, Some("Import failed: " + NotArrayMessage))
    case JsonArray(items) =>
      if !(forall i :: 0 <= i < |items| ==> ItemValid(items[i])) then (configs, Some("Import failed: " + BadItemMessage))
      else if !confirmed then (configs, None)
      else (seq(|items|, i requires 0 <= i < |items| => items[i].config), Some("Webhooks imported successfully!"))
  }

  /** An array with one invalid element is refused as a whole. */
  lemma ImportRefusesInvalidItem(configs: seq<WebhookConfig>, items: seq<JsonItem>, k: nat, confirmed: bool)
    requires k < |items| && !ItemValid(items[k])
    ensures Import(configs, JsonArray(items), confirmed) == (configs, Some("Import failed: " + BadItemMessage))
  {
  }

  // ---------------------------------------------------------------------------
  // The stored list
  // ---------------------------------------------------------------------------

  /** The scan of `addNewWebhook()` for the highest `webhook<n>` number. */
  method HighestIdNumber(configs: seq<WebhookConfig>) returns (maxIdNum: nat)
    ensures maxIdNum == MaxIdNum(configs)
  {
    maxIdNum := 0;
    var i := 0;
    while i < |configs|
      invariant 0 <= i <= |configs|
      invariant maxIdNum == MaxIdNum(configs[..i])
    {
      var c := configs[i];
      MaxIdNumStep(configs, i);
      ghost var before := maxIdNum;
      var num: Option<int> := None;
      if Truthy(c.id) && StartsWith(c.id.value, IdPrefix) {
        num := ParseInt(c.id.value[|IdPrefix|..]);
      }
      assert num == SuffixNumber(c);
      if num.Some? && num.value > maxIdNum {
        maxIdNum := num.value;
      }
      assert maxIdNum == if num.Some? && num.value > before then num.value else before;
      assert maxIdNum == MaxIdNum(configs[..i + 1]);
      i := i + 1;
    }
    assert configs[..i] == configs;
  }

  /** The scan of `saveWebhook` over the template rows: a named row whose name
      is new is kept, with its description trimmed; a named row whose name is
      already kept raises one alert and is skipped. */
  method ReadTemplateRows(entries: seq<TemplateEntry>) returns (updatedTemplates: seq<Template>, duplicateAlerts: nat)
    ensures updatedTemplates == SavedTemplates(entries)
    ensures duplicateAlerts == DuplicateRows(entries)
  {
    updatedTemplates := [];
    duplicateAlerts := 0;
    var templateNames: set<string> := {};
    var k := 0;
    while k < |entries|
      invariant 0 <= k <= |entries|
      invariant updatedTemplates == SavedTemplates(entries[..k]) && templateNames == Names(updatedTemplates)
      invariant duplicateAlerts == DuplicateRows(entries[..k])
    {
      var name := entries[k].tag;
      var description := Trim(entries[k].descriptionInput);
      SavedTemplatesStep(entries, k);
      DuplicateRowsStep(entries, k);
      if Truthy(name) {
        if name.value in templateNames {
          duplicateAlerts := duplicateAlerts + 1;
        } else {
          NamesAppend(updatedTemplates, Template(name.value, description));
          templateNames := templateNames + {name.value};
          updatedTemplates := updatedTemplates + [Template(name.value, description)];
        }
      }
      k := k + 1;
    }
    assert entries[..k] == entries;
  }

  /** The stored `webhookConfigs` list. */
  class WebhookStore {
    var configs: seq<WebhookConfig>

    constructor (stored: seq<WebhookConfig>)
      ensures configs == stored
    {
      configs := stored;
    }

    /** `addNewWebhook()` */
    method AddNewWebhook()
      modifies this
      ensures configs == old(configs) + [NewWebhook(MaxIdNum(old(configs)))]
    {
      var maxIdNum := HighestIdNumber(configs);
      var suffix := NatToString(maxIdNum + 1);
      var newWebhook := WebhookConfig(Some(IdPrefix + suffix), Some("Webhook " + suffix), Some(""), Some([]), None);
      assert newWebhook == NewWebhook(maxIdNum);
      configs := configs + [newWebhook];
    }

    /** `saveWebhook(index, item)`: the label, url and template rows read from the
        form are parameters. */
    method SaveWebhook(index: int, labelInput: string, urlInput: string, urlParses: bool,
                       entries: seq<TemplateEntry>)
      returns (outcome: SaveOutcome)
      modifies this
      ensures (configs, outcome) == Save(old(configs), index, labelInput, urlInput, urlParses, entries)
    {
      var newLabel := Trim(labelInput);
      var newUrl := Trim(urlInput);
      if newUrl == "" {
        return Alerted(EmptyUrlMessage);
      }
      if !urlParses {
        return Alerted(InvalidUrlMessage);
      }
      if !(0 <= index < |configs|) {
        return Ignored;
      }
      var updatedTemplates, duplicateAlerts := ReadTemplateRows(entries);
      var c := configs[index];
      var labelText := if newLabel != "" then newLabel else "Webhook " + Show(c.id);
      configs := configs[index := c.(labelText := Some(labelText), url := Some(newUrl), templates := Some(updatedTemplates))];
      outcome := Saved(duplicateAlerts);
    }

    /** `deleteWebhook(index)`; `confirmed` is the answer to the confirmation. */
    method DeleteWebhook(index: int, confirmed: bool)
      modifies this
      ensures confirmed && 0 <= index < |old(configs)| ==>
        configs == old(configs)[..index] + old(configs)[index + 1..]
      ensures !(confirmed && 0 <= index < |old(configs)|) ==> configs == old(configs)
    {
      if !confirmed {
        return;
      }
      if 0 <= index < |configs| {
        configs := configs[..index] + configs[index + 1..];
      }
    }

    /** `addTemplate(index)`; `answer` is what the prompt returned. */
    method AddTemplate(index: int, answer: Option<string>) returns (alert: Option<string>)
      modifies this
      ensures (configs, alert) == AddTemplateTo(old(configs), index, answer)
    {
      if !Truthy(answer) || Trim(answer.value) == "" {
        if answer.Some? {
          alert := Some(EmptyTemplateMessage);
        } else {
          alert := None;
        }
        return;
      }
      if !(0 <= index < |configs|) {
        return None;
      }
      var name := Trim(answer.value);
      var templates := if configs[index].templates.Some? then configs[index].templates.value else [];
      if name in Names(templates) {
        return Some("Template \"" + name + "\" already exists for this webhook.");
      }
      configs := configs[index := configs[index].(templates := Some(templates + [Template(name, "")]))];
      alert := None;
    }

    /** `removeTemplate(index, name)` */
    method RemoveTemplate(index: int, name: string)
      modifies this
      ensures configs == RemoveTemplateFrom(old(configs), index, name)
    {
      if 0 <= index < |configs| {
        var webhook := configs[index];
        if webhook.templates.Some? {
          configs := configs[index := webhook.(templates := Some(Without(webhook.templates.value, name)))];
        }
      }
    }

    /** The import's validation and replacement; `data` is the parsed file. */
    method ImportWebhooks(data: ImportData, confirmed: bool) returns (status: Option<string>)
      modifies this
      ensures (configs, status) == Import(old(configs), data, confirmed)
    {
      match data
      case ParseError(message) =>
        status := Some("Import failed: " + message);
      case NotAnArray =>
        status := Some("Import failed: " + NotArrayMessage);
      case JsonArray(items) =>
        if !(forall i :: 0 <= i < |items| ==> ItemValid(items[i])) {
          status := Some("Import failed: " + BadItemMessage);
        } else if !confirmed {
          status := None;
        } else {
          configs := seq(|items|, i requires 0 <= i < |items| => items[i].config);
          status := Some("Webhooks imported successfully!");
        }
    }
  }

  /** The result of `addNewWebhook` has unique ids when the stored ids were unique. */
  lemma AddNewWebhookKeepsIdsUnique(configs: seq<WebhookConfig>)
    requires forall i, j :: 0 <= i < j < |configs| ==> configs[i].id != configs[j].id
    ensures var after := configs + [NewWebhook(MaxIdNum(configs))];
      forall i, j :: 0 <= i < j < |after| ==> after[i].id != after[j].id
  {
    NewIdIsFresh(configs);
    var after := configs + [NewWebhook(MaxIdNum(configs))];
    forall i, j | 0 <= i < j < |after| ensures after[i].id != after[j].id {
      if j == |configs| {
        assert after[i] == configs[i] && configs[i] in configs;
      }
    }
  }
}
