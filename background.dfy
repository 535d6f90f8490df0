/**
 * The service worker: flattening the stored webhooks (one entry per template)
 * and Airtable tables into context-menu destinations, the structure of the
 * context menu, resolving a clicked `send-` item back to its destination, the
 * payload captured from the click, and the two sends.
 *
 * Storage, the page script, the clock and each HTTP exchange are parameters;
 * the context-menu and notification APIs are modelled by the items and the
 * notification they would be given.
 */
module Background {
  import opened Common
  import opened WebhookManager
  import opened AirtableSender
  import opened AirtableManager

  // ---------------------------------------------------------------------------
  // Destinations
  // ---------------------------------------------------------------------------

  /** What a context-menu destination sends to. */
  datatype MenuTarget =
    | WebhookTarget(webhookId: Option<string>, templateName: Option<string>)
    | AirtableTarget(baseId: string, tableId: string)

  datatype MenuDestination = MenuDestination(id: Option<string>, name: Option<string>, target: MenuTarget)

  /** A webhook's entry for one of its templates. */
  function TemplateDestination(w: WebhookConfig, t: Template): MenuDestination
  {
    MenuDestination(Some(Show(w.id) + "|" + t.name), Some(Show(w.name) + " - " + t.name), WebhookTarget(w.id, Some(t.name)))
  }

  /** The entry of a webhook without templates. */
  function DirectDestination(w: WebhookConfig): MenuDestination
  {
    MenuDestination(w.id, w.name, WebhookTarget(w.id, None))
  }

  predicate HasTemplates(w: WebhookConfig)
  {
    w.templates.Some? && |w.templates.value| > 0
  }

  function TemplateDestinations(w: WebhookConfig, ts: seq<Template>): (ds: seq<MenuDestination>)
    ensures |ds| == |ts| && forall k :: 0 <= k < |ts| ==> ds[k] == TemplateDestination(w, ts[k])
  {
    seq(|ts|, k requires 0 <= k < |ts| => TemplateDestination(w, ts[k]))
  }

  /** The entries of one webhook. */
  function WebhookEntries(w: WebhookConfig): seq<MenuDestination>
  {
    if HasTemplates(w) then TemplateDestinations(w, w.templates.value) else [DirectDestination(w)]
  }

  /** The webhook destinations, webhook by webhook. */
  function WebhookMenu(ws: seq<WebhookConfig>): seq<MenuDestination>
  {
    if ws == [] then [] else WebhookMenu(ws[..|ws| - 1]) + WebhookEntries(ws[|ws| - 1])
  }

  function TableDestination(b: BaseConfig, configName: Option<string>, t: Table): MenuDestination
  {
    MenuDestination(Some(b.id + "|" + t.id), Some(Show(configName) + " - " + t.name), AirtableTarget(b.id, t.id))
  }

  function TableDestinations(b: BaseConfig, configName: Option<string>, ts: seq<Table>): (ds: seq<MenuDestination>)
    ensures |ds| == |ts| && forall k :: 0 <= k < |ts| ==> ds[k] == TableDestination(b, configName, ts[k])
  {
    seq(|ts|, k requires 0 <= k < |ts| => TableDestination(b, configName, ts[k]))
  }

  /** `base.config?.tables`: the base carries a nested configuration with tables. */
  predicate Listed(b: BaseConfig)
  {
    b.config.Some? && b.config.value.tables.Some?
  }

  /** The entries of one base: one per table of its nested `config`, none without it. */
  function BaseEntries(b: BaseConfig): seq<MenuDestination>
  {
    if Listed(b)
    then TableDestinations(b, b.config.value.name, b.config.value.tables.value)
    else []
  }

  function AirtableMenu(bs: seq<BaseConfig>): seq<MenuDestination>
  {
    if bs == [] then [] else AirtableMenu(bs[..|bs| - 1]) + BaseEntries(bs[|bs| - 1])
  }

  predicate IsWebhookEntry(d: MenuDestination)
  {
    d.target.WebhookTarget?
  }

  lemma WebhookMenuStep(ws: seq<WebhookConfig>, i: nat)
    requires i < |ws|
    ensures WebhookMenu(ws[..i + 1]) == WebhookMenu(ws[..i]) + WebhookEntries(ws[i])
  {
    assert ws[..i + 1][..i] == ws[..i];
  }

  lemma AirtableMenuStep(bs: seq<BaseConfig>, i: nat)
    requires i < |bs|
    ensures AirtableMenu(bs[..i + 1]) == AirtableMenu(bs[..i]) + BaseEntries(bs[i])
  {
    assert bs[..i + 1][..i] == bs[..i];
  }

  /** Every webhook contributes: one entry per template, with the id
      `{webhook id}|{template name}`, or a single entry with the webhook's own id
      and no template. Every entry is a webhook target of some stored webhook. */
  lemma WebhookMenuSpec(ws: seq<WebhookConfig>)
    ensures forall i :: 0 <= i < |ws| && !HasTemplates(ws[i]) ==> DirectDestination(ws[i]) in WebhookMenu(ws)
    ensures forall i, k :: 0 <= i < |ws| && HasTemplates(ws[i]) && 0 <= k < |ws[i].templates.value| ==>
      TemplateDestination(ws[i], ws[i].templates.value[k]) in WebhookMenu(ws)
    ensures forall d :: d in WebhookMenu(ws) ==>
      IsWebhookEntry(d) && exists i :: 0 <= i < |ws| && d.target.webhookId == ws[i].id
  {
    WebhookMenuListsDirect(ws);
    WebhookMenuListsTemplates(ws);
    WebhookMenuEntriesKnown(ws);
  }

  lemma {:induction false} WebhookMenuListsDirect(ws: seq<WebhookConfig>)
    ensures forall i :: 0 <= i < |ws| && !HasTemplates(ws[i]) ==> DirectDestination(ws[i]) in WebhookMenu(ws)
  {
    if ws != [] {
      var n := |ws| - 1;
      var pre := ws[..n];
      var w := ws[n];
      assert WebhookMenu(ws) == WebhookMenu(pre) + WebhookEntries(w);
      WebhookMenuListsDirect(pre);
      forall i | 0 <= i < |ws| && !HasTemplates(ws[i]) ensures DirectDestination(ws[i]) in WebhookMenu(ws) {
        if i < n {
          assert ws[i] == pre[i];
        } else {
          assert WebhookEntries(w) == [DirectDestination(w)];
        }
      }
    }
  }

  lemma {:induction false} WebhookMenuListsTemplates(ws: seq<WebhookConfig>)
    ensures forall i, k :: 0 <= i < |ws| && HasTemplates(ws[i]) && 0 <= k < |ws[i].templates.value| ==>
      TemplateDestination(ws[i], ws[i].templates.value[k]) in WebhookMenu(ws)
  {
    if ws != [] {
      var n := |ws| - 1;
      var pre := ws[..n];
      var w := ws[n];
      assert WebhookMenu(ws) == WebhookMenu(pre) + WebhookEntries(w);
      WebhookMenuListsTemplates(pre);
      forall i, k | 0 <= i < |ws| && HasTemplates(ws[i]) && 0 <= k < |ws[i].templates.value|
        ensures TemplateDestination(ws[i], ws[i].templates.value[k]) in WebhookMenu(ws)
      {
        if i < n {
          assert ws[i] == pre[i];
        } else {
          assert i == n && HasTemplates(w);
          assert WebhookEntries(w) == TemplateDestinations(w, w.templates.value);
          assert WebhookEntries(w)[k] == TemplateDestination(w, w.templates.value[k]);
        }
      }
    }
  }

  lemma {:induction false} WebhookMenuEntriesKnown(ws: seq<WebhookConfig>)
    ensures forall d :: d in WebhookMenu(ws) ==>
      IsWebhookEntry(d) && exists i :: 0 <= i < |ws| && d.target.webhookId == ws[i].id
  {
    if ws != [] {
      var n := |ws| - 1;
      var pre := ws[..n];
      var w := ws[n];
      assert WebhookMenu(ws) == WebhookMenu(pre) + WebhookEntries(w);
      WebhookMenuEntriesKnown(pre);
      forall d | d in WebhookMenu(ws)
        ensures IsWebhookEntry(d) && exists i :: 0 <= i < |ws| && d.target.webhookId == ws[i].id
      {
        if d in WebhookMenu(pre) {
          var i :| 0 <= i < |pre| && d.target.webhookId == pre[i].id;
          assert ws[i] == pre[i];
        } else {
          assert d in WebhookEntries(w);
          assert d.target.webhookId == ws[n].id;
        }
      }
    }
  }

  /** Every table of a base's nested `config` gives the entry `{base id}|{table id}`;
      a base without nested `config` gives none. */
  lemma AirtableMenuSpec(bs: seq<BaseConfig>)
    ensures forall i, k :: 0 <= i < |bs| && Listed(bs[i]) && 0 <= k < |bs[i].config.value.tables.value| ==>
      TableDestination(bs[i], bs[i].config.value.name, bs[i].config.value.tables.value[k]) in AirtableMenu(bs)
    ensures forall d :: d in AirtableMenu(bs) ==>
      !IsWebhookEntry(d) && exists i :: 0 <= i < |bs| && bs[i].config.Some? && d.target.baseId == bs[i].id
  {
    AirtableMenuListsTables(bs);
    AirtableMenuEntriesKnown(bs);
  }

  lemma {:induction false} AirtableMenuListsTables(bs: seq<BaseConfig>)
    ensures forall i, k :: 0 <= i < |bs| && Listed(bs[i]) && 0 <= k < |bs[i].config.value.tables.value| ==>
      TableDestination(bs[i], bs[i].config.value.name, bs[i].config.value.tables.value[k]) in AirtableMenu(bs)
  {
    if bs != [] {
      var n := |bs| - 1;
      var pre := bs[..n];
      var b := bs[n];
      assert AirtableMenu(bs) == AirtableMenu(pre) + BaseEntries(b);
      AirtableMenuListsTables(pre);
      forall i, k | 0 <= i < |bs| && Listed(bs[i]) && 0 <= k < |bs[i].config.value.tables.value|
        ensures TableDestination(bs[i], bs[i].config.value.name, bs[i].config.value.tables.value[k]) in AirtableMenu(bs)
      {
        if i < n {
          assert bs[i] == pre[i];
        } else {
          assert i == n && Listed(b);
          assert BaseEntries(b)[k] == TableDestination(b, b.config.value.name, b.config.value.tables.value[k]);
        }
      }
    }
  }

  lemma {:induction false} AirtableMenuEntriesKnown(bs: seq<BaseConfig>)
    ensures forall d :: d in AirtableMenu(bs) ==>
      !IsWebhookEntry(d) && exists i :: 0 <= i < |bs| && bs[i].config.Some? && d.target.baseId == bs[i].id
  {
    if bs != [] {
      var n := |bs| - 1;
      var pre := bs[..n];
      var b := bs[n];
      assert AirtableMenu(bs) == AirtableMenu(pre) + BaseEntries(b);
      AirtableMenuEntriesKnown(pre);
      forall d | d in AirtableMenu(bs)
        ensures !IsWebhookEntry(d) && exists i :: 0 <= i < |bs| && bs[i].config.Some? && d.target.baseId == bs[i].id
      {
        if d in AirtableMenu(pre) {
          var i :| 0 <= i < |pre| && pre[i].config.Some? && d.target.baseId == pre[i].id;
          assert bs[i] == pre[i];
        } else {
          assert d in BaseEntries(b);
          assert d.target.baseId == bs[n].id;
        }
      }
    }
  }

  /** The bases the settings page stores carry their tables at the top level
      and no nested `config`: none of them reaches the context menu. */
  lemma {:induction false} ManagedBasesGiveNoEntries(bs: seq<BaseConfig>)
    requires forall i :: 0 <= i < |bs| ==> bs[i].config.None?
    ensures AirtableMenu(bs) == []
  {
    if bs != [] {
      ManagedBasesGiveNoEntries(bs[..|bs| - 1]);
    }
  }

  /** The context-menu destinations: all webhook entries, then all table entries. */
  function Flattened(ws: seq<WebhookConfig>, bs: seq<BaseConfig>): seq<MenuDestination>
  {
    WebhookMenu(ws) + AirtableMenu(bs)
  }

  class BackgroundWorker {
    var destinations: seq<MenuDestination>
    var webhookConfigs: seq<WebhookConfig>

    constructor ()
      ensures destinations == [] && webhookConfigs == []
    {
      destinations := [];
      webhookConfigs := [];
    }

    /** `loadDestinations()`, given the stored `webhookConfigs` and `airtableConfigs`. */
    method LoadDestinations(syncWebhooks: Option<seq<WebhookConfig>>, localBases: Option<seq<BaseConfig>>)
      modifies this
      ensures webhookConfigs == (if syncWebhooks.Some? then syncWebhooks.value else [])
      ensures destinations == Flattened(webhookConfigs, if localBases.Some? then localBases.value else [])
    {
      webhookConfigs := if syncWebhooks.Some? then syncWebhooks.value else [];
      var airtableBases := if localBases.Some? then localBases.value else [];
      var webhookDestinations := CollectWebhookDestinations(webhookConfigs);
      var airtableDestinations := CollectAirtableDestinations(airtableBases);
      destinations := webhookDestinations + airtableDestinations;
    }
  }

  lemma TemplateDestinationsStep(w: WebhookConfig, ts: seq<Template>, k: nat)
    requires k < |ts|
    ensures TemplateDestinations(w, ts[..k + 1]) == TemplateDestinations(w, ts[..k]) + [TemplateDestination(w, ts[k])]
  {
  }

  lemma TableDestinationsStep(b: BaseConfig, name: Option<string>, ts: seq<Table>, k: nat)
    requires k < |ts|
    ensures TableDestinations(b, name, ts[..k + 1]) == TableDestinations(b, name, ts[..k]) + [TableDestination(b, name, ts[k])]
  {
  }

  /** The webhook half of `loadDestinations()`: one entry per template, or one
      for the webhook itself. */
  method CollectWebhookDestinations(webhookConfigs: seq<WebhookConfig>) returns (webhookDestinations: seq<MenuDestination>)
    ensures webhookDestinations == WebhookMenu(webhookConfigs)
  {
    webhookDestinations := [];
    var i := 0;
    while i < |webhookConfigs|
      invariant 0 <= i <= |webhookConfigs|
      invariant webhookDestinations == WebhookMenu(webhookConfigs[..i])
    {
      var webhook := webhookConfigs[i];
      WebhookMenuStep(webhookConfigs, i);
      if webhook.templates.Some? && |webhook.templates.value| > 0 {
        var templates := webhook.templates.value;
        ghost var before := webhookDestinations;
        var k := 0;
        while k < |templates|
          invariant 0 <= k <= |templates|
          invariant webhookDestinations == before + TemplateDestinations(webhook, templates[..k])
        {
          TemplateDestinationsStep(webhook, templates, k);
          ghost var done := TemplateDestinations(webhook, templates[..k]);
          assert (before + done) + [TemplateDestination(webhook, templates[k])]
              == before + (done + [TemplateDestination(webhook, templates[k])]);
          webhookDestinations := webhookDestinations + [TemplateDestination(webhook, templates[k])];
          k := k + 1;
        }
        assert templates[..k] == templates;
        assert webhookDestinations == before + WebhookEntries(webhook);
      } else {
        webhookDestinations := webhookDestinations + [DirectDestination(webhook)];
      }
      assert webhookDestinations == WebhookMenu(webhookConfigs[..i + 1]);
      i := i + 1;
    }
    assert webhookConfigs[..i] == webhookConfigs;
  }

  /** The Airtable half of `loadDestinations()`: one entry per table of a
      base's nested `config`. */
  method CollectAirtableDestinations(airtableBases: seq<BaseConfig>) returns (airtableDestinations: seq<MenuDestination>)
    ensures airtableDestinations == AirtableMenu(airtableBases)
  {
    airtableDestinations := [];
    var j := 0;
    while j < |airtableBases|
      invariant 0 <= j <= |airtableBases|
      invariant airtableDestinations == AirtableMenu(airtableBases[..j])
    {
      var base := airtableBases[j];
      AirtableMenuStep(airtableBases, j);
      if base.config.Some? && base.config.value.tables.Some? {
        var tables := base.config.value.tables.value;
        ghost var before := airtableDestinations;
        var k := 0;
        while k < |tables|
          invariant 0 <= k <= |tables|
          invariant airtableDestinations == before + TableDestinations(base, base.config.value.name, tables[..k])
        {
          TableDestinationsStep(base, base.config.value.name, tables, k);
          ghost var done := TableDestinations(base, base.config.value.name, tables[..k]);
          assert (before + done) + [TableDestination(base, base.config.value.name, tables[k])]
              == before + (done + [TableDestination(base, base.config.value.name, tables[k])]);
          airtableDestinations := airtableDestinations + [TableDestination(base, base.config.value.name, tables[k])];
          k := k + 1;
        }
        assert tables[..k] == tables;
        assert airtableDestinations == before + BaseEntries(base);
      } else {
        assert BaseEntries(base) == [];
      }
      assert airtableDestinations == AirtableMenu(airtableBases[..j + 1]);
      j := j + 1;
    }
    assert airtableBases[..j] == airtableBases;
  }

  // ---------------------------------------------------------------------------
  // The context menu
  // ---------------------------------------------------------------------------

  datatype ItemKind = NormalItem | SeparatorItem

  /** One `chrome.contextMenus.create` call. */
  datatype MenuItem = MenuItem(id: string, title: Option<string>, kind: ItemKind, parentId: Option<string>, enabled: bool)

  const ConfigureId := "configure"
  const ParentId := "sendToDestination"
  const SendPrefix := "send-"

  const ConfigureItem := MenuItem(ConfigureId, Some("Configure Destinations"), NormalItem, None, true)
  const ParentItem := MenuItem(ParentId, Some("Send to Webhook/Airtable"), NormalItem, None, true)
  const WebhookHeader := MenuItem("webhook-header", Some("\U{1F517} Webhooks"), NormalItem, Some(ParentId), false)
  const AirtableHeader := MenuItem("airtable-header", Some("\U{1F4CA} Airtable"), NormalItem, Some(ParentId), false)
  const Separator := MenuItem("separator", None, SeparatorItem, Some(ParentId), true)

  /** The item of one destination. */
  function SendItem(d: MenuDestination): MenuItem
  {
    MenuItem(SendPrefix + Show(d.id), d.name, NormalItem, Some(ParentId), true)
  }

  function SendItems(ds: seq<MenuDestination>): (items: seq<MenuItem>)
    ensures |items| == |ds| && forall k :: 0 <= k < |ds| ==> items[k] == SendItem(ds[k])
  {
    seq(|ds|, k requires 0 <= k < |ds| => SendItem(ds[k]))
  }

  function WebhookEntriesOf(ds: seq<MenuDestination>): seq<MenuDestination>
  {
    if ds == [] then []
    else WebhookEntriesOf(ds[..|ds| - 1]) + (if IsWebhookEntry(ds[|ds| - 1]) then [ds[|ds| - 1]] else [])
  }

  function AirtableEntriesOf(ds: seq<MenuDestination>): seq<MenuDestination>
  {
    if ds == [] then []
    else AirtableEntriesOf(ds[..|ds| - 1]) + (if !IsWebhookEntry(ds[|ds| - 1]) then [ds[|ds| - 1]] else [])
  }

  lemma {:induction false} EntriesPartition(ds: seq<MenuDestination>)
    ensures |WebhookEntriesOf(ds)| + |AirtableEntriesOf(ds)| == |ds|
    ensures forall d :: d in ds <==> d in WebhookEntriesOf(ds) || d in AirtableEntriesOf(ds)
    ensures forall d :: d in WebhookEntriesOf(ds) ==> IsWebhookEntry(d)
    ensures forall d :: d in AirtableEntriesOf(ds) ==> !IsWebhookEntry(d)
  {
    if ds != [] {
      var pre := ds[..|ds| - 1];
      EntriesPartition(pre);
      assert forall d :: d in ds <==> d in pre || d == ds[|ds| - 1];
    }
  }

  /** A group under its disabled header, or nothing for an empty group. */
  function GroupSection(header: MenuItem, group: seq<MenuDestination>): seq<MenuItem>
  {
    if group != [] then [header] + SendItems(group) else []
  }

  /** `rebuildContextMenu()` */
  function ContextMenu(ds: seq<MenuDestination>): seq<MenuItem>
  {
    if ds == [] then [ConfigureItem]
    else
      var webhooks := WebhookEntriesOf(ds);
      var airtables := AirtableEntriesOf(ds);
      [ParentItem]
      + GroupSection(WebhookHeader, webhooks)
      + (if webhooks != [] && airtables != [] then [Separator] else [])
      + GroupSection(AirtableHeader, airtables)
  }

  /** A section holds its header exactly when the group is non-empty, an
      enabled child item per destination, and none of the top-level items, the
      separator or another header. */
  lemma GroupSectionSpec(header: MenuItem, other: MenuItem, group: seq<MenuDestination>)
    requires !header.enabled && !other.enabled && header != other && header.kind == NormalItem
    ensures header in GroupSection(header, group) <==> group != []
    ensures forall d :: d in group ==> SendItem(d) in GroupSection(header, group)
    ensures |GroupSection(header, group)| == if group == [] then 0 else 1 + |group|
    ensures ConfigureItem !in GroupSection(header, group) && ParentItem !in GroupSection(header, group)
    ensures Separator !in GroupSection(header, group) && other !in GroupSection(header, group)
  {
    var items := SendItems(group);
    assert forall x :: x in items ==> x.enabled && x.parentId.Some? && x.kind == NormalItem;
    forall d | d in group ensures SendItem(d) in GroupSection(header, group) {
      var k :| 0 <= k < |group| && group[k] == d;
      assert items[k] == SendItem(d);
    }
  }

  /** An empty list gives only the configure item. Otherwise the parent comes
      first, a header is present exactly for a non-empty group, the separator
      exactly when both groups are non-empty, every destination has its
      `send-` item, and nothing else is added. */
  lemma ContextMenuSpec(ds: seq<MenuDestination>)
    ensures ds == [] ==> ContextMenu(ds) == [ConfigureItem]
    ensures ds != [] ==>
      var webhooks := WebhookEntriesOf(ds);
      var airtables := AirtableEntriesOf(ds);
      && ContextMenu(ds)[0] == ParentItem
      && ConfigureItem !in ContextMenu(ds)
      && (WebhookHeader in ContextMenu(ds) <==> webhooks != [])
      && (AirtableHeader in ContextMenu(ds) <==> airtables != [])
      && (Separator in ContextMenu(ds) <==> webhooks != [] && airtables != [])
      && (forall d :: d in ds ==> SendItem(d) in ContextMenu(ds))
      && |ContextMenu(ds)| == 1 + |ds| + (if webhooks != [] then 1 else 0) + (if airtables != [] then 1 else 0)
                             + (if webhooks != [] && airtables != [] then 1 else 0)
  {
    if ds != [] {
      EntriesPartition(ds);
      var webhooks := WebhookEntriesOf(ds);
      var airtables := AirtableEntriesOf(ds);
      var w := GroupSection(WebhookHeader, webhooks);
      var sep := if webhooks != [] && airtables != [] then [Separator] else [];
      var a := GroupSection(AirtableHeader, airtables);
      GroupSectionSpec(WebhookHeader, AirtableHeader, webhooks);
      GroupSectionSpec(AirtableHeader, WebhookHeader, airtables);
      var menu := ContextMenu(ds);
      assert menu == [ParentItem] + w + sep + a;
      assert forall x :: x in menu <==> x == ParentItem || x in w || x in sep || x in a;
    }
  }

  // ---------------------------------------------------------------------------
  // Clicks
  // ---------------------------------------------------------------------------

  /** `destinations.find(d => d.id === id)`, as an index. */
  function FindMenuDestination(ds: seq<MenuDestination>, id: string): (r: Option<nat>)
    ensures r.Some? ==> r.value < |ds| && ds[r.value].id == Some(id)
    ensures r.Some? ==> forall j :: 0 <= j < r.value ==> ds[j].id != Some(id)
    ensures r.None? ==> forall j :: 0 <= j < |ds| ==> ds[j].id != Some(id)
  {
    if ds == [] then None
    else if ds[0].id == Some(id) then Some(0)
    else match FindMenuDestination(ds[1..], id)
      case None => None
      case Some(k) => Some(k + 1)
  }

  /** What a click on a menu item leads to. */
  datatype ClickTarget = OpenPopup | NotSendItem | UnknownDestination(destinationId: string) | Found(index: nat)

  function ResolveClick(ds: seq<MenuDestination>, menuItemId: string): (t: ClickTarget)
    ensures t == OpenPopup <==> menuItemId == ConfigureId
    ensures t == NotSendItem <==> menuItemId != ConfigureId && !StartsWith(menuItemId, SendPrefix)
    ensures t.Found? ==> t.index < |ds| && ds[t.index].id == Some(ReplaceFirst(menuItemId, SendPrefix, ""))
    ensures t.UnknownDestination? ==>
      t.destinationId == ReplaceFirst(menuItemId, SendPrefix, "") && forall j :: 0 <= j < |ds| ==> ds[j].id != Some(t.destinationId)
  {
    if menuItemId == ConfigureId then OpenPopup
    else if !StartsWith(menuItemId, SendPrefix) then NotSendItem
    else
      var destinationId := ReplaceFirst(menuItemId, SendPrefix, "");
      match FindMenuDestination(ds, destinationId)
      case None => UnknownDestination(destinationId)
      case Some(k) => Found(k)
  }

  /** Clicking the item built for a destination with an id resolves to the
      first destination with that id, which is the destination itself when ids
      are unique. A destination without an id gets the item `send-undefined`,
      which never resolves to it. */
  lemma SendItemRoundTrip(ds: seq<MenuDestination>, d: MenuDestination)
    requires d in ds
    ensures d.id.Some? ==>
      var t := ResolveClick(ds, SendItem(d).id);
      t.Found? && ds[t.index].id == d.id
    ensures d.id.Some? && (forall i, j :: 0 <= i < j < |ds| ==> ds[i].id != ds[j].id) ==>
      ResolveClick(ds, SendItem(d).id) == Found(PositionOf(ds, d))
    ensures d.id.None? ==>
      var t := ResolveClick(ds, SendItem(d).id);
      t.Found? ==> ds[t.index] != d
  {
    var s := Show(d.id);
    ReplaceFirstOfPrefix(SendPrefix, s);
    assert StartsWith(SendPrefix + s, SendPrefix) by {
      assert (SendPrefix + s)[..|SendPrefix|] == SendPrefix;
    }
    assert SendItem(d).id != ConfigureId by {
      assert SendItem(d).id[0] == 's';
    }
    if d.id.Some? {
      var k := PositionOf(ds, d);
      assert FindMenuDestination(ds, d.id.value).Some?;
    }
  }

  /** The position of a destination in the list. */
  function PositionOf(ds: seq<MenuDestination>, d: MenuDestination): (i: nat)
    requires d in ds
    ensures i < |ds| && ds[i] == d
  {
    if ds[0] == d then 0 else 1 + PositionOf(ds[1..], d)
  }

  /** `info` of a context-menu click. */
  datatype ClickInfo = ClickInfo(menuItemId: string, linkUrl: Option<string>, srcUrl: Option<string>,
                                 selectionText: Option<string>, contexts: Option<seq<string>>)

  /** The tab clicked in. */
  datatype ClickTab = ClickTab(url: Option<string>, title: string)

  /** The page script's outcome: it threw, or it returned a value. */
  datatype ScriptOutcome = ScriptFailed | ScriptReturned(value: Option<string>)

  /** The payload of a click; `metaDescription` is absent when the page script
      failed, and `template` is set only for a templated webhook entry. */
  datatype ClickPayload = ClickPayload(url: Option<string>, title: string, notes: string, timestamp: string,
                                       contextType: string, metaDescription: Option<string>, template: Option<string>)

  function ClickPayloadOf(info: ClickInfo, tab: ClickTab, isoTime: string, meta: ScriptOutcome): (p: ClickPayload)
    ensures Truthy(info.linkUrl) ==> p.url == info.linkUrl
    ensures !Truthy(info.linkUrl) && Truthy(info.srcUrl) ==> p.url == info.srcUrl
    ensures !Truthy(info.linkUrl) && !Truthy(info.srcUrl) ==> p.url == tab.url
    ensures p.notes == Or(info.selectionText, "")
    ensures p.contextType != ""
    ensures meta.ScriptFailed? <==> p.metaDescription.None?
    ensures p.template.None? && p.title == tab.title && p.timestamp == isoTime
  {
    var url := if Truthy(info.linkUrl) then info.linkUrl else if Truthy(info.srcUrl) then info.srcUrl else tab.url;
    var contextType :=
      if info.contexts.Some? && |info.contexts.value| > 0 && info.contexts.value[0] != "" then info.contexts.value[0]
      else "page";
    var metaDescription := if meta.ScriptReturned? then Some(Or(meta.value, "")) else None;
    ClickPayload(url, tab.title, Or(info.selectionText, ""), isoTime, contextType, metaDescription, None)
  }

  // ---------------------------------------------------------------------------
  // Sends
  // ---------------------------------------------------------------------------

  datatype WebhookPost = WebhookPost(target: string, body: ClickPayload)

  const WebhookNotFoundMessage := "Webhook configuration not found"

  /** `webhookConfigs.find(w => w.id === webhookId)`; two missing ids are equal. */
  function FindWebhook(ws: seq<WebhookConfig>, webhookId: Option<string>): (r: Option<WebhookConfig>)
    ensures r.Some? ==> r.value in ws && r.value.id == webhookId
    ensures r.Some? ==> exists k :: 0 <= k < |ws| && ws[k] == r.value && forall j :: 0 <= j < k ==> ws[j].id != webhookId
    ensures r.None? ==> forall w :: w in ws ==> w.id != webhookId
  {
    if ws == [] then None
    else if ws[0].id == webhookId then Some(ws[0])
    else FindWebhook(ws[1..], webhookId)
  }

  /** `sendToWebhook(webhookId, templateName, payload)` in the service worker. */
  function SendToWebhook(ws: seq<WebhookConfig>, webhookId: Option<string>, templateName: Option<string>,
                         payload: ClickPayload, outcome: Exchange<string>)
    : (sent: (Option<WebhookPost>, Result<()>))
    ensures (FindWebhook(ws, webhookId).None? || !Truthy(FindWebhook(ws, webhookId).value.url)) ==>
      sent == (None, Err(WebhookNotFoundMessage))
    ensures sent.0.Some? ==>
      && sent.0.value.target == FindWebhook(ws, webhookId).value.url.value
      && sent.0.value.body.template == (if Truthy(templateName) then templateName else payload.template)
      && sent.0.value.body.(template := payload.template) == payload
    ensures sent.1.Ok? <==> sent.0.Some? && outcome.Responded? && IsSuccess(outcome.status)
    ensures FindWebhook(ws, webhookId).Some? && Truthy(FindWebhook(ws, webhookId).value.url) ==> sent.0.Some?
    ensures sent.0.Some? && outcome.Responded? && !IsSuccess(outcome.status) ==>
      sent.1 == Err("Webhook failed: " + IntToString(outcome.status) + " " + outcome.statusText)
    ensures sent.0.Some? && outcome.Thrown? ==> sent.1 == Err(outcome.message)
  {
    match FindWebhook(ws, webhookId)
    case None => (None, Err(WebhookNotFoundMessage))
    case Some(webhook) =>
      if !Truthy(webhook.url) then (None, Err(WebhookNotFoundMessage))
      else
        var body := if Truthy(templateName) then payload.(template := templateName) else payload;
        var post := WebhookPost(webhook.url.value, body);
        match outcome
        case Thrown(message) => (Some(post), Err(message))
        case Responded(status, statusText, _) =>
          if IsSuccess(status) then (Some(post), Ok(()))
          else (Some(post), Err("Webhook failed: " + IntToString(status) + " " + statusText))
  }

  /** The request of the service worker's Airtable send: the body is `{fields}`. */
  datatype RecordPost = RecordPost(url: string, authorization: string, fields: Fields)

  const BaseNotFoundMessage := "Airtable base configuration not found"
  const MappingsMissingMessage := "Table field mappings not configured"

  function FindBase(bs: seq<BaseConfig>, id: string): (r: Option<BaseConfig>)
    ensures r.Some? ==> r.value in bs && r.value.id == id
    ensures r.Some? ==> exists k :: 0 <= k < |bs| && bs[k] == r.value && forall j :: 0 <= j < k ==> bs[j].id != id
    ensures r.None? ==> forall b :: b in bs ==> b.id != id
  {
    if bs == [] then None
    else if bs[0].id == id then Some(bs[0])
    else FindBase(bs[1..], id)
  }

  predicate MappingSet(m: FieldMappings, role: Role)
  {
    role in m && m[role] != ""
  }

  predicate UrlWritten(m: FieldMappings, payload: ClickPayload)
  {
    MappingSet(m, Url) && payload.url.Some?
  }

  predicate NotesWritten(m: FieldMappings, payload: ClickPayload)
  {
    MappingSet(m, Notes) && payload.notes != ""
  }

  /** The fields of the record: url, title and notes under their mapped ids,
      in that order; an absent url is dropped from the JSON, and notes are
      written only when non-empty. */
  function ClickFields(m: FieldMappings, payload: ClickPayload): (f: Fields)
    ensures forall id :: id in f <==>
      (UrlWritten(m, payload) && id == m[Url]) || (MappingSet(m, Title) && id == m[Title])
      || (NotesWritten(m, payload) && id == m[Notes])
    ensures NotesWritten(m, payload) ==> f[m[Notes]] == Text(payload.notes)
    ensures MappingSet(m, Title) && !(NotesWritten(m, payload) && m[Notes] == m[Title]) ==>
      f[m[Title]] == Text(payload.title)
    ensures (UrlWritten(m, payload) && !(MappingSet(m, Title) && m[Title] == m[Url])
             && !(NotesWritten(m, payload) && m[Notes] == m[Url])) ==> f[m[Url]] == Text(payload.url.value)
  {
    var f1: Fields := if UrlWritten(m, payload) then map[m[Url] := Text(payload.url.value)] else map[];
    var f2 := if MappingSet(m, Title) then f1[m[Title] := Text(payload.title)] else f1;
    if NotesWritten(m, payload) then f2[m[Notes] := Text(payload.notes)] else f2
  }

  /** `base.config.configuredTables?.[tableId]?.fieldMappings` is present. */
  predicate HasMappings(c: NestedConfig, tableId: string)
  {
    c.configuredTables.Some? && tableId in c.configuredTables.value && c.configuredTables.value[tableId].fieldMappings.Some?
  }

  /** `sendToAirtable(destination, payload)` in the service worker: the base is
      read again from storage and its nested `config` is used. */
  function SendToAirtable(stored: Option<seq<BaseConfig>>, baseId: string, tableId: string, payload: ClickPayload,
                          outcome: Exchange<ApiBody>)
    : (sent: (Option<RecordPost>, Result<()>))
    ensures var base := FindBase(if stored.Some? then stored.value else [], baseId);
      (base.None? || base.value.config.None?) ==> sent == (None, Err(BaseNotFoundMessage))
    ensures var base := FindBase(if stored.Some? then stored.value else [], baseId);
      base.Some? && base.value.config.Some? && !HasMappings(base.value.config.value, tableId) ==>
      sent == (None, Err(MappingsMissingMessage))
    ensures sent.0.Some? ==>
      var base := FindBase(if stored.Some? then stored.value else [], baseId);
      base.Some? && base.value.config.Some? && HasMappings(base.value.config.value, tableId) &&
      var c := base.value.config.value;
      && sent.0.value.url == ApiRoot + Show(c.baseId) + "/" + tableId
      && sent.0.value.authorization == "Bearer " + Show(c.token)
      && sent.0.value.fields == ClickFields(c.configuredTables.value[tableId].fieldMappings.value, payload)
    ensures sent.1.Ok? <==> sent.0.Some? && outcome.Responded? && IsSuccess(outcome.status)
    ensures sent.0.Some? && outcome.Responded? && !IsSuccess(outcome.status) ==>
      sent.1 == Err("Airtable failed: " + (if outcome.body.error.Some? then Or(outcome.body.error.value.message, outcome.statusText)
                                           else outcome.statusText))
    ensures var base := FindBase(if stored.Some? then stored.value else [], baseId);
      base.Some? && base.value.config.Some? && HasMappings(base.value.config.value, tableId) ==> sent.0.Some?
    ensures sent.0.Some? && outcome.Thrown? ==> sent.1 == Err(outcome.message)
  {
    var bases := if stored.Some? then stored.value else [];
    match FindBase(bases, baseId)
    case None => (None, Err(BaseNotFoundMessage))
    case Some(base) =>
      if base.config.None? then (None, Err(BaseNotFoundMessage))
      else
        var c := base.config.value;
        if !HasMappings(c, tableId) then (None, Err(MappingsMissingMessage))
        else
          var fields := ClickFields(c.configuredTables.value[tableId].fieldMappings.value, payload);
          var post := RecordPost(ApiRoot + Show(c.baseId) + "/" + tableId, "Bearer " + Show(c.token), fields);
          match outcome
          case Thrown(message) => (Some(post), Err(message))
          case Responded(status, statusText, body) =>
            if IsSuccess(status) then (Some(post), Ok(()))
            else
              var text := if body.error.Some? then Or(body.error.value.message, statusText) else statusText;
              (Some(post), Err("Airtable failed: " + text))
  }

  /** The notification shown after a send. */
  datatype Notification = SentSuccessfully(message: string) | SendFailed(message: string)

  /** What a click does: nothing, open the popup, or a send with its notification. */
  datatype ClickOutcome =
    | PopupOpened
    | NoAction
    | Dispatched(destination: MenuDestination, webhookPost: Option<WebhookPost>, recordPost: Option<RecordPost>,
                 notification: Notification)

  function NotificationOf(d: MenuDestination, r: Result<()>): Notification
  {
    match r
    case Ok(_) => SentSuccessfully("Sent to " + Show(d.name))
    case Err(message) => SendFailed(message)
  }

  /** The click listener: the item is resolved, the payload captured, and the
      destination's send issued. */
  function OnClicked(ds: seq<MenuDestination>, ws: seq<WebhookConfig>, info: ClickInfo, tab: ClickTab,
                     isoTime: string, meta: ScriptOutcome, stored: Option<seq<BaseConfig>>,
                     webhookOutcome: Exchange<string>, airtableOutcome: Exchange<ApiBody>): (o: ClickOutcome)
    ensures o.PopupOpened? <==> info.menuItemId == ConfigureId
    ensures o.Dispatched? <==> ResolveClick(ds, info.menuItemId).Found?
    ensures o.Dispatched? ==>
      && o.destination == ds[ResolveClick(ds, info.menuItemId).index]
      && (o.webhookPost.Some? ==>
            o.destination.target.WebhookTarget? && (o.webhookPost.value.body.metaDescription.None? <==> meta.ScriptFailed?))
      && (o.recordPost.Some? ==> o.destination.target.AirtableTarget?)
      && (o.notification.SentSuccessfully? ==> o.notification.message == "Sent to " + Show(o.destination.name))
    ensures o.Dispatched? && o.destination.target.WebhookTarget? ==>
      var t := o.destination.target;
      var s := SendToWebhook(ws, t.webhookId, t.templateName, ClickPayloadOf(info, tab, isoTime, meta), webhookOutcome);
      && o.webhookPost == s.0 && o.recordPost.None?
      && (s.1.Ok? ==> o.notification == SentSuccessfully("Sent to " + Show(o.destination.name)))
      && (s.1.Err? ==> o.notification == SendFailed(s.1.message))
    ensures o.Dispatched? && o.destination.target.AirtableTarget? ==>
      var t := o.destination.target;
      var s := SendToAirtable(stored, t.baseId, t.tableId, ClickPayloadOf(info, tab, isoTime, meta), airtableOutcome);
      && o.recordPost == s.0 && o.webhookPost.None?
      && (s.1.Ok? ==> o.notification == SentSuccessfully("Sent to " + Show(o.destination.name)))
      && (s.1.Err? ==> o.notification == SendFailed(s.1.message))
  {
    match ResolveClick(ds, info.menuItemId)
    case OpenPopup => PopupOpened
    case NotSendItem => NoAction
    case UnknownDestination(_) => NoAction
    case Found(k) =>
      var d := ds[k];
      var payload := ClickPayloadOf(info, tab, isoTime, meta);
      match d.target
      case WebhookTarget(webhookId, templateName) =>
        var sent := SendToWebhook(ws, webhookId, templateName, payload, webhookOutcome);
        Dispatched(d, sent.0, None, NotificationOf(d, sent.1))
      case AirtableTarget(baseId, tableId) =>
        var sent := SendToAirtable(stored, baseId, tableId, payload, airtableOutcome);
        Dispatched(d, None, sent.0, NotificationOf(d, sent.1))
  }

  /** With unique ids, clicking a destination's item dispatches to that
      destination with the payload of the click. */
  lemma ClickOnSendItem(ds: seq<MenuDestination>, ws: seq<WebhookConfig>, d: MenuDestination, info: ClickInfo,
                        tab: ClickTab, isoTime: string, meta: ScriptOutcome, stored: Option<seq<BaseConfig>>,
                        webhookOutcome: Exchange<string>, airtableOutcome: Exchange<ApiBody>)
    requires d in ds && d.id.Some? && info.menuItemId == SendItem(d).id
    requires forall a, b :: 0 <= a < b < |ds| ==> ds[a].id != ds[b].id
    ensures var o := OnClicked(ds, ws, info, tab, isoTime, meta, stored, webhookOutcome, airtableOutcome);
      var payload := ClickPayloadOf(info, tab, isoTime, meta);
      && o.Dispatched? && o.destination == d
      && (d.target.WebhookTarget? ==>
            o.webhookPost == SendToWebhook(ws, d.target.webhookId, d.target.templateName, payload, webhookOutcome).0)
      && (d.target.AirtableTarget? ==>
            o.recordPost == SendToAirtable(stored, d.target.baseId, d.target.tableId, payload, airtableOutcome).0)
  {
    SendItemRoundTrip(ds, d);
  }

  lemma TemplateEntryListed(ws: seq<WebhookConfig>, bs: seq<BaseConfig>, i: nat, k: nat)
    requires i < |ws| && HasTemplates(ws[i]) && k < |ws[i].templates.value|
    ensures TemplateDestination(ws[i], ws[i].templates.value[k]) in Flattened(ws, bs)
  {
    WebhookMenuSpec(ws);
  }

  /** A click on a templated webhook item posts the click payload with the
      template name set, to the url of the webhook the item was built from. */
  lemma TemplatedClickSendsTemplate(ws: seq<WebhookConfig>, bs: seq<BaseConfig>, i: nat, k: nat, info: ClickInfo,
                                    tab: ClickTab, isoTime: string, meta: ScriptOutcome, stored: Option<seq<BaseConfig>>,
                                    webhookOutcome: Exchange<string>, airtableOutcome: Exchange<ApiBody>)
    requires i < |ws| && HasTemplates(ws[i]) && k < |ws[i].templates.value|
    requires ws[i].templates.value[k].name != "" && Truthy(ws[i].url)
    requires forall j :: 0 <= j < |ws| && j != i ==> ws[j].id != ws[i].id
    requires info.menuItemId == SendItem(TemplateDestination(ws[i], ws[i].templates.value[k])).id
    requires var ds := Flattened(ws, bs); forall a, b :: 0 <= a < b < |ds| ==> ds[a].id != ds[b].id
    ensures var o := OnClicked(Flattened(ws, bs), ws, info, tab, isoTime, meta, stored, webhookOutcome, airtableOutcome);
      && o.Dispatched? && o.webhookPost.Some?
      && o.webhookPost.value.target == ws[i].url.value
      && o.webhookPost.value.body.template == Some(ws[i].templates.value[k].name)
  {
    var name := ws[i].templates.value[k].name;
    var d := TemplateDestination(ws[i], ws[i].templates.value[k]);
    assert d.target == WebhookTarget(ws[i].id, Some(name));
    TemplateEntryListed(ws, bs, i, k);
    ClickOnSendItem(Flattened(ws, bs), ws, d, info, tab, isoTime, meta, stored, webhookOutcome, airtableOutcome);
    FindWebhookUnique(ws, i);
    var payload := ClickPayloadOf(info, tab, isoTime, meta);
    TemplatedWebhookPost(ws, i, name, payload, webhookOutcome);
  }

  lemma TemplatedWebhookPost(ws: seq<WebhookConfig>, i: nat, name: string, payload: ClickPayload, outcome: Exchange<string>)
    requires i < |ws| && FindWebhook(ws, ws[i].id) == Some(ws[i]) && Truthy(ws[i].url) && name != ""
    ensures var sent := SendToWebhook(ws, ws[i].id, Some(name), payload, outcome);
      sent.0.Some? && sent.0.value.target == ws[i].url.value && sent.0.value.body.template == Some(name)
  {
  }

  lemma {:induction false} FindWebhookUnique(ws: seq<WebhookConfig>, i: nat)
    requires i < |ws|
    requires forall j :: 0 <= j < |ws| && j != i ==> ws[j].id != ws[i].id
    ensures FindWebhook(ws, ws[i].id) == Some(ws[i])
  {
    if i > 0 {
      assert ws[0].id != ws[i].id;
      FindWebhookUnique(ws[1..], i - 1);
    }
  }
}
