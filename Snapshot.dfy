/** The snapshot the background script hands to every page: one entry per
    child of the dock folder, in store order, each with its display icon;
    folders carry their own children one level deep; a settings entry may
    close the list. */
module Snapshot {
  import opened Js
  import opened Bookmarks

  /** One object of the snapshot array. `children` is null on links and an
      array on folders. */
  datatype Entry = Entry(id: string, title: string, url: Option<string>, iconUrl: string, children: Option<seq<Entry>>)

  /** The storage keys the snapshot builder reads: `customIcons` (an absent
      map reads as empty), `showSettings` and `settingsIcon`. */
  datatype IconPrefs = IconPrefs(customIcons: map<string, string>, showSettings: Value, settingsIcon: Option<string>)

  /** `new URL(u).hostname`, or `None` where the URL constructor throws. URL
      parsing itself is outside the model, so callers supply it. */
  type HostOf = string -> Option<string>

  const FaviconPrefix := "https://www.google.com/s2/favicons?domain="
  const FaviconSuffix := "&sz=128"
  const DefaultIcon := "_default"
  const DefaultFolderIcon := "_default_folder"
  const SettingsId := "dock_settings_item"
  const SettingsTitle := "Dock Settings"

  /** Reads the domain back out of a favicon-service URL; `None` for any
      other string. */
  function DomainOf(icon: string): Option<string> {
    var lo := |FaviconPrefix|;
    if |icon| >= lo + |FaviconSuffix|
       && icon[..lo] == FaviconPrefix && icon[|icon| - |FaviconSuffix|..] == FaviconSuffix
    then Some(icon[lo..|icon| - |FaviconSuffix|])
    else None
  }

  /** `getFaviconUrl(u)`: never fails. The favicon service is asked for the
      host of `u` exactly when `u` parses, so the host can be read back from
      the result; an unparsable url gives the `_default` placeholder. */
  function FaviconUrl(u: string, host: HostOf): (r: string)
    ensures DomainOf(r) == host(u)
    ensures r == DefaultIcon <==> host(u).None?
  {
    match host(u)
    case Some(h) =>
      var r := FaviconPrefix + h + FaviconSuffix;
      assert r[..|FaviconPrefix|] == FaviconPrefix;
      assert r[|r| - |FaviconSuffix|..] == FaviconSuffix;
      assert r[|FaviconPrefix|..|r| - |FaviconSuffix|] == h;
      r
    case None => DefaultIcon
  }

  /** Whether `customIcons[id]` is truthy. */
  predicate HasCustomIcon(icons: map<string, string>, id: string) {
    id in icons && icons[id] != ""
  }

  /** The icon a node is shown with: a truthy custom icon always wins;
      otherwise a folder gets the folder placeholder and a link its favicon. */
  function IconFor(n: Node, icons: map<string, string>, host: HostOf): string {
    if HasCustomIcon(icons, n.id) then icons[n.id]
    else if !Present(n.url) then DefaultFolderIcon
    else FaviconUrl(n.url.value, host)
  }

  /** `processNode`: copies id, title and url, resolves the icon, and marks a
      folder (no truthy url) with an empty `children` array, a link with null. */
  function ProcessNode(n: Node, icons: map<string, string>, host: HostOf): (e: Entry)
    ensures e.id == n.id && e.title == n.title && e.url == n.url
    ensures e.children.Some? <==> !Present(n.url)
    ensures e.children.Some? ==> e.children.value == []
  {
    var isFolder := !Present(n.url);
    Entry(n.id, n.title, n.url, IconFor(n, icons, host), if isFolder then Some([]) else None)
  }

  /** `subChildren.map(processNode)` */
  function ProcessAll(nodes: seq<Node>, icons: map<string, string>, host: HostOf): seq<Entry> {
    seq(|nodes|, i requires 0 <= i < |nodes| => ProcessNode(nodes[i], icons, host))
  }

  /** The snapshot entry of one child of the dock folder: a folder's
      `children` are its own children as the store lists them, each processed;
      they are not resolved any deeper. */
  function DockEntry(tree: seq<Node>, n: Node, icons: map<string, string>, host: HostOf): Entry {
    var p := ProcessNode(n, icons, host);
    if p.children.Some? then p.(children := Some(ProcessAll(ChildrenOf(tree, n.id), icons, host))) else p
  }

  /** The gear entry appended when the settings icon is enabled. */
  function SettingsEntry(prefs: IconPrefs, bundledIcon: string): Entry {
    Entry(SettingsId, SettingsTitle, Some(""),
          if Present(prefs.settingsIcon) then prefs.settingsIcon.value else bundledIcon, None)
  }

  /** `settings.showSettings !== false` */
  predicate ShowsSettings(prefs: IconPrefs) {
    prefs.showSettings != Bool(false)
  }

  /** What `getBookmarksForDock` returns once the dock folder's id is known. */
  function SnapshotOf(tree: seq<Node>, folderId: string, prefs: IconPrefs, bundledIcon: string, host: HostOf): seq<Entry> {
    var children := ChildrenOf(tree, folderId);
    seq(|children|, i requires 0 <= i < |children| => DockEntry(tree, children[i], prefs.customIcons, host))
    + if ShowsSettings(prefs) then [SettingsEntry(prefs, bundledIcon)] else []
  }

  /** The assembly loop of `getBookmarksForDock`: each child is processed, a
      folder's `children` are replaced by its processed sub-children, the
      entry is pushed; then the settings entry is pushed if enabled. */
  method AssembleSnapshot(tree: seq<Node>, folderId: string, prefs: IconPrefs, bundledIcon: string, host: HostOf)
    returns (processed: seq<Entry>)
    ensures processed == SnapshotOf(tree, folderId, prefs, bundledIcon, host)
  {
    var children := ChildrenOf(tree, folderId);
    var customIcons := prefs.customIcons;
    processed := [];
    for i := 0 to |children|
      invariant |processed| == i
      invariant forall k :: 0 <= k < i ==> processed[k] == DockEntry(tree, children[k], customIcons, host)
    {
      var child := children[i];
      var pChild := ProcessNode(child, customIcons, host);
      if pChild.children.Some? {
        var subChildren := ChildrenOf(tree, child.id);
        pChild := pChild.(children := Some(ProcessAll(subChildren, customIcons, host)));
      }
      processed := processed + [pChild];
    }
    if prefs.showSettings != Bool(false) {
      processed := processed + [SettingsEntry(prefs, bundledIcon)];
    }
  }

  // ---------------------------------------------------------------------------
  // Properties of the snapshot

  /** One entry per child of the dock folder, in the folder's order, carrying
      the child's id, title and url; the settings entry comes last exactly when
      `showSettings` is not `false`. */
  lemma SnapshotShape(tree: seq<Node>, folderId: string, prefs: IconPrefs, bundledIcon: string, host: HostOf)
    ensures var children := ChildrenOf(tree, folderId);
      var s := SnapshotOf(tree, folderId, prefs, bundledIcon, host);
      && |s| == |children| + (if ShowsSettings(prefs) then 1 else 0)
      && (forall i :: 0 <= i < |children| ==>
            s[i].id == children[i].id && s[i].title == children[i].title && s[i].url == children[i].url)
      && (ShowsSettings(prefs) ==> s[|s| - 1] == SettingsEntry(prefs, bundledIcon))
  {
  }

  /** Folders carry their children one level deep: the sub-entries follow the
      store's child list of that folder and never have children of their own
      resolved; links carry null. */
  lemma SnapshotNesting(tree: seq<Node>, folderId: string, prefs: IconPrefs, bundledIcon: string, host: HostOf, i: nat)
    requires i < |ChildrenOf(tree, folderId)|
    ensures var c := ChildrenOf(tree, folderId)[i];
      var e := SnapshotOf(tree, folderId, prefs, bundledIcon, host)[i];
      var subs := ChildrenOf(tree, c.id);
      && (Present(c.url) ==> e.children.None?)
      && (!Present(c.url) ==>
            e.children.Some? && |e.children.value| == |subs|
            && forall j :: 0 <= j < |subs| ==>
                 e.children.value[j].id == subs[j].id
                 && e.children.value[j].title == subs[j].title
                 && e.children.value[j].url == subs[j].url
                 && e.children.value[j].children == (if Present(subs[j].url) then None else Some([])))
  {
  }

  /** Icon precedence on every entry, at both levels: a truthy custom icon is
      always shown; otherwise a folder shows the folder placeholder and a link
      the favicon of its host (the placeholder `_default` when it does not parse). */
  lemma SnapshotIcons(tree: seq<Node>, folderId: string, prefs: IconPrefs, bundledIcon: string, host: HostOf, i: nat)
    requires i < |ChildrenOf(tree, folderId)|
    ensures var c := ChildrenOf(tree, folderId)[i];
      var e := SnapshotOf(tree, folderId, prefs, bundledIcon, host)[i];
      && (HasCustomIcon(prefs.customIcons, c.id) ==> e.iconUrl == prefs.customIcons[c.id])
      && (!HasCustomIcon(prefs.customIcons, c.id) && !Present(c.url) ==> e.iconUrl == DefaultFolderIcon)
      && (!HasCustomIcon(prefs.customIcons, c.id) && Present(c.url) ==>
            e.iconUrl == FaviconUrl(c.url.value, host) && DomainOf(e.iconUrl) == host(c.url.value))
      && (!Present(c.url) ==>
            forall j :: 0 <= j < |ChildrenOf(tree, c.id)| ==>
              var sub := ChildrenOf(tree, c.id)[j];
              && (HasCustomIcon(prefs.customIcons, sub.id) ==> e.children.value[j].iconUrl == prefs.customIcons[sub.id])
              && (!HasCustomIcon(prefs.customIcons, sub.id) ==>
                    e.children.value[j].iconUrl ==
                      (if Present(sub.url) then FaviconUrl(sub.url.value, host) else DefaultFolderIcon)))
  {
  }

  // ---------------------------------------------------------------------------
  // What the next snapshot shows after a change

  /** The `customIcons` map after `update_icon`: a truthy url is stored under
      the id, an empty or missing one deletes the key; every other key keeps
      its value. */
  function SetIcon(icons: map<string, string>, id: string, url: Option<string>): (r: map<string, string>)
    ensures Present(url) ==> id in r && r[id] == url.value
    ensures !Present(url) ==> id !in r
    ensures forall k :: k != id ==> (k in r <==> k in icons) && (k in r ==> r[k] == icons[k])
  {
    if Present(url) then icons[id := url.value] else icons - {id}
  }

  /** After `update_icon`, the next snapshot shows the new icon on every entry
      with that id, at both levels; clearing the icon brings back the default
      (the folder placeholder or the favicon); entries with other ids keep
      their icon, and nothing else about any entry changes. */
  lemma IconUpdateShowsInSnapshot(tree: seq<Node>, folderId: string, prefs: IconPrefs, id: string, url: Option<string>,
                                  bundledIcon: string, host: HostOf, i: nat)
    requires i < |ChildrenOf(tree, folderId)|
    ensures var c := ChildrenOf(tree, folderId)[i];
      var prefs' := prefs.(customIcons := SetIcon(prefs.customIcons, id, url));
      var before := SnapshotOf(tree, folderId, prefs, bundledIcon, host)[i];
      var after := SnapshotOf(tree, folderId, prefs', bundledIcon, host)[i];
      && (c.id == id && Present(url) ==> after.iconUrl == url.value)
      && (c.id == id && !Present(url) && !Present(c.url) ==> after.iconUrl == DefaultFolderIcon)
      && (c.id == id && !Present(url) && Present(c.url) ==> after.iconUrl == FaviconUrl(c.url.value, host))
      && (c.id != id ==> after.iconUrl == before.iconUrl)
      && after.(iconUrl := before.iconUrl, children := before.children) == before
      && (after.children.Some? <==> before.children.Some?)
      && (after.children.Some? ==>
            |after.children.value| == |before.children.value|
            && forall j :: 0 <= j < |after.children.value| ==>
                 var sub := ChildrenOf(tree, c.id)[j];
                 && (sub.id == id && Present(url) ==> after.children.value[j].iconUrl == url.value)
                 && (sub.id == id && !Present(url) ==>
                       after.children.value[j].iconUrl ==
                         (if Present(sub.url) then FaviconUrl(sub.url.value, host) else DefaultFolderIcon))
                 && (sub.id != id ==> after.children.value[j] == before.children.value[j]))
  {
  }

  /** The entries of the snapshot that come from the dock folder's children. */
  lemma SnapshotAt(tree: seq<Node>, folderId: string, prefs: IconPrefs, bundledIcon: string, host: HostOf)
    ensures var children := ChildrenOf(tree, folderId);
      var s := SnapshotOf(tree, folderId, prefs, bundledIcon, host);
      && |s| == |children| + (if ShowsSettings(prefs) then 1 else 0)
      && (forall i :: 0 <= i < |children| ==> s[i] == DockEntry(tree, children[i], prefs.customIcons, host))
      && (ShowsSettings(prefs) ==> s[|s| - 1] == SettingsEntry(prefs, bundledIcon))
  {
  }

  /** The entry fields that depend on the node alone. */
  lemma DockEntryFields(tree: seq<Node>, n: Node, icons: map<string, string>, host: HostOf)
    ensures var e := DockEntry(tree, n, icons, host);
      e.id == n.id && e.title == n.title && e.url == n.url && e.iconUrl == IconFor(n, icons, host)
  {
  }

  /** After `rename_bookmark`, the next snapshot has the same entries in the
      same order with the same ids and icons; the renamed entry shows its new
      title and every other entry keeps its title. */
  lemma RenameShowsInSnapshot(tree: seq<Node>, folderId: string, id: string, title: string,
                              prefs: IconPrefs, bundledIcon: string, host: HostOf)
    ensures var children := ChildrenOf(tree, folderId);
      var before := SnapshotOf(tree, folderId, prefs, bundledIcon, host);
      var after := SnapshotOf(Rename(tree, id, title), folderId, prefs, bundledIcon, host);
      && |after| == |before|
      && (forall i :: 0 <= i < |children| ==>
            && after[i].id == before[i].id && after[i].url == before[i].url
            && after[i].iconUrl == before[i].iconUrl
            && after[i].title == (if children[i].id == id then title else before[i].title))
      && (ShowsSettings(prefs) ==> after[|after| - 1] == before[|before| - 1])
  {
    var children := ChildrenOf(tree, folderId);
    var tree' := Rename(tree, id, title);
    var renamed := ChildrenOf(tree', folderId);
    ChildrenAfterRename(tree, id, title, folderId);
    RenameShape(children, id, title);
    SnapshotAt(tree, folderId, prefs, bundledIcon, host);
    SnapshotAt(tree', folderId, prefs, bundledIcon, host);
    var before := SnapshotOf(tree, folderId, prefs, bundledIcon, host);
    var after := SnapshotOf(tree', folderId, prefs, bundledIcon, host);
    forall i | 0 <= i < |children|
      ensures && after[i].id == before[i].id && after[i].url == before[i].url
              && after[i].iconUrl == before[i].iconUrl
              && after[i].title == (if children[i].id == id then title else before[i].title)
    {
      var c := children[i];
      var r := renamed[i];
      DockEntryFields(tree, c, prefs.customIcons, host);
      DockEntryFields(tree', r, prefs.customIcons, host);
      assert IconFor(r, prefs.customIcons, host) == IconFor(c, prefs.customIcons, host);
    }
  }
}
