/** The background script: it finds or creates the dock folder, builds the
    snapshot, answers and carries out the pages' requests, and pushes a fresh
    snapshot to every tab after each change. */
module Background {
  import opened Js
  import opened Bookmarks
  import opened Snapshot
  import opened Messages

  // ---------------------------------------------------------------------------
  // Finding or creating the dock folder

  /** The parent `getDockFolderId` creates the folder under: the first child
      of the root with id '2' ("Other Bookmarks" in Chrome), else the root. */
  function CreationParent(root: Node): (pid: string)
    ensures (exists c :: c in Kids(root) && c.id == "2") ==> pid == "2"
    ensures (forall c :: c in Kids(root) ==> c.id != "2") ==> pid == root.id
  {
    match FirstOf(Kids(root), WithId("2"))
    case Some(c) => c.id
    case None =>
      assert forall c :: c in Kids(root) ==> c.id != "2" by {
        forall c | c in Kids(root) ensures c.id != "2" {
          var j :| 0 <= j < |Kids(root)| && Kids(root)[j] == c;
          assert !WithId("2")(Kids(root)[j]);
        }
      }
      root.id
  }

  /** The id the store gives to the next node it creates. */
  function NewId(k: nat): string {
    NatToString(k)
  }

  /** The outcome of `bookmarks.create`: the node made (`None` when no folder
      has the parent id and the store refuses), the root and the id counter
      afterwards. */
  datatype Creation = Creation(created: Option<Node>, root: Node, nextId: nat)

  function Create(root: Node, nextId: nat, parentId: string, title: string, url: Option<string>): (r: Creation)
    ensures r.created.Some? <==> HasFolder([root], parentId)
    ensures r.created.Some? ==>
      && r.created.value == NewNode(NewId(nextId), title, url) && r.nextId == nextId + 1
      && [r.root] == AddChild([root], parentId, r.created.value)
    ensures r.created.None? ==> r.root == root && r.nextId == nextId
  {
    if HasFolder([root], parentId) then
      var node := NewNode(NewId(nextId), title, url);
      var tree := AddChild([root], parentId, node);
      AddChildSingle(root, parentId, node);
      assert tree == [tree[0]];
      Creation(Some(node), tree[0], nextId + 1)
    else
      Creation(None, root, nextId)
  }

  /** The outcome of `getDockFolderId`: the folder's id (`None` when the store
      refused to create it and the call throws), and the store afterwards. */
  datatype Located = Located(folderId: Option<string>, root: Node, nextId: nat)

  /** `getDockFolderId` on the store's root node. */
  function LocateOrCreate(root: Node, nextId: nat): (r: Located)
    // An existing dock folder is returned and nothing is created.
    ensures FindFolder([root], DockFolderName).Some? ==>
      r == Located(Some(FindFolder([root], DockFolderName).value.id), root, nextId)
    // Otherwise one folder is created under the chosen parent, if the store has it.
    ensures FindFolder([root], DockFolderName).None? && HasFolder([root], CreationParent(root)) ==>
      && r.folderId == Some(NewId(nextId)) && r.nextId == nextId + 1
      && [r.root] == AddChild([root], CreationParent(root), NewNode(NewId(nextId), DockFolderName, None))
    ensures r.folderId.None? <==> FindFolder([root], DockFolderName).None? && !HasFolder([root], CreationParent(root))
    ensures r.folderId.None? ==> r.root == root && r.nextId == nextId
  {
    match FindFolder([root], DockFolderName)
    case Some(f) => Located(Some(f.id), root, nextId)
    case None =>
      var c := Create(root, nextId, CreationParent(root), DockFolderName, None);
      Located(if c.created.Some? then Some(c.created.value.id) else None, c.root, c.nextId)
  }

  /** The id `getDockFolderId` returns names the folder the search finds in
      the store it leaves, whether it was found or created. */
  lemma LocatedFolderIsFound(root: Node, nextId: nat)
    ensures var r := LocateOrCreate(root, nextId);
      r.folderId.Some? ==>
        FindFolder([r.root], DockFolderName).Some? && FindFolder([r.root], DockFolderName).value.id == r.folderId.value
  {
    if FindFolder([root], DockFolderName).None? && HasFolder([root], CreationParent(root)) {
      var node := NewNode(NewId(nextId), DockFolderName, None);
      FindFolderAfterAdd([root], CreationParent(root), node, DockFolderName);
    }
  }

  /** Creating the missing folder makes as many dock folders as there are
      folders with the parent id: exactly one in a store with unique ids. */
  lemma CreatedFolderCount(root: Node, nextId: nat)
    requires FindFolder([root], DockFolderName).None? && HasFolder([root], CreationParent(root))
    ensures var r := LocateOrCreate(root, nextId);
      Count([r.root], NamedFolder(DockFolderName)) == Count([root], FolderWithId(CreationParent(root)))
  {
    var node := NewNode(NewId(nextId), DockFolderName, None);
    CountAfterAdd([root], CreationParent(root), node, DockFolderName);
    NotFoundCountZero([root], NamedFolder(DockFolderName));
  }

  /** In a bookmark store ids are unique, ... */
  ghost predicate UniqueIds(root: Node) {
    forall x :: Count([root], WithId(x)) <= 1
  }

  /** ... and no node carries an id the counter has yet to hand out. */
  ghost predicate FreshFrom(root: Node, nextId: nat) {
    forall k: nat :: nextId <= k ==> Count([root], WithId(NewId(k))) == 0
  }

  /** `bookmarks.create` keeps ids unique and the counter ahead of them; the
      node it creates has an id no node had before and appears exactly once. */
  lemma CreateKeepsIds(root: Node, nextId: nat, parentId: string, title: string, url: Option<string>)
    requires UniqueIds(root) && FreshFrom(root, nextId)
    ensures var r := Create(root, nextId, parentId, title, url);
      && UniqueIds(r.root) && FreshFrom(r.root, r.nextId)
      && (r.created.Some? ==>
            Count([root], WithId(r.created.value.id)) == 0 && Count([r.root], WithId(r.created.value.id)) == 1)
  {
    var r := Create(root, nextId, parentId, title, url);
    if r.created.Some? {
      var c := r.created.value;
      var folders := Count([root], FolderWithId(parentId));
      forall x
        ensures Count([r.root], WithId(x)) == Count([root], WithId(x)) + (if c.id == x then folders else 0)
      {
        CountIdAfterAdd([root], parentId, c, x);
      }
      FoldersWithIdAreNodesWithId([root], parentId);
      if folders == 0 {
        CountZeroNotFound([root], FolderWithId(parentId));
      }
      assert Count([root], WithId(NewId(nextId))) == 0;
      assert Count([r.root], WithId(c.id)) == 1;
      forall x
        ensures Count([r.root], WithId(x)) <= 1
      {
        assert Count([root], WithId(x)) <= 1;
      }
      forall k: nat | r.nextId <= k
        ensures Count([r.root], WithId(NewId(k))) == 0
      {
        if NewId(k) == c.id {
          NatToStringInjective(k, nextId);
        }
        assert Count([root], WithId(NewId(k))) == 0;
      }
    }
  }

  /** `getDockFolderId` keeps ids unique and the counter ahead of them; a
      folder it creates has an id no node had before. */
  lemma LocateKeepsIds(root: Node, nextId: nat)
    requires UniqueIds(root) && FreshFrom(root, nextId)
    ensures var r := LocateOrCreate(root, nextId);
      && UniqueIds(r.root) && FreshFrom(r.root, r.nextId)
      && (FindFolder([root], DockFolderName).None? && r.folderId.Some? ==> Count([root], WithId(r.folderId.value)) == 0)
  {
    if FindFolder([root], DockFolderName).None? {
      CreateKeepsIds(root, nextId, CreationParent(root), DockFolderName, None);
    }
  }

  /** In a store with unique ids, `getDockFolderId` creates exactly one dock
      folder when there was none. */
  lemma CreatesExactlyOneFolder(root: Node, nextId: nat)
    requires UniqueIds(root)
    requires FindFolder([root], DockFolderName).None? && HasFolder([root], CreationParent(root))
    ensures Count([LocateOrCreate(root, nextId).root], NamedFolder(DockFolderName)) == 1
  {
    var pid := CreationParent(root);
    CreatedFolderCount(root, nextId);
    FoldersWithIdAreNodesWithId([root], pid);
    assert Count([root], WithId(pid)) <= 1;
    if Count([root], FolderWithId(pid)) == 0 {
      CountZeroNotFound([root], FolderWithId(pid));
    }
  }

  /** A rename keeps ids unique and the counter ahead of them. */
  lemma RenameKeepsIds(root: Node, nextId: nat, id: string, title: string)
    requires UniqueIds(root) && FreshFrom(root, nextId)
    ensures UniqueIds(RenameNode(root, id, title)) && FreshFrom(RenameNode(root, id, title), nextId)
    ensures RenameNode(root, id, title).children.Children? == root.children.Children?
  {
    RenameShape([root], id, title);
    var r := RenameNode(root, id, title);
    assert [r] == Rename([root], id, title);
    forall x
      ensures Count([r], WithId(x)) == Count([root], WithId(x))
    {
      RenameKeepsIdCount([root], id, title, x);
    }
  }

  /** A removal keeps ids unique and the counter ahead of them. */
  lemma RemoveBelowKeepsIds(root: Node, nextId: nat, id: string)
    requires root.children.Children?
    requires UniqueIds(root) && FreshFrom(root, nextId)
    ensures UniqueIds(RemoveBelow(root, id)) && FreshFrom(RemoveBelow(root, id), nextId)
  {
    var r := RemoveBelow(root, id);
    forall x
      ensures Count([r], WithId(x)) <= Count([root], WithId(x))
    {
      CountSingle(r, WithId(x));
      CountSingle(root, WithId(x));
      RemoveCountAtMost(Kids(root), id, x);
    }
  }

  /** A second `getDockFolderId` returns the same id and creates nothing. */
  lemma LocateOrCreateIdempotent(root: Node, nextId: nat)
    ensures var r := LocateOrCreate(root, nextId);
      r.folderId.Some? ==> LocateOrCreate(r.root, r.nextId) == r
  {
    LocatedFolderIsFound(root, nextId);
  }

  /** Adding the current tab under the dock folder keeps that folder the one
      the next search finds: a link, a folder of another name, and even a
      folder of the dock's own name, which comes after its parent. */
  lemma LocateAfterAddingLink(root: Node, nextId: nat, title: string, url: Option<string>)
    requires UniqueIds(root) && FreshFrom(root, nextId)
    requires LocateOrCreate(root, nextId).folderId.Some?
    ensures var loc := LocateOrCreate(root, nextId);
      var c := Create(loc.root, loc.nextId, loc.folderId.value, title, url);
      LocateOrCreate(c.root, c.nextId) == Located(loc.folderId, c.root, c.nextId)
  {
    var loc := LocateOrCreate(root, nextId);
    LocatedFolderIsFound(root, nextId);
    var c := Create(loc.root, loc.nextId, loc.folderId.value, title, url);
    if c.created.Some? {
      var node := c.created.value;
      if IsFolderNamed(node, DockFolderName) {
        LocateKeepsIds(root, nextId);
        FindFolderAfterAddUnderFound([loc.root], loc.folderId.value, node, DockFolderName);
      } else {
        FindFolderAfterAddOther([loc.root], loc.folderId.value, node, DockFolderName);
      }
    }
  }

  // ---------------------------------------------------------------------------
  // Snapshots and the broadcast

  /** What `getBookmarksForDock` leaves in the store and returns; `None` when
      locating the folder throws. */
  datatype Fetched = Fetched(located: Located, data: Option<seq<Entry>>)

  function Fetch(root: Node, nextId: nat, prefs: IconPrefs, bundledIcon: string, host: HostOf): Fetched {
    var loc := LocateOrCreate(root, nextId);
    Fetched(loc, if loc.folderId.Some? then Some(SnapshotOf([loc.root], loc.folderId.value, prefs, bundledIcon, host)) else None)
  }

  /** A `refresh_dock` message to one tab; `delivered` is false for a tab
      without the page script, whose send fails and is ignored. */
  datatype Delivery = Delivery(tab: int, data: seq<Entry>, delivered: bool)

  /** The messages a broadcast of `data` sends. */
  function Sends(tabs: seq<int>, data: Option<seq<Entry>>, listening: set<int>): seq<Delivery> {
    if data.None? then []
    else seq(|tabs|, i requires 0 <= i < |tabs| => Delivery(tabs[i], data.value, tabs[i] in listening))
  }

  /** The `forEach` of `broadcastRefresh`: one message per tab, in query
      order, all with the same data; a failed send does not stop the rest. */
  method SendToAll(tabs: seq<int>, data: seq<Entry>, listening: set<int>) returns (out: seq<Delivery>)
    ensures |out| == |tabs|
    ensures forall i :: 0 <= i < |tabs| ==> out[i].tab == tabs[i] && out[i].data == data
    ensures forall i :: 0 <= i < |tabs| ==> (out[i].delivered <==> tabs[i] in listening)
    ensures out == Sends(tabs, Some(data), listening)
  {
    out := [];
    for i := 0 to |tabs|
      invariant |out| == i
      invariant forall k :: 0 <= k < i ==> out[k] == Delivery(tabs[k], data, tabs[k] in listening)
    {
      var delivered := tabs[i] in listening;
      out := out + [Delivery(tabs[i], data, delivered)];
    }
  }

  /** Every tab of the query gets exactly as many messages as it occurs in the
      query: one, since a query lists each tab once. */
  lemma SendsOnePerTab(tabs: seq<int>, data: seq<Entry>, listening: set<int>)
    ensures var out := Sends(tabs, Some(data), listening);
      multiset(seq(|out|, i requires 0 <= i < |out| => out[i].tab)) == multiset(tabs)
  {
    var out := Sends(tabs, Some(data), listening);
    assert seq(|out|, i requires 0 <= i < |out| => out[i].tab) == tabs;
  }

  // ---------------------------------------------------------------------------
  // The background script's state

  /** The active tab of the current window. */
  datatype Tab = Tab(id: int, title: string, url: Option<string>)

  /** A browser action the background script starts and does not observe. */
  datatype Effect = OpenedOptionsPage | OpenedTab(url: Option<string>) | OpenedIncognitoWindow(url: Option<string>)

  class Worker {
    /** `bookmarks.getTree()[0]` */
    var root: Node
    /** The id counter of the bookmark store. */
    var nextId: nat
    /** The sync storage keys the snapshot reads. */
    var prefs: IconPrefs
    /** `tabs.query({})`, and which of those tabs run the page script. */
    var tabs: seq<int>
    var listening: set<int>
    var activeTab: Option<Tab>
    /** Every `refresh_dock` message sent so far. */
    var sent: seq<Delivery>
    var effects: seq<Effect>
    /** `runtime.getURL("icon.png")` */
    const bundledIcon: string
    const host: HostOf

    /** The store's root is a folder, its ids are unique and the counter is
        ahead of them. */
    ghost predicate Valid()
      reads this
    {
      root.children.Children? && UniqueIds(root) && FreshFrom(root, nextId)
    }

    constructor (root: Node, prefs: IconPrefs, tabs: seq<int>, listening: set<int>, activeTab: Option<Tab>,
                 bundledIcon: string, host: HostOf, nextId: nat)
      requires root.children.Children? && UniqueIds(root) && FreshFrom(root, nextId)
      ensures Valid()
      ensures this.root == root && this.prefs == prefs && this.tabs == tabs && this.listening == listening
      ensures this.activeTab == activeTab && this.bundledIcon == bundledIcon && this.host == host
      ensures this.nextId == nextId && sent == [] && effects == []
    {
      this.root := root;
      this.prefs := prefs;
      this.tabs := tabs;
      this.listening := listening;
      this.activeTab := activeTab;
      this.bundledIcon := bundledIcon;
      this.host := host;
      this.nextId := nextId;
      sent := [];
      effects := [];
    }

    /** `bookmarks.create({parentId, title, url})` */
    method CreateBookmark(parentId: string, title: string, url: Option<string>) returns (created: Option<Node>)
      requires Valid()
      modifies this`root, this`nextId
      ensures Valid()
      ensures Creation(created, root, nextId) == Create(old(root), old(nextId), parentId, title, url)
    {
      CreateKeepsIds(root, nextId, parentId, title, url);
      if HasFolder([root], parentId) {
        var node := NewNode(NewId(nextId), title, url);
        var tree := AddChild([root], parentId, node);
        AddChildSingle(root, parentId, node);
        assert tree == [tree[0]];
        root := tree[0];
        nextId := nextId + 1;
        created := Some(node);
      } else {
        created := None;
      }
    }

    /** `getDockFolderId()` */
    method GetDockFolderId() returns (folderId: Option<string>)
      requires Valid()
      modifies this`root, this`nextId
      ensures Valid()
      ensures Located(folderId, root, nextId) == LocateOrCreate(old(root), old(nextId))
    {
      var tree := [root];
      var dockFolder := FindFolder(tree, DockFolderName);
      if dockFolder.None? {
        var parentId := CreationParent(root);
        dockFolder := CreateBookmark(parentId, DockFolderName, None);
      }
      folderId := if dockFolder.Some? then Some(dockFolder.value.id) else None;
    }

    /** `getBookmarksForDock()` */
    method GetBookmarksForDock() returns (data: Option<seq<Entry>>)
      requires Valid()
      modifies this`root, this`nextId
      ensures Valid()
      ensures var f := Fetch(old(root), old(nextId), prefs, bundledIcon, host);
        root == f.located.root && nextId == f.located.nextId && data == f.data
    {
      var folderId := GetDockFolderId();
      if folderId.None? {
        return None;
      }
      var processed := AssembleSnapshot([root], folderId.value, prefs, bundledIcon, host);
      data := Some(processed);
    }

    /** `broadcastRefresh()`: a fresh snapshot to every tab. */
    method BroadcastRefresh()
      requires Valid()
      modifies this`root, this`nextId, this`sent
      ensures Valid()
      ensures var f := Fetch(old(root), old(nextId), prefs, bundledIcon, host);
        root == f.located.root && nextId == f.located.nextId && sent == old(sent) + Sends(tabs, f.data, listening)
    {
      var data := GetBookmarksForDock();
      if data.Some? {
        var out := SendToAll(tabs, data.value, listening);
        sent := sent + out;
      }
    }

    /** `add_current_tab`: the active tab becomes the last link of the dock
        folder, then every tab is refreshed. A failed create is ignored; when
        the folder cannot be located, nothing further happens. */
    method AddCurrentTab()
      requires Valid()
      modifies this`root, this`nextId, this`sent
      ensures Valid()
      ensures activeTab.None? ==> root == old(root) && nextId == old(nextId) && sent == old(sent)
      ensures activeTab.Some? && LocateOrCreate(old(root), old(nextId)).folderId.None? ==>
        root == old(root) && nextId == old(nextId) && sent == old(sent)
      ensures activeTab.Some? && LocateOrCreate(old(root), old(nextId)).folderId.Some? ==>
        var loc := LocateOrCreate(old(root), old(nextId));
        var c := Create(loc.root, loc.nextId, loc.folderId.value, activeTab.value.title, activeTab.value.url);
        var f := Fetch(c.root, c.nextId, prefs, bundledIcon, host);
        && root == f.located.root && nextId == f.located.nextId
        && sent == old(sent) + Sends(tabs, f.data, listening)
    {
      if activeTab.Some? {
        var tab := activeTab.value;
        ghost var loc := LocateOrCreate(root, nextId);
        var folderId := GetDockFolderId();
        assert folderId == loc.folderId && root == loc.root && nextId == loc.nextId;
        if folderId.Some? {
          ghost var c := Create(root, nextId, folderId.value, tab.title, tab.url);
          var _ := CreateBookmark(folderId.value, tab.title, tab.url);
          assert root == c.root && nextId == c.nextId;
          BroadcastRefresh();
        }
      }
    }

    /** `rename_bookmark`, then a refresh. */
    method RenameBookmark(id: string, title: string)
      requires Valid()
      modifies this`root, this`nextId, this`sent
      ensures Valid()
      ensures var f := Fetch(RenameNode(old(root), id, title), old(nextId), prefs, bundledIcon, host);
        root == f.located.root && nextId == f.located.nextId && sent == old(sent) + Sends(tabs, f.data, listening)
    {
      RenameKeepsIds(root, nextId, id, title);
      root := RenameNode(root, id, title);
      BroadcastRefresh();
    }

    /** `delete_bookmark`, then a refresh. The root itself is never removed. */
    method DeleteBookmark(id: string)
      requires Valid()
      modifies this`root, this`nextId, this`sent
      ensures Valid()
      ensures var f := Fetch(RemoveBelow(old(root), id), old(nextId), prefs, bundledIcon, host);
        root == f.located.root && nextId == f.located.nextId && sent == old(sent) + Sends(tabs, f.data, listening)
    {
      RemoveBelowKeepsIds(root, nextId, id);
      root := RemoveBelow(root, id);
      BroadcastRefresh();
    }

    /** `update_icon`: the icon map is read, changed in place and written
        back, then every tab is refreshed. */
    method UpdateIcon(id: string, url: Option<string>)
      requires Valid()
      modifies this`root, this`nextId, this`sent, this`prefs
      ensures Valid()
      ensures prefs == old(prefs).(customIcons := SetIcon(old(prefs).customIcons, id, url))
      ensures var f := Fetch(old(root), old(nextId), prefs, bundledIcon, host);
        root == f.located.root && nextId == f.located.nextId && sent == old(sent) + Sends(tabs, f.data, listening)
    {
      var icons := prefs.customIcons;
      if Present(url) {
        icons := icons[id := url.value];
      } else {
        icons := icons - {id};
      }
      prefs := prefs.(customIcons := icons);
      BroadcastRefresh();
    }

    /** The branches of the `onMessage` listener that change the store or the
        icon map and then refresh every tab. */
    method HandleStoreChange(req: Request)
      requires Valid()
      requires req.AddCurrentTab? || req.RenameBookmark? || req.DeleteBookmark? || req.UpdateIcon? || req.RequestRefresh?
      modifies this`root, this`nextId, this`sent, this`prefs
      ensures Valid()
      ensures req.UpdateIcon? ==> prefs == old(prefs).(customIcons := SetIcon(old(prefs).customIcons, req.id, req.url))
      ensures !req.UpdateIcon? ==> prefs == old(prefs)
      ensures req.AddCurrentTab? && (activeTab.None? || LocateOrCreate(old(root), old(nextId)).folderId.None?) ==>
        root == old(root) && nextId == old(nextId) && sent == old(sent)
      ensures req.AddCurrentTab? && activeTab.Some? && LocateOrCreate(old(root), old(nextId)).folderId.Some? ==>
        var loc := LocateOrCreate(old(root), old(nextId));
        var c := Create(loc.root, loc.nextId, loc.folderId.value, activeTab.value.title, activeTab.value.url);
        var f := Fetch(c.root, c.nextId, prefs, bundledIcon, host);
        root == f.located.root && nextId == f.located.nextId && sent == old(sent) + Sends(tabs, f.data, listening)
      ensures req.RenameBookmark? ==>
        var f := Fetch(RenameNode(old(root), req.id, req.title), old(nextId), prefs, bundledIcon, host);
        root == f.located.root && nextId == f.located.nextId && sent == old(sent) + Sends(tabs, f.data, listening)
      ensures req.DeleteBookmark? ==>
        var f := Fetch(RemoveBelow(old(root), req.id), old(nextId), prefs, bundledIcon, host);
        root == f.located.root && nextId == f.located.nextId && sent == old(sent) + Sends(tabs, f.data, listening)
      ensures req.UpdateIcon? || req.RequestRefresh? ==>
        var f := Fetch(old(root), old(nextId), prefs, bundledIcon, host);
        root == f.located.root && nextId == f.located.nextId && sent == old(sent) + Sends(tabs, f.data, listening)
    {
      match req
      case AddCurrentTab =>
        AddCurrentTab();
      case RenameBookmark(id, title) =>
        RenameBookmark(id, title);
      case DeleteBookmark(id) =>
        DeleteBookmark(id);
      case UpdateIcon(id, url) =>
        UpdateIcon(id, url);
      case RequestRefresh =>
        BroadcastRefresh();
    }

    /** The `onMessage` listener. Only `get_bookmarks_for_mouse` is answered. */
    method HandleMessage(req: Request) returns (reply: Option<seq<Entry>>)
      requires Valid()
      modifies this`root, this`nextId, this`sent, this`prefs, this`effects
      ensures Valid()
      ensures !req.GetBookmarksForMouse? ==> reply.None?
      ensures req.GetBookmarksForMouse? ==>
        var f := Fetch(old(root), old(nextId), old(prefs), bundledIcon, host);
        reply == f.data && root == f.located.root && nextId == f.located.nextId && sent == old(sent)
      ensures req.OpenSettings? ==> effects == old(effects) + [OpenedOptionsPage]
      ensures req.OpenNewWindow? ==> effects == old(effects) + [OpenedTab(req.url)]
      ensures req.OpenIncognito? ==> effects == old(effects) + [OpenedIncognitoWindow(req.url)]
      ensures !(req.OpenSettings? || req.OpenNewWindow? || req.OpenIncognito?) ==> effects == old(effects)
      ensures req.UpdateIcon? ==> prefs == old(prefs).(customIcons := SetIcon(old(prefs).customIcons, req.id, req.url))
      ensures !req.UpdateIcon? ==> prefs == old(prefs)
      ensures req.AddCurrentTab? && (activeTab.None? || LocateOrCreate(old(root), old(nextId)).folderId.None?) ==>
        root == old(root) && nextId == old(nextId) && sent == old(sent)
      ensures req.AddCurrentTab? && activeTab.Some? && LocateOrCreate(old(root), old(nextId)).folderId.Some? ==>
        var loc := LocateOrCreate(old(root), old(nextId));
        var c := Create(loc.root, loc.nextId, loc.folderId.value, activeTab.value.title, activeTab.value.url);
        var f := Fetch(c.root, c.nextId, prefs, bundledIcon, host);
        root == f.located.root && nextId == f.located.nextId && sent == old(sent) + Sends(tabs, f.data, listening)
      ensures req.RenameBookmark? ==>
        var f := Fetch(RenameNode(old(root), req.id, req.title), old(nextId), prefs, bundledIcon, host);
        root == f.located.root && nextId == f.located.nextId && sent == old(sent) + Sends(tabs, f.data, listening)
      ensures req.DeleteBookmark? ==>
        var f := Fetch(RemoveBelow(old(root), req.id), old(nextId), prefs, bundledIcon, host);
        root == f.located.root && nextId == f.located.nextId && sent == old(sent) + Sends(tabs, f.data, listening)
      ensures req.UpdateIcon? || req.RequestRefresh? ==>
        var f := Fetch(old(root), old(nextId), prefs, bundledIcon, host);
        root == f.located.root && nextId == f.located.nextId && sent == old(sent) + Sends(tabs, f.data, listening)
      ensures req.OpenSettings? || req.OpenNewWindow? || req.OpenIncognito? || req.Unknown? ==>
        root == old(root) && nextId == old(nextId) && sent == old(sent)
    {
      reply := None;
      match req {
        case GetBookmarksForMouse =>
          reply := GetBookmarksForDock();
        case OpenSettings =>
          effects := effects + [OpenedOptionsPage];
        case OpenNewWindow(url) =>
          effects := effects + [OpenedTab(url)];
        case OpenIncognito(url) =>
          effects := effects + [OpenedIncognitoWindow(url)];
        case Unknown(_) =>
        case _ =>
          HandleStoreChange(req);
      }
    }
  }

  /** `bookmarks.remove(id)` on a store whose root cannot be removed. */
  function RemoveBelow(root: Node, id: string): (r: Node)
    requires root.children.Children?
    ensures r.children.Children? && r.id == root.id
  {
    root.(children := Children(Remove(root.children.nodes, id)))
  }
}
