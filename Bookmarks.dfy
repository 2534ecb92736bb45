/** The bookmark tree as the browser's bookmark store returns it, the
    depth-first folder lookup of the background script, and the store
    operations (`create`, `update`, `remove`) the background script calls. */
module Bookmarks {
  import opened Js

  /** A node of `bookmarks.getTree()`. A link has a `url`; a folder has a
      `children` list, which may be empty. */
  datatype Node = Node(id: string, title: string, url: Option<string>, children: ChildList)

  /** The `children` property: missing on links, an array on folders. */
  datatype ChildList = NoChildren | Children(nodes: seq<Node>)

  /** Title of the folder whose children populate the dock. */
  const DockFolderName := "Vertical-bookmark-list"

  /** The child list of a node, empty when the property is missing. */
  function Kids(n: Node): seq<Node> {
    if n.children.Children? then n.children.nodes else []
  }

  /** The test `findFolder` applies to each node: the title equals the name
      and the node has no url. */
  predicate IsFolderNamed(n: Node, name: string) {
    n.title == name && !Present(n.url)
  }

  function NamedFolder(name: string): Node -> bool {
    (n: Node) => IsFolderNamed(n, name)
  }

  function WithId(id: string): Node -> bool {
    (n: Node) => n.id == id
  }

  function FolderWithId(id: string): Node -> bool {
    (n: Node) => n.id == id && n.children.Children?
  }

  // ---------------------------------------------------------------------------
  // Depth-first search

  /** Every node of a forest in depth-first pre-order: a node, then its
      descendants, then its later siblings. */
  function Preorder(nodes: seq<Node>): seq<Node>
    decreases nodes
  {
    if |nodes| == 0 then []
    else
      [nodes[0]]
      + (if nodes[0].children.Children? then Preorder(nodes[0].children.nodes) else [])
      + Preorder(nodes[1..])
  }

  /** The position of the first element of `xs` that passes `p`. */
  function FirstIndex(xs: seq<Node>, p: Node -> bool): (r: Option<nat>)
    ensures r.Some? ==> r.value < |xs| && p(xs[r.value])
    ensures r.Some? ==> forall j :: 0 <= j < r.value ==> !p(xs[j])
    ensures r.None? ==> forall j :: 0 <= j < |xs| ==> !p(xs[j])
  {
    if |xs| == 0 then None
    else if p(xs[0]) then Some(0)
    else
      match FirstIndex(xs[1..], p)
      case None => None
      case Some(i) => Some(i + 1)
  }

  /** The first element of `xs` that passes `p`. */
  function FirstOf(xs: seq<Node>, p: Node -> bool): Option<Node> {
    match FirstIndex(xs, p)
    case None => None
    case Some(i) => Some(xs[i])
  }

  /** The loop of `findFolder`, for any test: each node is tested before its
      children, and its children are searched before its later siblings. */
  function FindFirst(nodes: seq<Node>, p: Node -> bool): Option<Node>
    decreases nodes
  {
    if |nodes| == 0 then None
    else if p(nodes[0]) then Some(nodes[0])
    else
      var inKids := if nodes[0].children.Children? then FindFirst(nodes[0].children.nodes, p) else None;
      if inKids.Some? then inKids else FindFirst(nodes[1..], p)
  }

  lemma {:induction false} FirstOfConcat(a: seq<Node>, b: seq<Node>, p: Node -> bool)
    ensures FirstOf(a + b, p) == if FirstOf(a, p).Some? then FirstOf(a, p) else FirstOf(b, p)
  {
    if |a| > 0 {
      assert (a + b)[1..] == a[1..] + b;
      FirstOfConcat(a[1..], b, p);
    } else {
      assert a + b == b;
    }
  }

  /** The search finds exactly the first node, in depth-first pre-order, that
      passes the test. */
  lemma {:induction false} FindFirstIsFirstInPreorder(nodes: seq<Node>, p: Node -> bool)
    ensures FindFirst(nodes, p) == FirstOf(Preorder(nodes), p)
    decreases nodes
  {
    if |nodes| > 0 {
      var n := nodes[0];
      var below := if n.children.Children? then Preorder(n.children.nodes) else [];
      assert Preorder(nodes) == [n] + (below + Preorder(nodes[1..]));
      FirstOfConcat([n], below + Preorder(nodes[1..]), p);
      FirstOfConcat(below, Preorder(nodes[1..]), p);
      if n.children.Children? {
        FindFirstIsFirstInPreorder(n.children.nodes, p);
      }
      FindFirstIsFirstInPreorder(nodes[1..], p);
    }
  }

  /** `findFolder(nodes, name)`: the first node in depth-first pre-order whose
      title is `name` and that has no url; `None` (null) when there is none. */
  function FindFolder(nodes: seq<Node>, name: string): (r: Option<Node>)
    ensures r.Some? ==> IsFolderNamed(r.value, name)
    ensures r.Some? ==>
      exists i :: 0 <= i < |Preorder(nodes)| && Preorder(nodes)[i] == r.value
        && forall j :: 0 <= j < i ==> !IsFolderNamed(Preorder(nodes)[j], name)
    ensures r.None? <==> forall x :: x in Preorder(nodes) ==> !IsFolderNamed(x, name)
  {
    FindFirstIsFirstInPreorder(nodes, NamedFolder(name));
    FindFirst(nodes, NamedFolder(name))
  }

  /** The node `bookmarks.getChildren(id)` looks up: the first with that id. */
  function Lookup(nodes: seq<Node>, id: string): Option<Node> {
    FindFirst(nodes, WithId(id))
  }

  /** `bookmarks.getChildren(id)`: the children of the node with that id. */
  function ChildrenOf(tree: seq<Node>, id: string): seq<Node> {
    match Lookup(tree, id)
    case Some(n) => Kids(n)
    case None => []
  }

  /** Whether some folder of the tree has the id. */
  predicate HasFolder(nodes: seq<Node>, id: string) {
    FindFirst(nodes, FolderWithId(id)).Some?
  }

  // ---------------------------------------------------------------------------
  // Store operations

  /** The node `bookmarks.create` makes: a link when given a url, a folder otherwise. */
  function NewNode(id: string, title: string, url: Option<string>): Node {
    Node(id, title, url, if Present(url) then NoChildren else Children([]))
  }

  /** `bookmarks.create`: `c` becomes the last child of the folder with id
      `parentId` (of every such folder; ids are unique in a real store). */
  function AddChild(nodes: seq<Node>, parentId: string, c: Node): seq<Node>
    decreases nodes
  {
    if |nodes| == 0 then []
    else
      var n := nodes[0];
      var n' := match n.children
        case NoChildren => n
        case Children(ks) =>
          n.(children := Children(AddChild(ks, parentId, c) + if n.id == parentId then [c] else []));
      [n'] + AddChild(nodes[1..], parentId, c)
  }

  /** `bookmarks.update(id, {title})`: every node with the id gets the title. */
  function Rename(nodes: seq<Node>, id: string, title: string): seq<Node>
    decreases nodes
  {
    if |nodes| == 0 then []
    else
      var n := nodes[0];
      var n1 := if n.id == id then n.(title := title) else n;
      var n' := match n1.children
        case NoChildren => n1
        case Children(ks) => n1.(children := Children(Rename(ks, id, title)));
      [n'] + Rename(nodes[1..], id, title)
  }

  /** Whether `bookmarks.remove` accepts the node: a link or an empty folder. */
  predicate Removable(n: Node) {
    Kids(n) == []
  }

  /** `bookmarks.remove(id)`: the node with the id disappears if it is a link
      or an empty folder; a non-empty folder is refused and stays. */
  function Remove(nodes: seq<Node>, id: string): seq<Node>
    decreases nodes
  {
    if |nodes| == 0 then []
    else
      var n := nodes[0];
      var rest := Remove(nodes[1..], id);
      if n.id == id && Removable(n) then rest
      else
        var n' := match n.children
          case NoChildren => n
          case Children(ks) => n.(children := Children(Remove(ks, id)));
        [n'] + rest
  }

  // ---------------------------------------------------------------------------
  // Facts about the store operations

  lemma {:induction false} FindFirstConcat(a: seq<Node>, b: seq<Node>, p: Node -> bool)
    ensures FindFirst(a + b, p) == if FindFirst(a, p).Some? then FindFirst(a, p) else FindFirst(b, p)
  {
    if |a| > 0 {
      assert (a + b)[0] == a[0];
      assert (a + b)[1..] == a[1..] + b;
      FindFirstConcat(a[1..], b, p);
    } else {
      assert a + b == b;
    }
  }

  /** Creating under an id that names no folder changes nothing. */
  lemma {:induction false} AddChildWithoutParent(nodes: seq<Node>, parentId: string, c: Node)
    requires !HasFolder(nodes, parentId)
    ensures AddChild(nodes, parentId, c) == nodes
    decreases nodes
  {
    if |nodes| > 0 {
      var n := nodes[0];
      var p := FolderWithId(parentId);
      assert !p(n);
      if n.children.Children? {
        var ks := n.children.nodes;
        assert FindFirst(ks, p).None?;
        AddChildWithoutParent(ks, parentId, c);
        assert n.id != parentId;
        assert AddChild(ks, parentId, c) + [] == ks;
        assert n.(children := Children(ks)) == n;
      }
      assert FindFirst(nodes[1..], p).None?;
      AddChildWithoutParent(nodes[1..], parentId, c);
      assert AddChild(nodes, parentId, c) == [n] + nodes[1..];
      assert nodes == [n] + nodes[1..];
    }
  }

  /** When no folder has the name yet, a folder of that name created under an
      existing folder is exactly what the next search finds. */
  lemma {:induction false} FindFolderAfterAdd(nodes: seq<Node>, parentId: string, c: Node, name: string)
    requires FindFirst(nodes, NamedFolder(name)).None?
    requires IsFolderNamed(c, name)
    requires HasFolder(nodes, parentId)
    ensures FindFirst(AddChild(nodes, parentId, c), NamedFolder(name)) == Some(c)
    decreases nodes
  {
    var p := NamedFolder(name);
    var n := nodes[0];
    var after := AddChild(nodes, parentId, c);
    var rest := nodes[1..];
    assert !p(n);
    match n.children
    case NoChildren =>
      assert after == [n] + AddChild(rest, parentId, c);
      assert after[1..] == AddChild(rest, parentId, c);
      FindFolderAfterAdd(rest, parentId, c, name);
    case Children(ks) =>
      var ks' := AddChild(ks, parentId, c) + if n.id == parentId then [c] else [];
      var n' := n.(children := Children(ks'));
      assert after == [n'] + AddChild(rest, parentId, c);
      assert after[0] == n' && after[1..] == AddChild(rest, parentId, c);
      assert !p(n');
      assert FindFirst(ks, p).None?;
      FindFirstConcat(AddChild(ks, parentId, c), if n.id == parentId then [c] else [], p);
      if HasFolder(ks, parentId) {
        FindFolderAfterAdd(ks, parentId, c, name);
      } else {
        AddChildWithoutParent(ks, parentId, c);
        if n.id == parentId {
          assert FindFirst([c], p) == Some(c);
        } else {
          FindFolderAfterAdd(rest, parentId, c, name);
        }
      }
  }

  /** The number of nodes of a forest that pass a test. */
  function Count(nodes: seq<Node>, p: Node -> bool): nat
    decreases nodes
  {
    if |nodes| == 0 then 0
    else
      (if p(nodes[0]) then 1 else 0)
      + (if nodes[0].children.Children? then Count(nodes[0].children.nodes, p) else 0)
      + Count(nodes[1..], p)
  }

  lemma {:induction false} CountConcat(a: seq<Node>, b: seq<Node>, p: Node -> bool)
    ensures Count(a + b, p) == Count(a, p) + Count(b, p)
  {
    if |a| > 0 {
      assert (a + b)[0] == a[0];
      assert (a + b)[1..] == a[1..] + b;
      CountConcat(a[1..], b, p);
    } else {
      assert a + b == b;
    }
  }

  /** The count over a single tree: the root, then its descendants. */
  lemma CountSingle(n: Node, p: Node -> bool)
    ensures Count([n], p) == (if p(n) then 1 else 0) + Count(Kids(n), p)
  {
    assert [n][1..] == [];
  }

  /** Creating a childless node adds one node with its id per folder
      carrying the parent id, and changes the count of no other id. */
  lemma {:induction false} CountIdAfterAdd(nodes: seq<Node>, parentId: string, c: Node, x: string)
    requires Kids(c) == []
    ensures Count(AddChild(nodes, parentId, c), WithId(x))
         == Count(nodes, WithId(x)) + (if c.id == x then Count(nodes, FolderWithId(parentId)) else 0)
    decreases nodes
  {
    if |nodes| > 0 {
      var p := WithId(x);
      var n := nodes[0];
      var rest := nodes[1..];
      var after := AddChild(nodes, parentId, c);
      CountIdAfterAdd(rest, parentId, c, x);
      match n.children
      case NoChildren =>
        assert after[0] == n && after[1..] == AddChild(rest, parentId, c);
      case Children(ks) =>
        var extra := if n.id == parentId then [c] else [];
        var n' := n.(children := Children(AddChild(ks, parentId, c) + extra));
        assert after[0] == n' && after[1..] == AddChild(rest, parentId, c);
        CountIdAfterAdd(ks, parentId, c, x);
        CountConcat(AddChild(ks, parentId, c), extra, p);
        CountSingle(c, p);
    }
  }

  /** Creating an empty folder named `name` adds one folder of that name per
      folder carrying the parent id: exactly one in a store with unique ids. */
  lemma {:induction false} CountAfterAdd(nodes: seq<Node>, parentId: string, c: Node, name: string)
    requires IsFolderNamed(c, name) && c.children == Children([])
    ensures Count(AddChild(nodes, parentId, c), NamedFolder(name))
         == Count(nodes, NamedFolder(name)) + Count(nodes, FolderWithId(parentId))
    decreases nodes
  {
    if |nodes| > 0 {
      var p := NamedFolder(name);
      var n := nodes[0];
      var rest := nodes[1..];
      var after := AddChild(nodes, parentId, c);
      CountAfterAdd(rest, parentId, c, name);
      match n.children
      case NoChildren =>
        assert after[0] == n && after[1..] == AddChild(rest, parentId, c);
      case Children(ks) =>
        var extra := if n.id == parentId then [c] else [];
        var n' := n.(children := Children(AddChild(ks, parentId, c) + extra));
        assert after[0] == n' && after[1..] == AddChild(rest, parentId, c);
        CountAfterAdd(ks, parentId, c, name);
        CountConcat(AddChild(ks, parentId, c), extra, p);
        assert Count([c], p) == 1;
    }
  }

  /** A folder with an id is in particular a node with that id. */
  lemma {:induction false} FoldersWithIdAreNodesWithId(nodes: seq<Node>, id: string)
    ensures Count(nodes, FolderWithId(id)) <= Count(nodes, WithId(id))
    decreases nodes
  {
    if |nodes| > 0 {
      if nodes[0].children.Children? {
        FoldersWithIdAreNodesWithId(nodes[0].children.nodes, id);
      }
      FoldersWithIdAreNodesWithId(nodes[1..], id);
    }
  }

  /** The node a search finds is counted among the nodes with its id. */
  lemma {:induction false} FoundIsCounted(nodes: seq<Node>, p: Node -> bool)
    requires FindFirst(nodes, p).Some?
    ensures Count(nodes, WithId(FindFirst(nodes, p).value.id)) >= 1
    decreases nodes
  {
    var n := nodes[0];
    var f := FindFirst(nodes, p).value;
    var q := WithId(f.id);
    assert Count(nodes, q) == (if q(n) then 1 else 0) + Count(Kids(n), q) + Count(nodes[1..], q);
    if !p(n) {
      if n.children.Children? && FindFirst(n.children.nodes, p).Some? {
        FoundIsCounted(n.children.nodes, p);
      } else {
        FoundIsCounted(nodes[1..], p);
      }
    }
  }

  /** Creating a node under the folder the search finds, in a store where its
      id is unique, keeps the search on that folder, even when the new node is
      itself a folder of the searched name: a folder precedes its children. */
  lemma {:induction false} FindFolderAfterAddUnderFound(nodes: seq<Node>, parentId: string, c: Node, name: string)
    requires FindFirst(nodes, NamedFolder(name)).Some?
    requires FindFirst(nodes, NamedFolder(name)).value.id == parentId
    requires Count(nodes, WithId(parentId)) <= 1
    ensures FindFirst(AddChild(nodes, parentId, c), NamedFolder(name)).Some?
    ensures FindFirst(AddChild(nodes, parentId, c), NamedFolder(name)).value.id == parentId
    decreases nodes
  {
    var p := NamedFolder(name);
    var q := WithId(parentId);
    var n := nodes[0];
    var rest := nodes[1..];
    var after := AddChild(nodes, parentId, c);
    assert Count(nodes, q) == (if q(n) then 1 else 0) + Count(Kids(n), q) + Count(rest, q);
    var n' := match n.children
      case NoChildren => n
      case Children(ks) => n.(children := Children(AddChild(ks, parentId, c) + if n.id == parentId then [c] else []));
    assert after[0] == n' && after[1..] == AddChild(rest, parentId, c);
    assert p(n') == p(n);
    if !p(n) {
      if n.children.Children? && FindFirst(n.children.nodes, p).Some? {
        var ks := n.children.nodes;
        FoundIsCounted(ks, p);
        assert n.id != parentId;
        FindFolderAfterAddUnderFound(ks, parentId, c, name);
        assert AddChild(ks, parentId, c) + [] == AddChild(ks, parentId, c);
      } else {
        FoundIsCounted(rest, p);
        assert n.id != parentId;
        if n.children.Children? {
          var ks := n.children.nodes;
          FoldersWithIdAreNodesWithId(ks, parentId);
          CountZeroNotFound(ks, FolderWithId(parentId));
          AddChildWithoutParent(ks, parentId, c);
          assert AddChild(ks, parentId, c) + [] == ks;
          assert n' == n;
        }
        FindFolderAfterAddUnderFound(rest, parentId, c, name);
      }
    }
  }

  // ---------------------------------------------------------------------------
  // Renaming and removal

  /** The image of one node under a rename. */
  function RenameNode(n: Node, id: string, title: string): Node {
    assert Rename([n], id, title)[1..] == Rename([], id, title);
    Rename([n], id, title)[0]
  }

  /** Renaming keeps the shape of the forest: the same nodes in the same
      order with the same ids, urls and kinds; only the nodes with the id get
      the new title, and child lists are renamed the same way. */
  lemma {:induction false} RenameShape(nodes: seq<Node>, id: string, title: string)
    ensures |Rename(nodes, id, title)| == |nodes|
    ensures forall i :: 0 <= i < |nodes| ==>
      var r := Rename(nodes, id, title)[i];
      && r == RenameNode(nodes[i], id, title)
      && r.id == nodes[i].id && r.url == nodes[i].url
      && r.children.Children? == nodes[i].children.Children?
      && r.title == (if nodes[i].id == id then title else nodes[i].title)
      && Kids(r) == Rename(Kids(nodes[i]), id, title)
    decreases nodes
  {
    if |nodes| > 0 {
      var rest := nodes[1..];
      RenameShape(rest, id, title);
      var all := Rename(nodes, id, title);
      assert all == [RenameNode(nodes[0], id, title)] + Rename(rest, id, title);
      forall i | 1 <= i < |nodes|
        ensures all[i] == RenameNode(nodes[i], id, title)
      {
        assert all[i] == Rename(rest, id, title)[i - 1];
        assert nodes[i] == rest[i - 1];
      }
    }
  }

  /** The store lookup commutes with renaming. */
  lemma {:induction false} LookupAfterRename(nodes: seq<Node>, id: string, title: string, x: string)
    ensures Lookup(Rename(nodes, id, title), x)
         == match Lookup(nodes, x) case None => None case Some(n) => Some(RenameNode(n, id, title))
    decreases nodes
  {
    if |nodes| > 0 {
      var n := nodes[0];
      var rest := nodes[1..];
      RenameShape(nodes, id, title);
      RenameShape([n], id, title);
      var after := Rename(nodes, id, title);
      var n' := RenameNode(n, id, title);
      assert after == [n'] + Rename(rest, id, title);
      assert after[1..] == Rename(rest, id, title);
      LookupAfterRename(rest, id, title, x);
      if n.children.Children? {
        LookupAfterRename(n.children.nodes, id, title, x);
        assert n'.children.nodes == Rename(n.children.nodes, id, title);
      }
    }
  }

  /** After `bookmarks.update(id, {title})`, `getChildren(x)` lists the same
      children as before, renamed. */
  lemma ChildrenAfterRename(tree: seq<Node>, id: string, title: string, x: string)
    ensures ChildrenOf(Rename(tree, id, title), x) == Rename(ChildrenOf(tree, x), id, title)
  {
    LookupAfterRename(tree, id, title, x);
    match Lookup(tree, x)
    case None =>
    case Some(n) => RenameShape([n], id, title);
  }

  lemma {:induction false} CountZeroNotFound(nodes: seq<Node>, p: Node -> bool)
    requires Count(nodes, p) == 0
    ensures FindFirst(nodes, p).None?
    decreases nodes
  {
    if |nodes| > 0 {
      if nodes[0].children.Children? {
        CountZeroNotFound(nodes[0].children.nodes, p);
      }
      CountZeroNotFound(nodes[1..], p);
    }
  }

  /** `bookmarks.remove` of an id no node carries changes nothing. */
  lemma {:induction false} RemoveWithoutId(nodes: seq<Node>, id: string)
    requires Count(nodes, WithId(id)) == 0
    ensures Remove(nodes, id) == nodes
    decreases nodes
  {
    if |nodes| > 0 {
      var n := nodes[0];
      var p := WithId(id);
      assert Count(nodes, p) == (if p(n) then 1 else 0) + Count(Kids(n), p) + Count(nodes[1..], p);
      assert n.id != id;
      RemoveWithoutId(nodes[1..], id);
      var n' := n;
      match n.children {
        case NoChildren =>
        case Children(ks) =>
          RemoveWithoutId(ks, id);
          n' := n.(children := Children(Remove(ks, id)));
          assert n' == n;
      }
      assert Remove(nodes, id) == [n'] + Remove(nodes[1..], id);
      assert nodes == [n] + nodes[1..];
    }
  }

  /** In a store with unique ids, `bookmarks.remove(id)` deletes the bookmark
      or empty folder with that id, and leaves the store untouched when there
      is no such node or it is a folder that still has children. */
  lemma {:induction false} RemoveUnique(nodes: seq<Node>, id: string)
    requires Count(nodes, WithId(id)) <= 1
    ensures Lookup(nodes, id).Some? && Removable(Lookup(nodes, id).value) ==> Count(Remove(nodes, id), WithId(id)) == 0
    ensures !(Lookup(nodes, id).Some? && Removable(Lookup(nodes, id).value)) ==> Remove(nodes, id) == nodes
    decreases nodes
  {
    if |nodes| > 0 {
      var p := WithId(id);
      var n := nodes[0];
      var rest := nodes[1..];
      var ks := Kids(n);
      assert Count(nodes, p) == (if n.id == id then 1 else 0) + Count(ks, p) + Count(rest, p);
      assert nodes == [n] + rest;
      if n.id == id {
        RemoveWithoutId(rest, id);
        RemoveWithoutId(ks, id);
        if !Removable(n) {
          assert n.children.Children?;
          assert n.(children := Children(Remove(ks, id))) == n;
        }
      } else {
        assert FindFirst(nodes, p) == (if FindFirst(ks, p).Some? then FindFirst(ks, p) else FindFirst(rest, p));
        if Count(ks, p) == 0 {
          CountZeroNotFound(ks, p);
          RemoveWithoutId(ks, id);
          RemoveUnique(rest, id);
          var n' := if n.children.NoChildren? then n else n.(children := Children(Remove(ks, id)));
          assert n' == n;
          assert Remove(nodes, id) == [n] + Remove(rest, id);
          if Lookup(nodes, id).Some? && Removable(Lookup(nodes, id).value) {
            assert Count(Remove(nodes, id), p) == Count(ks, p) + Count(Remove(rest, id), p);
          }
        } else {
          assert n.children.Children?;
          CountZeroNotFound(rest, p);
          RemoveWithoutId(rest, id);
          RemoveUnique(ks, id);
          var n' := n.(children := Children(Remove(ks, id)));
          assert Remove(nodes, id) == [n'] + rest;
          assert Lookup(nodes, id) == Lookup(ks, id);
          if Lookup(nodes, id).Some? && Removable(Lookup(nodes, id).value) {
            assert Count(Remove(nodes, id), p) == Count(Remove(ks, id), p) + Count(rest, p);
          } else {
            assert n' == n;
          }
        }
      }
    }
  }

  /** Removing a node never removes a node with another id. */
  lemma {:induction false} RemoveKeepsOthers(nodes: seq<Node>, id: string, other: string)
    requires other != id
    ensures Count(Remove(nodes, id), WithId(other)) == Count(nodes, WithId(other))
    decreases nodes
  {
    if |nodes| > 0 {
      var p := WithId(other);
      var n := nodes[0];
      var rest := nodes[1..];
      RemoveKeepsOthers(rest, id, other);
      if n.children.Children? {
        RemoveKeepsOthers(n.children.nodes, id, other);
      }
      if n.id == id && Removable(n) {
        assert Count(Kids(n), p) == 0;
      } else {
        var n' := if n.children.NoChildren? then n else n.(children := Children(Remove(n.children.nodes, id)));
        assert Remove(nodes, id) == [n'] + Remove(rest, id);
        assert Remove(nodes, id)[1..] == Remove(rest, id);
      }
    }
  }

  lemma {:induction false} NotFoundCountZero(nodes: seq<Node>, p: Node -> bool)
    requires FindFirst(nodes, p).None?
    ensures Count(nodes, p) == 0
    decreases nodes
  {
    if |nodes| > 0 {
      if nodes[0].children.Children? {
        NotFoundCountZero(nodes[0].children.nodes, p);
      }
      NotFoundCountZero(nodes[1..], p);
    }
  }

  /** Creating a childless node that is not a folder of the searched name
      does not change which folder the search finds (it finds the same node,
      possibly with one more child). */
  lemma {:induction false} FindFolderAfterAddOther(nodes: seq<Node>, parentId: string, c: Node, name: string)
    requires !IsFolderNamed(c, name) && Kids(c) == []
    ensures var a := FindFirst(AddChild(nodes, parentId, c), NamedFolder(name));
      var b := FindFirst(nodes, NamedFolder(name));
      a.Some? == b.Some? && (a.Some? ==> a.value.id == b.value.id)
    decreases nodes
  {
    if |nodes| > 0 {
      var p := NamedFolder(name);
      var n := nodes[0];
      var rest := nodes[1..];
      var after := AddChild(nodes, parentId, c);
      FindFolderAfterAddOther(rest, parentId, c, name);
      match n.children
      case NoChildren =>
        assert after[0] == n && after[1..] == AddChild(rest, parentId, c);
      case Children(ks) =>
        var extra := if n.id == parentId then [c] else [];
        var n' := n.(children := Children(AddChild(ks, parentId, c) + extra));
        assert after[0] == n' && after[1..] == AddChild(rest, parentId, c);
        FindFolderAfterAddOther(ks, parentId, c, name);
        FindFirstConcat(AddChild(ks, parentId, c), extra, p);
        if extra != [] {
          assert FindFirst(extra, p).None?;
        }
    }
  }

  /** Renaming changes no id, so every id is carried by as many nodes as before. */
  lemma {:induction false} RenameKeepsIdCount(nodes: seq<Node>, id: string, title: string, x: string)
    ensures Count(Rename(nodes, id, title), WithId(x)) == Count(nodes, WithId(x))
    decreases nodes
  {
    if |nodes| > 0 {
      var n := nodes[0];
      var rest := nodes[1..];
      var n1 := if n.id == id then n.(title := title) else n;
      var n' := match n1.children
        case NoChildren => n1
        case Children(ks) => n1.(children := Children(Rename(ks, id, title)));
      var after := Rename(nodes, id, title);
      assert after[0] == n' && after[1..] == Rename(rest, id, title);
      RenameKeepsIdCount(rest, id, title, x);
      if n.children.Children? {
        RenameKeepsIdCount(n.children.nodes, id, title, x);
      }
    }
  }

  /** Removal only takes nodes away: no id is carried by more nodes than before. */
  lemma {:induction false} RemoveCountAtMost(nodes: seq<Node>, id: string, x: string)
    ensures Count(Remove(nodes, id), WithId(x)) <= Count(nodes, WithId(x))
    decreases nodes
  {
    if |nodes| > 0 {
      var p := WithId(x);
      var n := nodes[0];
      var rest := nodes[1..];
      RemoveCountAtMost(rest, id, x);
      if n.children.Children? {
        RemoveCountAtMost(n.children.nodes, id, x);
      }
      if !(n.id == id && Removable(n)) {
        var n' := match n.children
          case NoChildren => n
          case Children(ks) => n.(children := Children(Remove(ks, id)));
        assert Remove(nodes, id)[0] == n' && Remove(nodes, id)[1..] == Remove(rest, id);
      }
    }
  }

  /** Creating a node under a single tree leaves a single tree. */
  lemma AddChildSingle(n: Node, parentId: string, c: Node)
    ensures |AddChild([n], parentId, c)| == 1
  {
    assert [n][1..] == [];
  }
}
