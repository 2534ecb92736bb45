/** The page script's state and its event handlers: whether the dock is
    shown, its rendered elements and their sizes, the open folder stack and
    context menu, the pending hide timer, and what the page sends to the
    background script and writes to storage. */
module Dock {
  import opened Js
  import opened Snapshot
  import opened Messages
  import opened DockRules

  /** One element of the dock container, drawn for a snapshot entry. */
  datatype Element = Element(kind: Kind, entry: Entry)

  /** A row of a folder stack. */
  datatype StackRow = StackRow(href: string, title: string, icon: string)

  /** An open `.dock-stack`: the folder it shows (`data-parent`), its rows
      (none for an empty folder) and its top-left corner. */
  datatype Stack = Stack(parent: string, rows: seq<StackRow>, top: real, left: real)

  /** An open `.dock-context-menu`: the entry it was opened on, its commands
      and its top-left corner. */
  datatype Menu = Menu(entry: Entry, commands: seq<Command>, x: real, y: real)

  /** Where a click lands, by its closest dock ancestor. */
  datatype ClickTarget = InStack | InItem | InHandler | Elsewhere

  /** The rows of a folder's stack: one per child, in order. */
  function StackRows(e: Entry): (rows: seq<StackRow>)
    ensures e.children.None? ==> rows == []
    ensures e.children.Some? ==> |rows| == |e.children.value|
    ensures e.children.Some? ==> forall i :: 0 <= i < |rows| ==>
      && rows[i].title == e.children.value[i].title && rows[i].href == StackHref(e.children.value[i])
      && rows[i].icon == e.children.value[i].iconUrl
  {
    if e.children.None? then []
    else
      var cs := e.children.value;
      seq(|cs|, i requires 0 <= i < |cs| => StackRow(StackHref(cs[i]), cs[i].title, cs[i].iconUrl))
  }

  /** The inline sizes after `resetIcons`: every dock item gets the dock
      size; spacers and headers keep theirs. */
  function ResetSizes(elements: seq<Element>, sizes: seq<Option<real>>, dockSize: int): (r: seq<Option<real>>)
    requires |sizes| == |elements|
    ensures |r| == |elements|
    ensures forall i :: 0 <= i < |r| && IsItem(elements[i].kind) ==> r[i] == Some(dockSize as real)
    ensures forall i :: 0 <= i < |r| && !IsItem(elements[i].kind) ==> r[i] == sizes[i]
  {
    seq(|elements|, i requires 0 <= i < |elements| =>
      if IsItem(elements[i].kind) then Some(dockSize as real) else sizes[i])
  }

  /** Whether the container holds any `.dock-item`. */
  predicate HasItems(elements: seq<Element>) {
    exists i :: 0 <= i < |elements| && IsItem(elements[i].kind)
  }

  /** The request a chosen command leads to, if any. */
  function Sent(r: Option<Request>): seq<Request> {
    if r.Some? then [r.value] else []
  }

  class Page {
    var settings: Settings
    /** `isDockVisible`, mirrored by the `dock-visible` class. */
    var visible: bool
    /** The `dock-idle` class. */
    var idle: bool
    /** Whether a hide timer is scheduled. */
    var hideTimerPending: bool
    var elements: seq<Element>
    /** The inline width and height of each element; `None` until set. */
    var sizes: seq<Option<real>>
    var stacks: seq<Stack>
    var menus: seq<Menu>
    /** Messages sent to the background script, in order. */
    var sent: seq<Request>
    /** `storage.sync.set` calls, in order. */
    var writes: seq<(string, Value)>
    /** The handler's background image, once the settings were applied. */
    var handlerIcon: Option<string>
    /** The `--dock-offset` property, the inline `top`/`left` of the dock
        and the handler's counter-shift set by the clamp. */
    var dockOffset: Value
    var dockTop: Option<real>
    var dockLeft: Option<real>
    var handlerShift: real
    /** `runtime.getURL("icon.png")` */
    const bundledIcon: string

    /** At most one stack and one context menu are open, and each element
        has its size slot. */
    ghost predicate Valid()
      reads this
    {
      |sizes| == |elements| && |stacks| <= 1 && |menus| <= 1
    }

    /** The page before `initDock`'s `refreshSettings` has completed. */
    constructor (bundledIcon: string)
      ensures Valid()
      ensures settings == Defaults && !visible && idle && !hideTimerPending
      ensures elements == [] && stacks == [] && menus == [] && sent == [] && writes == []
      ensures handlerIcon.None? && dockTop.None? && dockLeft.None? && this.bundledIcon == bundledIcon
    {
      settings := Defaults;
      visible := false;
      idle := true;
      hideTimerPending := false;
      elements := [];
      sizes := [];
      stacks := [];
      menus := [];
      sent := [];
      writes := [];
      handlerIcon := None;
      dockOffset := Defaults.userVerticalPos;
      dockTop := None;
      dockLeft := None;
      handlerShift := 0.0;
      this.bundledIcon := bundledIcon;
    }

    /** `closeAllStacks()` */
    method CloseAllStacks()
      modifies this`stacks
      ensures stacks == []
    {
      stacks := [];
    }

    /** `closeContextMenu()`: removes the first open menu, if any. */
    method CloseContextMenu()
      requires Valid()
      modifies this`menus
      ensures Valid() && menus == []
    {
      if |menus| > 0 {
        menus := menus[1..];
      }
    }

    /** `resetIcons()` */
    method ResetIcons()
      requires Valid()
      modifies this`sizes
      ensures Valid()
      ensures sizes == ResetSizes(elements, old(sizes), settings.dockSize)
    {
      var size := settings.dockSize as real;
      var i := 0;
      while i < |elements|
        invariant 0 <= i <= |elements| && |sizes| == |elements|
        invariant forall k :: 0 <= k < i ==> sizes[k] == if IsItem(elements[k].kind) then Some(size) else old(sizes[k])
        invariant forall k :: i <= k < |sizes| ==> sizes[k] == old(sizes[k])
      {
        if IsItem(elements[i].kind) {
          sizes := sizes[i := Some(size)];
        }
        i := i + 1;
      }
    }

    /** `toggleDock(show)`. Hiding always closes the stacks and the context
        menu, marks the dock idle and resets the item sizes. */
    method ToggleDock(show: bool)
      requires Valid()
      modifies this`visible, this`stacks, this`menus, this`idle, this`sizes
      ensures Valid() && visible == show
      ensures show ==> stacks == old(stacks) && menus == old(menus) && idle == old(idle) && sizes == old(sizes)
      ensures !show ==> stacks == [] && menus == [] && idle && sizes == ResetSizes(elements, old(sizes), settings.dockSize)
    {
      visible := show;
      if !show {
        CloseAllStacks();
        CloseContextMenu();
        idle := true;
        ResetIcons();
      }
    }

    /** `startHideTimer()`: any earlier timer is replaced. */
    method StartHideTimer()
      modifies this`hideTimerPending
      ensures hideTimerPending
    {
      hideTimerPending := true;
    }

    /** `clearTimeout(hideTimer)` */
    method ClearHideTimer()
      modifies this`hideTimerPending
      ensures !hideTimerPending
    {
      hideTimerPending := false;
    }

    /** The hide timer firing: it hides the dock only when no stack and no
        context menu is open. */
    method OnHideTimer()
      requires Valid()
      modifies this`hideTimerPending, this`visible, this`stacks, this`menus, this`idle, this`sizes
      ensures Valid() && !hideTimerPending
      ensures old(hideTimerPending) && old(stacks) == [] && old(menus) == [] ==>
        !visible && idle && sizes == ResetSizes(elements, old(sizes), settings.dockSize)
      ensures !(old(hideTimerPending) && old(stacks) == [] && old(menus) == []) ==>
        visible == old(visible) && idle == old(idle) && sizes == old(sizes)
      ensures stacks == old(stacks) && menus == old(menus)
    {
      if hideTimerPending {
        hideTimerPending := false;
        if |stacks| == 0 && |menus| == 0 {
          ToggleDock(false);
        }
      }
    }

    /** The document's click listener: a click outside every stack, item and
        handler closes the stacks and hides a shown dock; every click that
        reaches the document closes the context menu. */
    method OnDocumentClick(target: ClickTarget)
      requires Valid()
      modifies this`visible, this`stacks, this`menus, this`idle, this`sizes
      ensures Valid() && menus == []
      ensures target == Elsewhere ==> stacks == [] && !visible
      ensures target == Elsewhere && old(visible) ==> idle && sizes == ResetSizes(elements, old(sizes), settings.dockSize)
      ensures target == Elsewhere && !old(visible) ==> idle == old(idle) && sizes == old(sizes)
      ensures target != Elsewhere ==>
        stacks == old(stacks) && visible == old(visible) && idle == old(idle) && sizes == old(sizes)
    {
      if target == Elsewhere {
        CloseAllStacks();
        if visible {
          ToggleDock(false);
        }
      }
      CloseContextMenu();
    }

    /** The cursor entering the dock. */
    method OnDockEnter()
      modifies this`hideTimerPending, this`idle
      ensures !hideTimerPending && !idle
    {
      ClearHideTimer();
      idle := false;
    }

    /** The cursor leaving the dock. */
    method OnDockLeave()
      requires Valid()
      modifies this`hideTimerPending, this`idle, this`sizes
      ensures Valid() && hideTimerPending && idle
      ensures sizes == ResetSizes(elements, old(sizes), settings.dockSize)
    {
      idle := true;
      ResetIcons();
      StartHideTimer();
    }

    /** The cursor moving over a shown dock: each item is scaled by its
        distance to the cursor (`distances[i]` for element `i`). */
    method OnMouseMove(distances: seq<real>, sine: real -> real)
      requires Valid() && |distances| == |elements|
      modifies this`hideTimerPending, this`sizes
      ensures Valid()
      ensures !old(visible) ==> sizes == old(sizes) && hideTimerPending == old(hideTimerPending)
      ensures old(visible) ==> !hideTimerPending && forall i :: 0 <= i < |sizes| ==>
        sizes[i] == if IsItem(elements[i].kind)
                    then Some(MagnifiedSize(settings.dockSize, distances[i], sine))
                    else old(sizes[i])
    {
      if !visible {
        return;
      }
      ClearHideTimer();
      var i := 0;
      while i < |elements|
        invariant 0 <= i <= |elements| && |sizes| == |elements| && !hideTimerPending
        invariant forall k :: 0 <= k < i && IsItem(elements[k].kind) ==>
          sizes[k] == Some(MagnifiedSize(settings.dockSize, distances[k], sine))
        invariant forall k :: 0 <= k < i && !IsItem(elements[k].kind) ==> sizes[k] == old(sizes[k])
        invariant forall k :: i <= k < |sizes| ==> sizes[k] == old(sizes[k])
      {
        if IsItem(elements[i].kind) {
          sizes := sizes[i := Some(MagnifiedSize(settings.dockSize, distances[i], sine))];
        }
        i := i + 1;
      }
    }

    /** `openDock()`: with no item drawn yet the snapshot is requested (the
        reply arrives as `OnBookmarksReply`); otherwise the dock is shown. */
    method OpenDock()
      requires Valid()
      modifies this`hideTimerPending, this`sent, this`visible, this`stacks, this`menus, this`idle, this`sizes
      ensures Valid() && !hideTimerPending
      ensures !HasItems(elements) ==> sent == old(sent) + [GetBookmarksForMouse] && visible == old(visible)
      ensures HasItems(elements) ==> sent == old(sent) && visible
      ensures stacks == old(stacks) && menus == old(menus) && idle == old(idle) && sizes == old(sizes)
    {
      ClearHideTimer();
      if !HasItems(elements) {
        sent := sent + [GetBookmarksForMouse];
      } else {
        ToggleDock(true);
      }
    }

    /** The reply to `get_bookmarks_for_mouse`: a reply carrying data (an
        array, even empty) is drawn and the dock shown; a missing reply or
        missing data does nothing. */
    method OnBookmarksReply(data: Option<seq<Entry>>)
      requires Valid()
      modifies this`elements, this`sizes, this`visible, this`stacks, this`menus, this`idle
      ensures Valid()
      ensures data.Some? ==> visible && |elements| == |data.value| && forall i :: 0 <= i < |elements| ==>
        elements[i] == Element(Classify(data.value[i]), data.value[i])
      ensures data.Some? ==> forall i :: 0 <= i < |sizes| ==> sizes[i].None?
      ensures data.None? ==> visible == old(visible) && elements == old(elements) && sizes == old(sizes)
      ensures stacks == old(stacks) && menus == old(menus) && idle == old(idle)
    {
      if data.Some? {
        Render(data.value);
        ToggleDock(true);
      }
    }

    /** `renderBookmarks(bookmarks)`: the container is emptied and one element
        drawn per entry, in order, with no inline size yet. */
    method Render(bookmarks: seq<Entry>)
      requires Valid()
      modifies this`elements, this`sizes
      ensures Valid()
      ensures |elements| == |bookmarks|
      ensures forall i :: 0 <= i < |bookmarks| ==> elements[i] == Element(Classify(bookmarks[i]), bookmarks[i])
      ensures forall i :: 0 <= i < |sizes| ==> sizes[i].None?
    {
      elements := [];
      sizes := [];
      for i := 0 to |bookmarks|
        invariant |elements| == i && |sizes| == i
        invariant forall k :: 0 <= k < i ==> elements[k] == Element(Classify(bookmarks[k]), bookmarks[k])
        invariant forall k :: 0 <= k < i ==> sizes[k].None?
      {
        var bm := bookmarks[i];
        elements := elements + [Element(Classify(bm), bm)];
        sizes := sizes + [None];
      }
    }

    /** A click on a folder item: `toggleStack(bm, item)`. The stack already
        open for this folder is closed and nothing else happens; otherwise
        every stack is closed and one new stack is opened, placed next to the
        anchor. */
    method ToggleStack(bm: Entry, anchor: Rect, stackW: real, stackH: real, winW: real, winH: real)
      requires Valid()
      modifies this`stacks, this`hideTimerPending
      ensures Valid()
      ensures (exists k :: 0 <= k < |old(stacks)| && old(stacks)[k].parent == bm.id) ==>
        stacks == [] && hideTimerPending == old(hideTimerPending)
      ensures !(exists k :: 0 <= k < |old(stacks)| && old(stacks)[k].parent == bm.id) ==>
        && !hideTimerPending && |stacks| == 1
        && stacks[0].parent == bm.id && stacks[0].rows == StackRows(bm)
        && Corner(stacks[0].top, stacks[0].left) == StackCorner(settings.dockPosition, anchor, stackW, stackH, winW, winH)
    {
      if |stacks| > 0 && stacks[0].parent == bm.id {
        stacks := stacks[1..];
        return;
      }
      CloseAllStacks();
      ClearHideTimer();
      var rows := StackRows(bm);
      var top, left := PlaceStack(settings.dockPosition, anchor, stackW, stackH, winW, winH);
      stacks := [Stack(bm.id, rows, top, left)];
    }

    /** A right-click on an item: `showContextMenu(e, bm)`. The open menu is
        replaced by one for this entry, at the cursor. */
    method ShowContextMenu(bm: Entry, cx: real, cy: real, menuW: real, menuH: real, winW: real, winH: real)
      requires Valid()
      modifies this`menus, this`hideTimerPending
      ensures Valid() && !hideTimerPending && |menus| == 1
      ensures menus[0].entry == bm && menus[0].commands == MenuCommands(bm, settings.showSettings)
      ensures Point(menus[0].x, menus[0].y) == MenuCorner(cx, cy, menuW, menuH, winW, winH)
    {
      CloseContextMenu();
      ClearHideTimer();
      var commands := MenuCommands(bm, settings.showSettings);
      var x, y := MenuPosition(cx, cy, menuW, menuH, winW, winH);
      menus := menus + [Menu(bm, commands, x, y)];
    }

    /** A command of the open menu chosen; `answer` is what the prompt
        returned (`None` when cancelled) and `confirmed` what the
        confirmation returned. The menu closes in every case. */
    method ChooseCommand(c: Command, answer: Option<string>, confirmed: bool)
      requires Valid() && |menus| == 1 && c in menus[0].commands
      modifies this`sent, this`writes, this`menus
      ensures Valid() && menus == []
      ensures var bm := old(menus)[0].entry;
        sent == old(sent) + match c
          case AddCurrentPage => [AddCurrentTab]
          case OpenSettingsPage => [OpenSettings]
          case OpenInNewWindow => [OpenNewWindow(bm.url)]
          case OpenInIncognito => [OpenIncognito(bm.url)]
          case EditName => Sent(RenameRequest(bm, answer))
          case ChangeIcon => Sent(IconRequest(bm, answer))
          case RemoveFromDock => Sent(RemoveRequest(bm, confirmed))
          case ToggleSettingsIcon(_) => [RequestRefresh]
      ensures writes == old(writes) + if c.ToggleSettingsIcon? then [("showSettings", Bool(!settings.showSettings))] else []
    {
      var bm := menus[0].entry;
      match c {
      case AddCurrentPage =>
        sent := sent + [AddCurrentTab];
      case OpenSettingsPage =>
        sent := sent + [OpenSettings];
      case OpenInNewWindow =>
        sent := sent + [OpenNewWindow(bm.url)];
      case OpenInIncognito =>
        sent := sent + [OpenIncognito(bm.url)];
      case EditName =>
        var r := RenameRequest(bm, answer);
        if r.Some? {
          sent := sent + [r.value];
        }
      case ChangeIcon =>
        var r := IconRequest(bm, answer);
        if r.Some? {
          sent := sent + [r.value];
        }
      case RemoveFromDock =>
        var r := RemoveRequest(bm, confirmed);
        if r.Some? {
          sent := sent + [r.value];
        }
      case ToggleSettingsIcon(_) =>
        var newState := !settings.showSettings;
        writes := writes + [("showSettings", Bool(newState))];
        sent := sent + [RequestRefresh];
      }
      CloseContextMenu();
    }

    /** A click on the settings item: the options page is requested and the
        dock hidden. */
    method OnSettingsItemClick()
      requires Valid()
      modifies this`sent, this`visible, this`stacks, this`menus, this`idle, this`sizes
      ensures Valid() && sent == old(sent) + [OpenSettings]
      ensures !visible && stacks == [] && menus == [] && idle
      ensures sizes == ResetSizes(elements, old(sizes), settings.dockSize)
    {
      sent := sent + [OpenSettings];
      ToggleDock(false);
    }

    /** `refreshSettings()` once storage has answered with `stored`: the
        settings are normalised and applied. */
    method RefreshSettings(stored: map<string, Value>)
      requires Valid()
      modifies this`settings, this`handlerIcon, this`sizes
      ensures Valid() && settings == Normalize(stored)
      ensures HandlerImageOf(settings).CustomImage? ==> handlerIcon == Some(HandlerImageOf(settings).url)
      ensures HandlerImageOf(settings).BundledImage? ==> handlerIcon == Some(bundledIcon)
      ensures !HandlerImageOf(settings).TrimThrows? ==> sizes == ResetSizes(elements, old(sizes), settings.dockSize)
      ensures HandlerImageOf(settings).TrimThrows? ==> handlerIcon == old(handlerIcon) && sizes == old(sizes)
    {
      ApplySettings(Normalize(stored));
    }

    /** The rest of the storage callback, on the normalised settings `s`: the
        settings are stored, then the handler image is set and the icons are
        reset. When the handler icon is a truthy non-string, its `trim` throws
        and nothing after it runs. */
    method ApplySettings(s: Settings)
      requires Valid()
      modifies this`settings, this`handlerIcon, this`sizes
      ensures Valid() && settings == s
      ensures HandlerImageOf(s).CustomImage? ==> handlerIcon == Some(HandlerImageOf(s).url)
      ensures HandlerImageOf(s).BundledImage? ==> handlerIcon == Some(bundledIcon)
      ensures !HandlerImageOf(s).TrimThrows? ==> sizes == ResetSizes(elements, old(sizes), s.dockSize)
      ensures HandlerImageOf(s).TrimThrows? ==> handlerIcon == old(handlerIcon) && sizes == old(sizes)
    {
      settings := s;
      var image := HandlerImageOf(s);
      if image.TrimThrows? {
        return;
      }
      handlerIcon := Some(if image.CustomImage? then image.url else bundledIcon);
      ResetIcons();
    }

    /** The `storage.onChanged` listener: a sync change of a listed visual key
        re-reads the settings (`stored` is what the read returns); a change of
        `dockPosition` also closes the stacks and the context menu. Any other
        change is ignored. */
    method OnStorageChanged(changes: set<string>, namespace: string, stored: map<string, Value>)
      requires Valid()
      modifies this`settings, this`handlerIcon, this`sizes, this`stacks, this`menus
      ensures Valid()
      ensures !NeedsStyleUpdate(namespace, changes) ==>
        settings == old(settings) && handlerIcon == old(handlerIcon) && sizes == old(sizes)
        && stacks == old(stacks) && menus == old(menus)
      ensures NeedsStyleUpdate(namespace, changes) ==> settings == Normalize(stored)
      ensures NeedsStyleUpdate(namespace, changes) && HandlerImageOf(settings).CustomImage? ==>
        handlerIcon == Some(HandlerImageOf(settings).url)
      ensures NeedsStyleUpdate(namespace, changes) && HandlerImageOf(settings).BundledImage? ==>
        handlerIcon == Some(bundledIcon)
      ensures NeedsStyleUpdate(namespace, changes) && !HandlerImageOf(settings).TrimThrows? ==>
        sizes == ResetSizes(elements, old(sizes), settings.dockSize)
      ensures NeedsStyleUpdate(namespace, changes) && HandlerImageOf(settings).TrimThrows? ==>
        handlerIcon == old(handlerIcon) && sizes == old(sizes)
      ensures NeedsStyleUpdate(namespace, changes) && "dockPosition" in changes ==> stacks == [] && menus == []
      ensures NeedsStyleUpdate(namespace, changes) && "dockPosition" !in changes ==>
        stacks == old(stacks) && menus == old(menus)
    {
      if NeedsStyleUpdate(namespace, changes) {
        // The settings read completes after the listener has returned, so the
        // overlays are closed before the new settings are applied.
        if "dockPosition" in changes {
          CloseAllStacks();
          CloseContextMenu();
        }
        RefreshSettings(stored);
      }
    }

    /** `clampDockPosition()`, given the dock's box after its inline position
        was removed and the computed `top`/`left` it then has. The dock is
        moved back inside the padded viewport along its axis, by exactly the
        overflow or underflow, and the handler is moved the other way. */
    method ClampDockPosition(rect: Rect, winW: real, winH: real, currentTop: real, currentLeft: real)
      modifies this`dockOffset, this`dockTop, this`dockLeft, this`handlerShift
      ensures dockOffset == settings.userVerticalPos
      ensures IsVertical(settings) ==> dockLeft.None? && (dockTop.Some? <==> handlerShift != 0.0)
      ensures !IsVertical(settings) ==> dockTop.None? && (dockLeft.Some? <==> handlerShift != 0.0)
      ensures IsVertical(settings) && Bottom(rect) > winH - Padding ==>
        dockTop == Some(currentTop - (Bottom(rect) - (winH - Padding))) && handlerShift == Bottom(rect) - (winH - Padding)
      ensures IsVertical(settings) && Bottom(rect) <= winH - Padding && rect.top < Padding ==>
        dockTop == Some(currentTop + (Padding - rect.top)) && handlerShift == -(Padding - rect.top)
      ensures IsVertical(settings) && Padding <= rect.top && Bottom(rect) <= winH - Padding ==> dockTop.None?
      ensures !IsVertical(settings) && Right(rect) > winW - Padding ==>
        dockLeft == Some(currentLeft - (Right(rect) - (winW - Padding))) && handlerShift == Right(rect) - (winW - Padding)
      ensures !IsVertical(settings) && Right(rect) <= winW - Padding && rect.left < Padding ==>
        dockLeft == Some(currentLeft + (Padding - rect.left)) && handlerShift == -(Padding - rect.left)
      ensures !IsVertical(settings) && Padding <= rect.left && Right(rect) <= winW - Padding ==> dockLeft.None?
    {
      dockOffset := settings.userVerticalPos;
      dockTop := None;
      dockLeft := None;
      var shift: real;
      if IsVertical(settings) {
        shift := DockShift(rect.top, Bottom(rect), winH);
        if shift != 0.0 {
          dockTop := Some(currentTop + shift);
        }
      } else {
        shift := DockShift(rect.left, Right(rect), winW);
        if shift != 0.0 {
          dockLeft := Some(currentLeft + shift);
        }
      }
      handlerShift := -shift;
    }
  }
}
