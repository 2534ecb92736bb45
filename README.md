# Vertical bookmark dock — a Dafny model

The extension draws a dock of bookmarks at one edge of every web page. The
links come from the bookmark folder named `Vertical-bookmark-list`. The
**background script** (`src/background.js`) has three jobs:

- It finds that folder, creating it if it is missing.
- It turns the folder's children into the dock's *snapshot*. This is an
  ordered list of entries with icons, one level of folder nesting, and an
  optional trailing "Dock Settings" entry.
- It carries out the page's requests. After the ones that change the store
  or the icons (rename, delete, change icon, add the current tab, refresh)
  it pushes a fresh snapshot to every tab. Opening a url in a new tab or an
  incognito window, and opening the options page, push nothing.

The **page script** (`src/content.js`) does the following:

- It classifies the snapshot's entries into spacers, section headers,
  folders, the settings item and links.
- It normalises the stored preferences into its settings record.
- It clamps the dock, the folder stack and the context menu into the
  viewport.
- It runs a small state machine: dock shown or hidden, at most one open
  stack, at most one context menu, a pending hide timer, and an allow-list
  of storage changes that restyle the dock.

The model is split into these modules:

| file | module | what it holds |
|---|---|---|
| `Js.dfy` | `Js` | The JavaScript semantics the code relies on: values and truthiness, `\|\|`, `String.prototype.trim`, `parseInt`, number-to-string |
| `Bookmarks.dfy` | `Bookmarks` | The bookmark tree, depth-first first-match search (`findFolder`), and the store's create, update and remove operations |
| `Snapshot.dfy` | `Snapshot` | Favicon URL, icon precedence (`processNode`), the snapshot as a specification function, the imperative assembly loop, and the `update_icon` map update |
| `Messages.dfy` | `Messages` | The page → background requests and their wire form |
| `Background.dfy` | `Background` | `getDockFolderId`, the fetch, the `broadcastRefresh` fan-out, and a `Worker` class holding the store, storage and tabs, with one method per request |
| `DockRules.dfy` | `DockRules` | The page's pure rules: classification and header text, settings normalisation, class selection, the change allow-list, clamp and placement arithmetic, context-menu commands and intent guards |
| `Dock.dfy` | `Dock` | The page's state as a `Page` class, with one method per handler |

Things outside the code are parameters:

- Hostname extraction (`new URL(u).hostname`) is a partial function `host`.
- Element boxes, window size and computed styles are given as reals.
- `Math.sin` is a function `sine`.
- The user's prompt and confirmation answers are method arguments.
- What storage returns is an argument.
- Timers, animation frames and message replies are separate method calls,
  such as `OnHideTimer`, `ClampDockPosition` and `OnBookmarksReply`.

JavaScript numbers are modelled as integers where the code treats them as
counts and sizes. They are modelled as reals for pixel geometry.

### Behaviour of the code worth knowing

- `src/background.js` sends `refresh_dock` (src/background.js:197) and
  `toggle_dock` (src/background.js:185) to tabs, but `src/content.js`
  registers no `runtime.onMessage` listener, so those pushes reach no
  handler. A rename followed by a broadcast therefore does not change an
  already drawn dock.
- The `open_new_window` action calls `tabs.create`, which opens a tab in
  the current window (src/background.js:150-152).
  `Background.Worker.HandleMessage` records `OpenedTab`.
- The "Hide/Show Settings Icon" command writes `showSettings` straight to
  storage, not through a background request.
  - `showSettings` is missing from the page's allow-list, so the page's own
    `settings.showSettings` stays stale after the write.
  - A second toggle on the same page therefore writes the same value again
    (`DockRules.StyleUpdateAllowList`, `Dock.Page.OnStorageChanged`,
    `Dock.Page.ChooseCommand`).
- An unknown `dockPosition` (say `"center"`) gets the `left-side` class but
  horizontal geometry, because `isVertical` only accepts `left` and `right`
  (`DockRules.UnknownPositionIsLeftButHorizontal`).
- A truthy non-string `handlerIcon` makes `trim` throw inside
  `refreshSettings`. The settings record is already updated at that point,
  but the icon sizes are not reset and the handler image is not set
  (`Dock.Page.RefreshSettings`).

## Model

| member | source | states |
|---|---|---|
| Js.TrimOfTrimmed | src/content.js:307 | A string with no white space at either end is its own `trim()` |
| Js.ParseIntOfIntToString | src/content.js:237 | `parseInt` of an integer's decimal form, followed by a unit such as `px`, gives the integer back |
| Js.ParseNegative | src/content.js:237 | A minus sign followed by the decimal digits of a positive number and a unit parses to the negative number |
| Js.ParseNonNegative | src/content.js:237 | The decimal digits of a natural number followed by a unit parse to the number |
| Js.MinusDigits | src/content.js:237 | A minus sign, the digits of a natural number and a unit parse to its negation |
| Js.MinusSign | src/content.js:237 | `parseInt` of a minus sign followed by a magnitude gives the negated magnitude |
| Js.ParseUnsigned | src/content.js:237 | After the sign, the digits of a natural number followed by a unit read back as the number, never as hexadecimal |
| Js.ParseIntNotANumber | src/content.js:237 | `parseInt` of a string that starts with neither white space, a sign nor a digit is NaN |
| Js.NatToStringInjective | src/background.js:25-28 | Distinct counters give distinct node ids |
| Bookmarks.FirstIndex | src/background.js:37-45 | The index found holds the property and no earlier one does; none is found only if no element holds it |
| Bookmarks.FindFirstIsFirstInPreorder | src/background.js:36-47 | The recursive search returns the first node, in depth-first pre-order (node before its children), that satisfies the test |
| Bookmarks.FindFirstConcat | src/background.js:37-45 | Searching `a + b` finds the match in `a` if there is one, otherwise the match in `b` |
| Bookmarks.FindFolder | src/background.js:36-47 | The result is a folder (no url) with the given title that is the first such node in pre-order; `null` exactly when no node in the tree is such a folder |
| Bookmarks.AddChildWithoutParent | src/background.js:25-28 | Creating under an id that names no folder leaves the tree unchanged |
| Bookmarks.FindFolderAfterAdd | src/background.js:18-31 | After creating the missing dock folder under an existing folder, the search finds exactly the new node |
| Bookmarks.FindFolderAfterAddOther | src/background.js:139-143 | Adding a node that is not the dock folder changes neither whether the dock folder is found nor which id it has |
| Bookmarks.CountIdAfterAdd | src/background.js:25-28 | Adding an empty node raises the number of nodes with its id by the number of folders with the parent id, and leaves every other id's count alone |
| Bookmarks.FoldersWithIdAreNodesWithId | src/background.js:25-28 | There are never more folders with an id than nodes with it |
| Bookmarks.FoundIsCounted | src/background.js:36-47 | The node the search finds is counted among the nodes with its id |
| Bookmarks.FindFolderAfterAddUnderFound | src/background.js:139-143 | With unique ids, adding a folder of the dock's name under the dock folder still lets the search find the dock folder first |
| Bookmarks.RenameKeepsIdCount | src/background.js:156-158 | A rename keeps the number of nodes with each id |
| Bookmarks.RemoveCountAtMost | src/background.js:159-161 | A removal never raises the number of nodes with any id |
| Bookmarks.AddChild | src/background.js:25-28 | `bookmarks.create({parentId, …})`: the new node is appended to the children of each folder with the parent id |
| Bookmarks.Rename | src/background.js:156-158 | `bookmarks.update(id, {title})` on the tree |
| Bookmarks.Remove | src/background.js:159-161 | `bookmarks.remove(id)` on the tree: a link or an empty folder with the id goes, a non-empty one stays |
| Bookmarks.CountAfterAdd | src/background.js:18-31 | Adding one empty folder with the name raises the count of such folders by the number of folders with the parent id |
| Bookmarks.CountConcat | src/background.js:37-45 | The count over a concatenation is the sum of the counts |
| Bookmarks.RenameShape | src/background.js:156-158 | `bookmarks.update(id, {title})` keeps every node's id, url, kind and position, retitles exactly the nodes with that id, and recurses into children |
| Bookmarks.LookupAfterRename | src/background.js:156-158 | After a rename, the node with id `x` is the renamed version of the earlier node with id `x` |
| Bookmarks.ChildrenAfterRename | src/background.js:156-158 | A folder's children after a rename are its children before, renamed |
| Bookmarks.RemoveUnique | src/background.js:159-161 | With unique ids, removing an existing leaf or empty folder leaves no node with that id; removing a missing id or a non-empty folder changes nothing |
| Bookmarks.RemoveWithoutId | src/background.js:159-161 | Removing an id that does not occur changes nothing |
| Bookmarks.RemoveKeepsOthers | src/background.js:159-161 | Removing one id keeps the number of nodes of every other id |
| Bookmarks.CountZeroNotFound | src/background.js:36-47 | No node satisfying the test means the search returns nothing |
| Bookmarks.NotFoundCountZero | src/background.js:36-47 | The search returns nothing only if no node satisfies the test |
| Snapshot.FaviconUrl | src/background.js:53-60 | The favicon URL carries exactly the page's hostname between the service prefix and `&sz=128`; the result is `_default` exactly when the URL does not parse |
| Snapshot.IconFor | src/background.js:74-82 | Icon precedence: a truthy custom icon, else `_default_folder` for a folder, else the favicon URL (its properties are `Snapshot.SnapshotIcons`) |
| Snapshot.ProcessNode | src/background.js:74-92 | An entry copies the node's id, title and url; it has `[]` children exactly when the node has no truthy url, `null` otherwise |
| Snapshot.SnapshotOf | src/background.js:94-116 | The snapshot as a specification: one entry per child of the dock folder, then the settings entry when enabled (its properties are `Snapshot.SnapshotShape` and `Snapshot.SnapshotNesting`) |
| Snapshot.AssembleSnapshot | src/background.js:94-116 | The processing loop builds exactly the snapshot specification: one processed entry per child, folders with their processed sub-children, then the settings entry when enabled |
| Snapshot.SnapshotShape | src/background.js:94-116 | The snapshot has one entry per child of the dock folder, in order, with the same ids and titles, plus a settings entry (`dock_settings_item`, url `''`, `settingsIcon` or the bundled icon) last iff `showSettings !== false` |
| Snapshot.SnapshotNesting | src/background.js:89-101 | A folder entry's children are its direct sub-children processed in order, each with its id, title and url, and each sub-folder with `[]` children; a link entry has `null` children |
| Snapshot.SnapshotIcons | src/background.js:74-101 | At both levels, a truthy custom icon always wins; otherwise a folder gets `_default_folder` and a link exactly `getFaviconUrl` of its url, whose domain is the url's hostname |
| Snapshot.SetIcon | src/background.js:162-170 | A truthy url sets `icons[id]`; an empty or absent one deletes it; every other key keeps its value |
| Snapshot.IconUpdateShowsInSnapshot | src/background.js:162-170 | After `update_icon`, the next snapshot shows the new icon for that bookmark at both levels, or after a reset its default (the folder placeholder or the favicon); other bookmarks keep theirs and nothing else changes |
| Snapshot.RenameShowsInSnapshot | src/background.js:156-158 | After a rename, the next snapshot has the same entries in the same order, with the new title for that id and every other title unchanged |
| Messages.Decode | src/background.js:121-176 | A message is dispatched as one of the nine listed actions exactly when its action string is one of them; any other action is ignored |
| Messages.Encode | src/content.js:434-452 | The message a sender builds carries one of the listed actions for every known request, and an unknown request's own action otherwise |
| Messages.DecodeEncode | src/content.js:220 | Every request the page builds is read by the background as the same request |
| Background.CreationParent | src/background.js:24 | The folder is created under the root's child with id `'2'` when there is one, else under the root |
| Background.Create | src/background.js:25-28 | A create succeeds exactly when a folder with the parent id exists; then it adds one new node, with the counter's next id, under that parent; otherwise nothing changes (freshness of the id is `Background.CreateKeepsIds`) |
| Background.LocateOrCreate | src/background.js:18-31 | If the dock folder exists, nothing is created and its id is returned; otherwise a folder with the name is created under the parent with the counter's next id, which is returned; no id only when the parent is missing, and then nothing changes (freshness is `Background.LocateKeepsIds`) |
| Background.LocatedFolderIsFound | src/background.js:18-31 | Whenever an id is returned, a search of the store afterwards finds the dock folder with that id |
| Background.CreatedFolderCount | src/background.js:18-31 | After creating the missing folder, the number of dock folders is the number of folders with the parent id |
| Background.CreatesExactlyOneFolder | src/background.js:18-31 | In a store with unique ids, creating the missing folder leaves exactly one dock folder |
| Background.CreateKeepsIds | src/background.js:25-28 | `bookmarks.create` keeps ids unique and the counter ahead of every id in the store; the new node's id occurred nowhere before and occurs exactly once after |
| Background.LocateKeepsIds | src/background.js:18-31 | `getDockFolderId` keeps ids unique and the counter ahead of them; a folder it creates has an id that occurred nowhere before |
| Background.RenameKeepsIds | src/background.js:156-158 | A rename keeps ids unique, the counter ahead of them and the root a folder |
| Background.RemoveBelowKeepsIds | src/background.js:159-161 | A removal keeps ids unique and the counter ahead of them |
| Background.Fetch | src/background.js:66-117 | `getBookmarksForDock`: locate or create the dock folder, then take the snapshot of its children, or no data when there is no folder |
| Background.LocateOrCreateIdempotent | src/background.js:18-31 | A second lookup after the first returns the same id and creates nothing |
| Background.LocateAfterAddingLink | src/background.js:135-147 | In a store with unique ids and a counter ahead of them, adding the current tab under the dock folder, whatever its url (a link, a folder with no url, even one named like the dock folder), leaves the dock folder's id unchanged for later lookups |
| Background.SendToAll | src/background.js:193-202 | One `refresh_dock` per queried tab, in order, each carrying the same snapshot; a tab without the page script fails alone and does not stop the others |
| Background.SendsOnePerTab | src/background.js:195-201 | The tabs messaged are exactly the tabs the query returned, each once |
| Background.RemoveBelow | src/background.js:159-161 | Removal works below the root and never removes the root |
| Background.Worker.constructor | src/background.js:121-176 | The background's initial state, over a store whose root is a folder, whose ids are unique and whose counter is ahead of every id |
| Background.Worker.CreateBookmark | src/background.js:139-143 | The store after `bookmarks.create` is the `Create` specification of the store before |
| Background.Worker.GetDockFolderId | src/background.js:18-31 | The folder id and the store afterwards are the `LocateOrCreate` specification of the store before |
| Background.Worker.GetBookmarksForDock | src/background.js:66-117 | The data returned is the snapshot of the dock folder located (or created) in the current store |
| Background.Worker.BroadcastRefresh | src/background.js:193-202 | Appends one delivery per queried tab carrying the freshly fetched snapshot |
| Background.Worker.AddCurrentTab | src/background.js:135-147 | Without an active tab nothing happens; otherwise the dock folder is located or created, the tab's title and url are added under it, and a refresh is broadcast |
| Background.Worker.RenameBookmark | src/background.js:156-158 | The store is renamed, then a refresh carrying the renamed snapshot is broadcast |
| Background.Worker.DeleteBookmark | src/background.js:159-161 | The node is removed from the store, then a refresh is broadcast |
| Background.Worker.UpdateIcon | src/background.js:162-170 | The custom-icon map becomes `SetIcon` of the old map, then a refresh carrying the new icons is broadcast |
| Background.Worker.HandleStoreChange | src/background.js:135-176 | For `add_current_tab`, `rename_bookmark`, `delete_bookmark`, `update_icon` and `request_refresh`: the new store, counter, icon map and deliveries are the changed store's fetch and broadcast; a missing tab or folder changes nothing |
| Background.Worker.HandleMessage | src/background.js:121-176 | Only `get_bookmarks_for_mouse` is answered, with the snapshot; each store action gives the new store, counter, icon map and broadcast as the fetch of the changed store; each browser action records exactly its effect; an unknown action changes nothing |
| DockRules.Classify | src/content.js:305-332 | The item kind chosen for an entry (its properties are the classification lemmas below) |
| DockRules.RemoveTriples | src/content.js:310 | Removing every `---` never lengthens the text |
| DockRules.RemoveTriplesNoDash | src/content.js:310 | Text with no dash is left as it is |
| DockRules.HeaderTitle | src/content.js:307-310 | A title `---text---` with dash-free text is a header whose text is the trimmed text |
| DockRules.WorkHeader | src/content.js:307-310 | `"--- WORK ---"` is a header reading `WORK` |
| DockRules.PaddedHeader | src/content.js:307-310 | `--- text ---`, with dash-free text without spaces at its ends, is a header reading the text |
| DockRules.TrimPadded | src/content.js:307 | `trim` removes one space on either side of text that has none at its ends |
| DockRules.TitledSettingsItem | src/content.js:305-327 | An entry titled `Dock Settings` with the settings id and no children is drawn as the settings item |
| DockRules.ShortTitleIsItem | src/content.js:306-308 | A title other than `"-"` of at most six characters is drawn as a dock item |
| DockRules.SixDashesIsNotAHeader | src/content.js:308 | `"------"` (length 6) is drawn as a dock item, not a header |
| DockRules.NotAHeaderTitle | src/content.js:308 | A trimmed title of length at most 6, or one not starting with a dash, is not a header |
| DockRules.ClassificationOrder | src/content.js:305-332 | Exactly `"-"` (untrimmed) is a spacer; then header titles; then any entry with children, even empty, is a folder; then the settings id; else a link |
| DockRules.SettingsEntryIsSettingsItem | src/content.js:323-327 | The settings entry the background appends is drawn as the settings item |
| DockRules.DockSizeOf | src/content.js:237 | The dock size is never 0: a non-zero parsed size is kept, and an unparsable or zero one falls back to 48 |
| DockRules.Normalize | src/content.js:236-252 | `refreshSettings`'s reading of the store into settings (its properties are the `Normalize*` and `Stored*` lemmas) |
| DockRules.DockSizeKept | src/content.js:237 | A non-zero stored size, as a number or as `"<n>px"`, is kept |
| DockRules.NormalizeEmpty | src/content.js:6-12 | Normalising an empty store gives exactly the page's default settings |
| DockRules.NormalizeFallbacks | src/content.js:236-252 | A vertical position or size of 0 falls back to 50 or 48; `backdropBlur` and `idleOpacity` keep 0; `edgeTrigger` and `persistentLine` hold only for `true`; `showTooltips`, `enableShadow`, `enableAccent` and `showSettings` hold unless `false` |
| DockRules.NormalizeOrLayout | src/content.js:236-252 | Position, handler icon, vertical position and line thickness keep a truthy stored value and otherwise take their defaults `left`, `""`, 50 and 3 |
| DockRules.NormalizeOrStyle | src/content.js:236-252 | Accent colour, separator style, hover style and icon shape keep a truthy stored value and otherwise take their defaults `#007aff`, `glass`, `glow` and `12px` |
| DockRules.NormalizeUnlessUndefined | src/content.js:236-252 | `backdropBlur` and `idleOpacity` keep any defined value, falsy or not, and take 10 and 100 only when absent |
| DockRules.NormalizeIsNormal | src/content.js:236-252 | Every normalised record is normal: a non-zero size, a truthy value for every field with a truthy fallback, and a defined value for the two fields kept unless undefined |
| DockRules.StoredNormalReadsBack | src/content.js:236-252 | Writing a normal settings record and reading it back gives the same record |
| DockRules.StoredLayoutLookups | src/content.js:236-252 | Reading back a stored normal record gives its position, size, trigger, handler, vertical position and line thickness |
| DockRules.StoredFlagLookups | src/content.js:236-252 | Reading back a stored normal record gives its five flags |
| DockRules.StoredStyleLookups | src/content.js:236-252 | Reading back a stored normal record gives its accent, separator, hover, blur, shape and opacity |
| DockRules.NormalizeStable | src/content.js:236-252 | Normalisation is idempotent: normalise, store and normalise again gives the same settings |
| DockRules.SideClass | src/content.js:262-266 | Exactly one side class: right, bottom and top for those values, left for every other value |
| DockRules.UnknownPositionIsLeftButHorizontal | src/content.js:54 | An unknown position gets the left-side class but is treated as horizontal |
| DockRules.HoverClass | src/content.js:273-276 | Exactly one hover class: glow, line, or none for every other value |
| DockRules.TogglesOf | src/content.js:268-271 | The four toggled classes follow their settings flags |
| DockRules.StyleClass | src/content.js:278-279 | The separator class is `style-` followed by the separator style |
| DockRules.HandlerImageOf | src/content.js:281-286 | A non-blank string handler icon is used; a falsy or blank one gives the bundled icon; a truthy non-string one makes `trim` throw |
| DockRules.NeedsStyleUpdate | src/content.js:475-494 | The test in the storage listener: the change is in `sync` and touches a listed key |
| DockRules.StyleUpdateAllowList | src/content.js:475-494 | A change restyles the dock iff it is in `sync` and touches a listed visual key; `showSettings` and `customIcons` are not listed |
| DockRules.DockShift | src/content.js:68-109 | An overflowing far edge is moved back exactly onto `extent - 10`; otherwise an underflowing near edge is moved forward exactly to 10; the shift is non-zero iff the dock is out of band; a dock that fits ends inside |
| DockRules.CentredPosition | src/content.js:385-389 | The stack starts centred on the anchor, is raised to at least 10, then lowered so its far edge is at most `extent - 10`; the far-edge clamp wins; a stack that fits stays exactly centred, any other touches one padded edge |
| DockRules.CentreOnAnchor | src/content.js:385-389 | The statements compute exactly `CentredPosition` |
| DockRules.StackCorner | src/content.js:384-403 | Vertical docks centre the stack on the anchor vertically (within the padding) and put it 15px to the right (left dock) or left (right dock); other docks centre it horizontally, 15px above (bottom) or below |
| DockRules.PlaceStack | src/content.js:384-403 | The statements compute exactly the `StackCorner` corner |
| DockRules.MenuPositionAsWritten | src/content.js:463-468 | The menu opens 5px below-right of the cursor, flipped up (then raised to 5 if above the top) or left at the bottom or right edge; only the vertical position is clamped to at least 5 |
| DockRules.MenuLeavesLeftEdge | src/content.js:463-468 | A 180-wide menu at x = 100 in a 250-wide window lands at x = -85 |
| DockRules.MenuCorner | src/content.js:463-468 | With the horizontal clamp added, the menu's corner is always at least 5 from the top and left; unflipped when it fits; flipped up or left, then raised to 5, when it does not; a narrow enough menu stays inside on the right |
| DockRules.MenuPosition | src/content.js:463-468 | The corrected statements compute exactly the `MenuCorner` corner |
| DockRules.FisheyeScale | src/content.js:185-196 | Beyond 150px the scale is 1; within, it lies between 1 and 1.8 |
| DockRules.MagnifiedSize | src/content.js:197-198 | An item's magnified size is the dock size beyond 150px, and between 1 and 1.8 times it within |
| DockRules.MenuCommands | src/content.js:434-453 | The menu always starts with "Add Current Page" and ends with the settings-icon toggle; the settings item offers only "Open Settings" in between; every other entry offers exactly new window, incognito, rename, icon and remove, in that order and each once, and not "Open Settings" |
| DockRules.RenameRequest | src/content.js:443 | A rename is sent iff the prompt gave a non-empty name different from the current title |
| DockRules.IconRequest | src/content.js:444 | `update_icon` is sent iff the prompt was not cancelled, including an empty answer |
| DockRules.RemoveRequest | src/content.js:446 | A delete is sent iff the user confirmed |
| DockRules.EmptyIconAnswerResets | src/content.js:444 | An empty icon answer is sent and removes the custom icon when the background applies it |
| DockRules.StackHref | src/content.js:360 | A stack row links to the child's url, or `#` when it has none |
| Dock.StackRows | src/content.js:357-367 | A folder's stack has one row per child, in order, with its title, link and icon; an entry without children has no rows |
| Dock.ResetSizes | src/content.js:40-47 | Every dock item gets the dock size; spacers and headers keep theirs |
| Dock.Page.Valid | src/content.js:30-38 | At most one stack and one context menu are open |
| Dock.Page.ClearHideTimer | src/content.js:347 | No hide timer is pending |
| Dock.Page.constructor | src/content.js:1-12 | The page starts hidden, idle, with the default settings and nothing open |
| Dock.Page.CloseAllStacks | src/content.js:30-33 | No stack is left open |
| Dock.Page.CloseContextMenu | src/content.js:35-38 | No menu is left open |
| Dock.Page.ResetIcons | src/content.js:40-47 | The loop sets exactly the `ResetSizes` sizes |
| Dock.Page.ToggleDock | src/content.js:112-128 | Showing changes only visibility; hiding always closes the stacks and the context menu, marks the dock idle and resets item sizes to the dock size |
| Dock.Page.StartHideTimer | src/content.js:130-137 | A hide timer is pending |
| Dock.Page.OnHideTimer | src/content.js:132-136 | The timer hides the dock only when no stack and no context menu is open; otherwise nothing changes |
| Dock.Page.OnDocumentClick | src/content.js:166-173 | A click outside stacks, items and handler closes the stacks and hides a shown dock; every click closes the context menu |
| Dock.Page.OnDockEnter | src/content.js:175-178 | The pending hide is cancelled and the dock is no longer idle |
| Dock.Page.OnDockLeave | src/content.js:203-207 | The dock becomes idle, sizes are reset and a hide is scheduled |
| Dock.Page.OnMouseMove | src/content.js:180-201 | On a shown dock, the pending hide is cancelled and each item gets its magnified size; on a hidden dock nothing changes |
| Dock.Page.OpenDock | src/content.js:217-224 | With no item drawn the snapshot is requested, otherwise the dock is shown; the pending hide is cancelled either way |
| Dock.Page.OnBookmarksReply | src/content.js:220-222 | A reply with data draws it, with no inline sizes, and shows the dock; a missing reply changes nothing |
| Dock.Page.Render | src/content.js:294-334 | The dock holds one element per entry, in order, each with its classification |
| Dock.Page.ToggleStack | src/content.js:342-414 | If this folder's stack is open it is closed and nothing else happens; otherwise exactly one stack, for this folder, with its rows, is opened with its corner at `StackCorner` for the dock's position, and the pending hide is cancelled |
| Dock.Page.ShowContextMenu | src/content.js:416-473 | The menu is replaced by exactly one menu for the entry, with its commands, its corner at the corrected `MenuCorner` |
| Dock.Page.ChooseCommand | src/content.js:426-453 | Each command sends exactly its request (rename, icon and remove only when their guard passes), the settings toggle writes the flipped flag then requests a refresh, and the menu closes |
| Dock.Page.OnSettingsItemClick | src/content.js:325 | Clicking the settings item requests the options page and hides the dock |
| Dock.Page.RefreshSettings | src/content.js:226-292 | The settings become the normalised store; the handler image follows the handler rule; sizes are reset unless `trim` throws first |
| Dock.Page.ApplySettings | src/content.js:236-290 | The given settings are stored; a non-blank string handler icon or the bundled icon is shown and sizes are reset; a truthy non-string icon throws in `trim` and leaves the handler and sizes as they were |
| Dock.Page.OnStorageChanged | src/content.js:475-497 | Only an allow-listed sync change re-reads the settings, then sets the handler image and resets sizes as `RefreshSettings` does (both kept when `trim` throws); a `dockPosition` change also closes stacks and menu (before the re-read completes); any other change alters nothing |
| Dock.Page.ClampDockPosition | src/content.js:49-110 | The dock moves along its axis by exactly the overflow or underflow, its inline position is set iff it moved, and the handler counter-shifts by the opposite amount |

At most one stack and one context menu are open at a time. This is
`Dock.Page.Valid`, and every page method keeps it.

## Left out

- `src/adapter.js` and `src/options.js` are not part of this model. They wrap the browser APIs and render the options page.
- On Chrome, the adapter calls the message listener as `callback(request, sender)` (src/adapter.js:36), so `sendResponse` is undefined in src/background.js:125, and `tabs.query(q)` drops its second argument (src/adapter.js:48), so the callbacks at src/background.js:136 and src/background.js:195 never run. The adapter's `storage` (src/adapter.js:57-66) has no `onChanged`, and src/content.js:475 registers its listener only when `onChanged` exists, so `Dock.Page.OnStorageChanged` never runs there. The model follows src/background.js as written for a browser API that calls them: the snapshot is replied, the tab is added and the refresh is broadcast.
- The keyboard command (src/background.js:179-189) is not modelled. It sends `toggle_dock`, whose data the page never reads.
- Message channels, promises and callbacks are left out. Each handler runs to completion as one method, and a reply is a separate call (`OnBookmarksReply`).
- The browser's own refusals are not modelled, such as Chrome refusing to change root folders. A create under a missing parent is rejected; a remove of a non-empty folder changes nothing.
- Background.Worker.DeleteBookmark: broadcasts a refresh even when the store refuses the removal (a non-empty folder or a missing id). This follows the Chrome adapter, whose `bookmarks.remove` promise resolves on error too (src/adapter.js:72). In Firefox the native `browser` namespace is used instead (src/adapter.js:8-10): the rejected promise skips `.then(broadcastRefresh)` (src/background.js:160), and no `refresh_dock` goes out.
- Background.Worker.RenameBookmark: broadcasts a refresh even for an id the store lacks. This follows the Chrome adapter's `bookmarks.update`, which resolves on error (src/adapter.js:71). In Firefox the rejection skips the broadcast (src/background.js:157).
- Background.Worker.HandleStoreChange and Background.Worker.HandleMessage: their `rename_bookmark` and `delete_bookmark` clauses inherit the two lines above.
- URL parsing is the partial function `host`, and `Math.sin` is the function `sine`.
- Layout is left out: `getBoundingClientRect`, `getComputedStyle` and `parseFloat` become real-valued arguments.
- The `IntersectionObserver` lazy image loading (src/content.js:16-28, 139-147) is not modelled.
- The `requestAnimationFrame`/`setTimeout` rescheduling of the clamp is not modelled; the clamp is its own event.
- CSS properties and class names are modelled only as the outcomes listed above.
- Opening the options page, tabs and windows is recorded as an effect only.
- Bookmark ids come from a counter; Chrome's own id scheme is not modelled.
- The "Empty Folder" text a stack with no rows shows (src/content.js:365-367) is not recorded; such a stack has no rows.
- Dock.Page.OnMouseMove: the items' distances from the cursor are arguments. The model does not compute them from the cursor and the item boxes.
- Dock.Page.ShowContextMenu uses the corrected position rule below, not the rule as written.
- Bookmarks.RemoveUnique: assumes the store's ids are unique, as the real store guarantees.

## Findings

| source | as written | input that shows it | evidently intended | confidence | as-written member | corrected member |
|---|---|---|---|---|---|---|
| src/content.js:463-468 | After flipping the menu to the left of the cursor, only `posY` is clamped to at least 5; `posX` can become negative | cursor x = 100, menu width 180, window width 250: `posX` = 105, which overflows, is flipped to 100 - 180 - 5 = -85 | the menu stays inside the viewport horizontally too (`posX` at least 5), like `posY` | not executed | DockRules.MenuLeavesLeftEdge | DockRules.MenuPosition |
