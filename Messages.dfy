/** The requests the page and the options page send to the background
    script, as the `action` field and its companions carry them. */
module Messages {
  import opened Js

  /** A request, by its `action`. */
  datatype Request =
    | GetBookmarksForMouse
    | OpenSettings
    | AddCurrentTab
    | OpenNewWindow(url: Option<string>)
    | OpenIncognito(url: Option<string>)
    | RenameBookmark(id: string, title: string)
    | DeleteBookmark(id: string)
    | UpdateIcon(id: string, url: Option<string>)
    | RequestRefresh
    | Unknown(action: string)

  /** The message object: its `action` and the fields some actions carry. */
  datatype Wire = Wire(action: string, id: string, title: string, url: Option<string>)

  const Actions: seq<string> := [
    "get_bookmarks_for_mouse", "open_settings", "add_current_tab", "open_new_window", "open_incognito",
    "rename_bookmark", "delete_bookmark", "update_icon", "request_refresh"]

  predicate KnownAction(a: string) {
    a in Actions
  }

  /** The message a sender builds for a request. */
  function Encode(r: Request): (w: Wire)
    // Only an unknown request can carry an action outside the listed ones.
    ensures !r.Unknown? ==> KnownAction(w.action)
    ensures r.Unknown? ==> w.action == r.action
  {
    match r
    case GetBookmarksForMouse => Wire(Actions[0], "", "", None)
    case OpenSettings => Wire(Actions[1], "", "", None)
    case AddCurrentTab => Wire(Actions[2], "", "", None)
    case OpenNewWindow(u) => Wire(Actions[3], "", "", u)
    case OpenIncognito(u) => Wire(Actions[4], "", "", u)
    case RenameBookmark(id, t) => Wire(Actions[5], id, t, None)
    case DeleteBookmark(id) => Wire(Actions[6], id, "", None)
    case UpdateIcon(id, u) => Wire(Actions[7], id, "", u)
    case RequestRefresh => Wire(Actions[8], "", "", None)
    case Unknown(a) => Wire(a, "", "", None)
  }

  /** The background listener's tests on `request.action`: each known action
      reads the fields it needs; any other action is ignored. */
  function Decode(w: Wire): (r: Request)
    ensures r.Unknown? <==> !KnownAction(w.action)
  {
    if w.action == Actions[0] then GetBookmarksForMouse
    else if w.action == Actions[1] then OpenSettings
    else if w.action == Actions[2] then AddCurrentTab
    else if w.action == Actions[3] then OpenNewWindow(w.url)
    else if w.action == Actions[4] then OpenIncognito(w.url)
    else if w.action == Actions[5] then RenameBookmark(w.id, w.title)
    else if w.action == Actions[6] then DeleteBookmark(w.id)
    else if w.action == Actions[7] then UpdateIcon(w.id, w.url)
    else if w.action == Actions[8] then RequestRefresh
    else Unknown(w.action)
  }

  /** Every request the senders build is understood as sent; an unknown
      action stays unknown. */
  lemma DecodeEncode(r: Request)
    requires r.Unknown? ==> !KnownAction(r.action)
    ensures Decode(Encode(r)) == r
  {
  }
}
