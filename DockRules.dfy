/** The page script's rules that do not depend on page state: how a
    snapshot entry is drawn, how stored preferences become the settings
    record and its classes, which storage changes restyle the dock, where
    the dock, a folder stack and the context menu are placed, and which
    requests the context-menu commands send. */
module DockRules {
  import opened Js
  import opened Snapshot
  import opened Messages

  // ---------------------------------------------------------------------------
  // Classification of snapshot entries

  /** What `renderBookmarks` draws for one entry. */
  datatype Kind = Spacer | Header(text: string) | FolderItem | SettingsItem | LinkItem

  /** The elements that carry the `dock-item` class. */
  predicate IsItem(k: Kind) {
    k.FolderItem? || k.SettingsItem? || k.LinkItem?
  }

  /** A trimmed title that starts and ends with "---" and is longer than six. */
  predicate IsHeaderTitle(t: string) {
    |t| > 6 && t[..3] == "---" && t[|t| - 3..] == "---"
  }

  /** `s.replace(/---/g, '')`: every run of three dashes, scanning from the
      left without overlap, is deleted. */
  function RemoveTriples(s: string): (r: string)
    ensures |r| <= |s|
  {
    if |s| >= 3 && s[..3] == "---" then RemoveTriples(s[3..])
    else if |s| == 0 then []
    else [s[0]] + RemoveTriples(s[1..])
  }

  /** The tests of `renderBookmarks`, in order: an untrimmed "-" is a spacer;
      a header title gives a header; a `children` array (even empty) gives a
      folder; the settings id gives the settings item; anything else a link. */
  function Classify(e: Entry): Kind {
    if e.title == "-" then Spacer
    else
      var clean := Trim(e.title);
      if IsHeaderTitle(clean) then Header(Trim(RemoveTriples(clean)))
      else if e.children.Some? then FolderItem
      else if e.id == SettingsId then SettingsItem
      else LinkItem
  }

  /** Text without dashes is left alone. */
  lemma {:induction false} RemoveTriplesNoDash(t: string)
    requires forall i :: 0 <= i < |t| ==> t[i] != '-'
    ensures RemoveTriples(t) == t
  {
    if |t| > 0 {
      assert |t| >= 3 ==> t[..3][0] == t[0];
      RemoveTriplesNoDash(t[1..]);
      assert [t[0]] + t[1..] == t;
    }
  }

  lemma {:induction false} RemoveTriplesAfterText(t: string)
    requires forall i :: 0 <= i < |t| ==> t[i] != '-'
    ensures RemoveTriples(t + "---") == t
  {
    if |t| == 0 {
      assert t + "---" == "---";
      assert RemoveTriples("---"[3..]) == [];
    } else {
      assert (t + "---")[..3] != "---" by {
        assert (t + "---")[0] == t[0];
      }
      assert (t + "---")[1..] == t[1..] + "---";
      RemoveTriplesAfterText(t[1..]);
      assert [t[0]] + t[1..] == t;
    }
  }

  /** A title of the form `---text---`, with no dash in the text, is a
      section header showing the trimmed text. */
  lemma HeaderTitle(e: Entry, t: string)
    requires |t| > 0 && forall i :: 0 <= i < |t| ==> t[i] != '-'
    requires e.title == "---" + t + "---"
    ensures Classify(e) == Header(Trim(t))
  {
    var s := e.title;
    assert s[0] == '-' && s[|s| - 1] == '-';
    TrimOfTrimmed(s);
    assert s[..3] == "---";
    assert s[|s| - 3..] == "---";
    assert s[3..] == t + "---";
    RemoveTriplesAfterText(t);
  }

  /** `"--- WORK ---"` is a header reading "WORK". */
  lemma WorkHeader(e: Entry)
    requires e.title == "--- WORK ---"
    ensures Classify(e) == Header("WORK")
  {
    var w := "WORK";
    assert forall i :: 0 <= i < |w| ==> w[i] != '-' && !IsSpace(w[i]);
    assert e.title == "--- " + w + " ---";
    PaddedHeader(e, w);
  }

  /** A title `--- text ---` whose text has no dash and no surrounding space
      is a header showing exactly the text. */
  lemma PaddedHeader(e: Entry, w: string)
    requires |w| > 0 && !IsSpace(w[0]) && !IsSpace(w[|w| - 1])
    requires forall i :: 0 <= i < |w| ==> w[i] != '-'
    requires e.title == "--- " + w + " ---"
    ensures Classify(e) == Header(w)
  {
    var t := " " + w + " ";
    assert e.title == "---" + t + "---";
    assert forall i :: 0 <= i < |t| ==> t[i] != '-' by {
      forall i | 0 <= i < |t| ensures t[i] != '-' {
        if 0 < i < |t| - 1 {
          assert t[i] == w[i - 1];
        }
      }
    }
    HeaderTitle(e, t);
    TrimPadded(w);
  }

  /** One space on either side of a word is trimmed away. */
  lemma TrimPadded(w: string)
    requires |w| > 0 && !IsSpace(w[0]) && !IsSpace(w[|w| - 1])
    ensures Trim(" " + w + " ") == w
  {
    var p := " " + w + " ";
    assert p[1..] == w + " ";
    assert TrimStart(p) == TrimStart(w + " ");
    assert (w + " ")[0] == w[0];
    assert TrimStart(w + " ") == w + " ";
    assert (w + " ")[..|w|] == w;
    assert TrimEnd(w + " ") == TrimEnd(w);
  }

  /** A title of six characters or fewer, or one that does not start with a
      dash, is not a header title. */
  lemma NotAHeaderTitle(t: string)
    requires |t| <= 6 || t[0] != '-'
    ensures !IsHeaderTitle(t)
  {
    if |t| > 6 {
      assert t[..3][0] == t[0];
    }
  }

  /** A title of at most six characters other than `"-"` is drawn as an
      item: trimming cannot lengthen it past the header test's bound. */
  lemma ShortTitleIsItem(e: Entry)
    requires e.title != "-" && |e.title| <= 6
    ensures IsItem(Classify(e))
  {
    NotAHeaderTitle(Trim(e.title));
  }

  /** `"------"` has length six: it is drawn as an item, not a header. */
  lemma SixDashesIsNotAHeader(e: Entry)
    requires e.title == "------"
    ensures IsItem(Classify(e))
  {
    assert |e.title| == 6;
    ShortTitleIsItem(e);
  }

  /** The spacer test comes first and looks at the untrimmed title; then
      header titles; then any `children` array, even an empty one, makes a
      folder; then the settings id; everything else is a link. */
  lemma ClassificationOrder(e: Entry)
    ensures e.title == "-" ==> Classify(e) == Spacer
    ensures e.title == " - " ==> Classify(e) != Spacer
    ensures e.title != "-" && IsHeaderTitle(Trim(e.title)) ==>
      Classify(e) == Header(Trim(RemoveTriples(Trim(e.title))))
    ensures !IsHeaderTitle(Trim(e.title)) && e.title != "-" && e.children.Some? ==> Classify(e) == FolderItem
    ensures !IsHeaderTitle(Trim(e.title)) && e.title != "-" && e.children == Some([]) ==> Classify(e) == FolderItem
    ensures !IsHeaderTitle(Trim(e.title)) && e.title != "-" && e.children.None? ==>
      (Classify(e) == SettingsItem <==> e.id == SettingsId)
    ensures !IsHeaderTitle(Trim(e.title)) && e.title != "-" && e.children.None? && e.id != SettingsId ==>
      Classify(e) == LinkItem
  {
  }

  /** The settings entry the background appends is drawn as the settings item. */
  lemma SettingsEntryIsSettingsItem(prefs: IconPrefs, bundledIcon: string)
    ensures Classify(SettingsEntry(prefs, bundledIcon)) == SettingsItem
  {
    var e := SettingsEntry(prefs, bundledIcon);
    TitledSettingsItem(e);
  }

  lemma TitledSettingsItem(e: Entry)
    requires e.title == SettingsTitle && e.id == SettingsId && e.children.None?
    ensures Classify(e) == SettingsItem
  {
    var t := SettingsTitle;
    assert t[0] == 'D' && t[|t| - 1] == 's';
    TrimOfTrimmed(t);
    NotAHeaderTitle(t);
    assert e.title != "-" && !IsHeaderTitle(Trim(e.title));
  }

  // ---------------------------------------------------------------------------
  // Settings

  /** The `settings` object of the page script. Fields filled with `a || b`
      or kept unless undefined hold whatever storage held. */
  datatype Settings = Settings(
    dockPosition: Value, dockSize: int, edgeTrigger: bool, handlerIcon: Value,
    accentColor: Value, showTooltips: bool, separatorStyle: Value, enableShadow: bool,
    hoverStyle: Value, enableAccent: bool, showSettings: bool, backdropBlur: Value,
    iconShape: Value, idleOpacity: Value, userVerticalPos: Value, lineThickness: Value,
    persistentLine: bool)

  /** The initial `settings` object. */
  const Defaults := Settings(
    Str("left"), 48, false, Str(""), Str("#007aff"), true, Str("glass"), true,
    Str("glow"), true, true, Num(10), Str("12px"), Num(100), Num(50), Num(3), false)

  /** A storage key, `undefined` when absent. */
  function Get(prefs: map<string, Value>, key: string): Value {
    if key in prefs then prefs[key] else Undefined
  }

  /** `parseInt(v) || 48`: NaN and 0 are falsy. */
  function DockSizeOf(v: Value): (n: int)
    ensures n != 0
    // A parsed non-zero size is kept; an unparsable or zero one falls back to 48.
    ensures ParseIntValue(v).Some? && ParseIntValue(v).value != 0 ==> n == ParseIntValue(v).value
    ensures ParseIntValue(v).None? || ParseIntValue(v) == Some(0) ==> n == 48
  {
    match ParseIntValue(v)
    case Some(k) => if k != 0 then k else 48
    case None => 48
  }

  /** `v !== undefined ? v : d` */
  function UnlessUndefined(v: Value, d: Value): Value {
    if v != Undefined then v else d
  }

  /** The normalisation of `refreshSettings` (the vertical position is stored
      under `verticalPos`). */
  function Normalize(prefs: map<string, Value>): Settings {
    Settings(
      Or(Get(prefs, "dockPosition"), Str("left")),
      DockSizeOf(Get(prefs, "dockSize")),
      Get(prefs, "edgeTrigger") == Bool(true),
      Or(Get(prefs, "handlerIcon"), Str("")),
      Or(Get(prefs, "accentColor"), Str("#007aff")),
      Get(prefs, "showTooltips") != Bool(false),
      Or(Get(prefs, "separatorStyle"), Str("glass")),
      Get(prefs, "enableShadow") != Bool(false),
      Or(Get(prefs, "hoverStyle"), Str("glow")),
      Get(prefs, "enableAccent") != Bool(false),
      Get(prefs, "showSettings") != Bool(false),
      UnlessUndefined(Get(prefs, "backdropBlur"), Num(10)),
      Or(Get(prefs, "iconShape"), Str("12px")),
      UnlessUndefined(Get(prefs, "idleOpacity"), Num(100)),
      Or(Get(prefs, "verticalPos"), Num(50)),
      Or(Get(prefs, "lineThickness"), Num(3)),
      Get(prefs, "persistentLine") == Bool(true))
  }

  /** An empty store gives the initial settings. */
  lemma NormalizeEmpty()
    ensures Normalize(map[]) == Defaults
  {
    ParseIntNotANumber("undefined");
    assert DockSizeOf(Undefined) == 48;
  }

  /** The fallbacks that differ in how they treat zero and false. */
  lemma NormalizeFallbacks(prefs: map<string, Value>)
    ensures var s := Normalize(prefs);
      && (Get(prefs, "verticalPos") == Num(0) ==> s.userVerticalPos == Num(50))
      && (Get(prefs, "backdropBlur") == Num(0) ==> s.backdropBlur == Num(0))
      && (Get(prefs, "idleOpacity") == Num(0) ==> s.idleOpacity == Num(0))
      && (s.backdropBlur == Num(10) <==> Get(prefs, "backdropBlur") in {Undefined, Num(10)})
      && (s.edgeTrigger <==> Get(prefs, "edgeTrigger") == Bool(true))
      && (s.persistentLine <==> Get(prefs, "persistentLine") == Bool(true))
      && (s.showTooltips <==> Get(prefs, "showTooltips") != Bool(false))
      && (s.showSettings <==> Get(prefs, "showSettings") != Bool(false))
      && (s.enableShadow <==> Get(prefs, "enableShadow") != Bool(false))
      && (s.enableAccent <==> Get(prefs, "enableAccent") != Bool(false))
      && (Get(prefs, "dockSize") == Num(0) ==> s.dockSize == 48)
  {
    ParseIntValueOfNum(0);
  }

  /** Every `a || b` field keeps a truthy stored value and otherwise (absent,
      `null`, `""`, `0`, `false`) takes the page's default. */
  lemma NormalizeOrLayout(prefs: map<string, Value>)
    ensures var s := Normalize(prefs);
      && (Truthy(Get(prefs, "dockPosition")) ==> s.dockPosition == Get(prefs, "dockPosition"))
      && (!Truthy(Get(prefs, "dockPosition")) ==> s.dockPosition == Str("left"))
      && (Truthy(Get(prefs, "handlerIcon")) ==> s.handlerIcon == Get(prefs, "handlerIcon"))
      && (!Truthy(Get(prefs, "handlerIcon")) ==> s.handlerIcon == Str(""))
      && (Truthy(Get(prefs, "verticalPos")) ==> s.userVerticalPos == Get(prefs, "verticalPos"))
      && (!Truthy(Get(prefs, "verticalPos")) ==> s.userVerticalPos == Num(50))
      && (Truthy(Get(prefs, "lineThickness")) ==> s.lineThickness == Get(prefs, "lineThickness"))
      && (!Truthy(Get(prefs, "lineThickness")) ==> s.lineThickness == Num(3))
  {
  }

  /** The `a || b` style fields. */
  lemma NormalizeOrStyle(prefs: map<string, Value>)
    ensures var s := Normalize(prefs);
      && (Truthy(Get(prefs, "accentColor")) ==> s.accentColor == Get(prefs, "accentColor"))
      && (!Truthy(Get(prefs, "accentColor")) ==> s.accentColor == Str("#007aff"))
      && (Truthy(Get(prefs, "separatorStyle")) ==> s.separatorStyle == Get(prefs, "separatorStyle"))
      && (!Truthy(Get(prefs, "separatorStyle")) ==> s.separatorStyle == Str("glass"))
      && (Truthy(Get(prefs, "hoverStyle")) ==> s.hoverStyle == Get(prefs, "hoverStyle"))
      && (!Truthy(Get(prefs, "hoverStyle")) ==> s.hoverStyle == Str("glow"))
      && (Truthy(Get(prefs, "iconShape")) ==> s.iconShape == Get(prefs, "iconShape"))
      && (!Truthy(Get(prefs, "iconShape")) ==> s.iconShape == Str("12px"))
  {
  }

  /** The fields kept unless undefined: any defined value, falsy or not, is
      kept; only an absent one takes the default. */
  lemma NormalizeUnlessUndefined(prefs: map<string, Value>)
    ensures var s := Normalize(prefs);
      && (Get(prefs, "backdropBlur") != Undefined ==> s.backdropBlur == Get(prefs, "backdropBlur"))
      && (Get(prefs, "backdropBlur") == Undefined ==> s.backdropBlur == Num(10))
      && (Get(prefs, "idleOpacity") != Undefined ==> s.idleOpacity == Get(prefs, "idleOpacity"))
      && (Get(prefs, "idleOpacity") == Undefined ==> s.idleOpacity == Num(100))
  {
  }

  /** A nonzero size is kept, whether stored as a number or as a string such
      as "64px". */
  lemma DockSizeKept(n: int, unit: string)
    requires n != 0
    requires unit == [] || (!IsDecimalDigit(unit[0]) && unit[0] != 'x' && unit[0] != 'X')
    ensures DockSizeOf(Num(n)) == n
    ensures DockSizeOf(Str(IntToString(n) + unit)) == n
  {
    ParseIntValueOfNum(n);
    ParseIntOfIntToString(n, unit);
  }

  /** The keys and values a settings record stores as. */
  function Stored(s: Settings): map<string, Value> {
    map[
      "dockPosition" := s.dockPosition, "dockSize" := Num(s.dockSize), "edgeTrigger" := Bool(s.edgeTrigger),
      "handlerIcon" := s.handlerIcon, "accentColor" := s.accentColor, "showTooltips" := Bool(s.showTooltips),
      "separatorStyle" := s.separatorStyle, "enableShadow" := Bool(s.enableShadow), "hoverStyle" := s.hoverStyle,
      "enableAccent" := Bool(s.enableAccent), "showSettings" := Bool(s.showSettings),
      "backdropBlur" := s.backdropBlur, "iconShape" := s.iconShape, "idleOpacity" := s.idleOpacity,
      "verticalPos" := s.userVerticalPos, "lineThickness" := s.lineThickness,
      "persistentLine" := Bool(s.persistentLine)]
  }

  /** The settings records normalisation can produce: every `||` field is
      truthy (the handler icon may also be the empty default), the size is
      nonzero and the fields kept unless undefined are defined. */
  predicate Normal(s: Settings) {
    && Truthy(s.dockPosition) && s.dockSize != 0 && (Truthy(s.handlerIcon) || s.handlerIcon == Str(""))
    && Truthy(s.accentColor) && Truthy(s.separatorStyle) && Truthy(s.hoverStyle)
    && s.backdropBlur != Undefined && Truthy(s.iconShape) && s.idleOpacity != Undefined
    && Truthy(s.userVerticalPos) && Truthy(s.lineThickness)
  }

  lemma NormalizeIsNormal(prefs: map<string, Value>)
    ensures Normal(Normalize(prefs))
  {
  }

  /** Reading a stored record back, key by key: the layout keys. */
  lemma StoredLayoutLookups(s: Settings)
    ensures var st := Stored(s);
      && Get(st, "dockPosition") == s.dockPosition && Get(st, "dockSize") == Num(s.dockSize)
      && Get(st, "edgeTrigger") == Bool(s.edgeTrigger) && Get(st, "handlerIcon") == s.handlerIcon
      && Get(st, "verticalPos") == s.userVerticalPos && Get(st, "lineThickness") == s.lineThickness
  {
  }

  /** The flag keys. */
  lemma StoredFlagLookups(s: Settings)
    ensures var st := Stored(s);
      && Get(st, "showTooltips") == Bool(s.showTooltips) && Get(st, "enableShadow") == Bool(s.enableShadow)
      && Get(st, "enableAccent") == Bool(s.enableAccent) && Get(st, "showSettings") == Bool(s.showSettings)
      && Get(st, "persistentLine") == Bool(s.persistentLine)
  {
  }

  /** The style keys. */
  lemma StoredStyleLookups(s: Settings)
    ensures var st := Stored(s);
      && Get(st, "accentColor") == s.accentColor && Get(st, "separatorStyle") == s.separatorStyle
      && Get(st, "hoverStyle") == s.hoverStyle && Get(st, "backdropBlur") == s.backdropBlur
      && Get(st, "iconShape") == s.iconShape && Get(st, "idleOpacity") == s.idleOpacity
  {
  }

  lemma DockSizeOfNum(n: int)
    requires n != 0
    ensures DockSizeOf(Num(n)) == n
  {
    ParseIntValueOfNum(n);
  }

  /** A normal record, stored and read back, is unchanged. */
  lemma StoredNormalReadsBack(s: Settings)
    requires Normal(s)
    ensures Normalize(Stored(s)) == s
  {
    StoredLayoutLookups(s);
    StoredFlagLookups(s);
    StoredStyleLookups(s);
    DockSizeOfNum(s.dockSize);
  }

  /** Normalisation is a fixpoint: storing normalised settings and reading
      them back gives the same settings. */
  lemma NormalizeStable(prefs: map<string, Value>)
    ensures Normalize(Stored(Normalize(prefs))) == Normalize(prefs)
  {
    NormalizeIsNormal(prefs);
    StoredNormalReadsBack(Normalize(prefs));
  }

  /** The side classes. */
  datatype Side = LeftSide | RightSide | TopSide | BottomSide

  /** Exactly one side class; any value other than right, bottom or top
      gives the left side. */
  function SideClass(s: Settings): (side: Side)
    ensures side == RightSide <==> s.dockPosition == Str("right")
    ensures side == BottomSide <==> s.dockPosition == Str("bottom")
    ensures side == TopSide <==> s.dockPosition == Str("top")
    ensures side == LeftSide <==> s.dockPosition !in {Str("right"), Str("bottom"), Str("top")}
  {
    if s.dockPosition == Str("right") then RightSide
    else if s.dockPosition == Str("bottom") then BottomSide
    else if s.dockPosition == Str("top") then TopSide
    else LeftSide
  }

  /** The geometry in `clampDockPosition` and `toggleStack` treats only
      left and right as a vertical dock. */
  predicate IsVertical(s: Settings) {
    s.dockPosition == Str("left") || s.dockPosition == Str("right")
  }

  /** An unknown position is drawn on the left side but placed as a
      horizontal dock. */
  lemma UnknownPositionIsLeftButHorizontal(s: Settings)
    requires s.dockPosition == Str("center")
    ensures SideClass(s) == LeftSide && !IsVertical(s)
  {
  }

  datatype Hover = HoverGlow | HoverLine | HoverNone

  /** Exactly one hover class; unknown values give `hover-none`. */
  function HoverClass(s: Settings): (h: Hover)
    ensures h == HoverGlow <==> s.hoverStyle == Str("glow")
    ensures h == HoverLine <==> s.hoverStyle == Str("line")
    ensures h == HoverNone <==> s.hoverStyle !in {Str("glow"), Str("line")}
  {
    if s.hoverStyle == Str("glow") then HoverGlow
    else if s.hoverStyle == Str("line") then HoverLine
    else HoverNone
  }

  /** The classes toggled from the booleans. */
  datatype Toggles = Toggles(tooltips: bool, shadow: bool, theme: bool, persistentLine: bool)

  function TogglesOf(s: Settings): (t: Toggles)
    ensures t.tooltips == s.showTooltips && t.shadow == s.enableShadow
    ensures t.theme == s.enableAccent && t.persistentLine == s.persistentLine
  {
    Toggles(s.showTooltips, s.enableShadow, s.enableAccent, s.persistentLine)
  }

  /** `'style-' + settings.separatorStyle` */
  function StyleClass(s: Settings): (c: string)
    ensures |c| >= 6 && c[..6] == "style-" && c[6..] == ToStr(s.separatorStyle)
  {
    "style-" + ToStr(s.separatorStyle)
  }

  /** The handler's background: the custom icon when it is a string that is
      not blank, the bundled icon when it is falsy or blank. A truthy
      non-string has no `trim` and the call throws. */
  datatype HandlerImage = CustomImage(url: string) | BundledImage | TrimThrows

  function HandlerImageOf(s: Settings): (h: HandlerImage)
    ensures h.CustomImage? <==> s.handlerIcon.Str? && Trim(s.handlerIcon.s) != ""
    ensures h.CustomImage? ==> h.url == s.handlerIcon.s
    ensures h == BundledImage <==> !Truthy(s.handlerIcon) || (s.handlerIcon.Str? && Trim(s.handlerIcon.s) == "")
  {
    if !Truthy(s.handlerIcon) then BundledImage
    else match s.handlerIcon
      case Str(t) => if Trim(t) != "" then CustomImage(t) else BundledImage
      case _ => TrimThrows
  }

  // ---------------------------------------------------------------------------
  // The settings-change allow-list

  const VisualKeys: seq<string> := [
    "dockPosition", "dockSize", "edgeTrigger", "verticalPos",
    "handlerIcon", "accentColor", "showTooltips", "separatorStyle",
    "enableShadow", "hoverStyle", "enableAccent",
    "backdropBlur", "iconShape", "idleOpacity",
    "lineThickness", "persistentLine"]

  /** `namespace === 'sync' && visualKeys.some(key => changes[key])`; a
      change record is an object, so a changed key is always truthy. */
  predicate NeedsStyleUpdate(namespace: string, changes: set<string>) {
    namespace == "sync" && exists i :: 0 <= i < |VisualKeys| && VisualKeys[i] in changes
  }

  /** Which changes restyle the dock: a sync change of a listed key; neither
      `showSettings` nor `customIcons` is listed. */
  lemma StyleUpdateAllowList(namespace: string, changes: set<string>)
    ensures NeedsStyleUpdate(namespace, changes) <==>
      namespace == "sync" && exists k :: k in changes && k in VisualKeys
    ensures "showSettings" !in VisualKeys && "customIcons" !in VisualKeys
    ensures !NeedsStyleUpdate("sync", {"showSettings", "customIcons"})
    ensures NeedsStyleUpdate("sync", {"dockPosition"}) && !NeedsStyleUpdate("local", {"dockPosition"})
  {
    if namespace == "sync" && exists k :: k in changes && k in VisualKeys {
      var k :| k in changes && k in VisualKeys;
      var i :| 0 <= i < |VisualKeys| && VisualKeys[i] == k;
    }
    assert VisualKeys[0] == "dockPosition";
  }

  // ---------------------------------------------------------------------------
  // Geometry

  const Padding: real := 10.0

  /** An element's box in viewport coordinates. */
  datatype Rect = Rect(top: real, left: real, width: real, height: real)

  function Bottom(r: Rect): real { r.top + r.height }
  function Right(r: Rect): real { r.left + r.width }

  /** The shift `clampDockPosition` applies along the dock's axis, given the
      near and far edges of the dock and the viewport extent: back by the
      overflow past `extent - 10`, else forward by the underflow below 10. */
  method DockShift(near: real, far: real, extent: real) returns (shift: real)
    // An overflow is corrected exactly, so the far edge lands on the padding.
    ensures far > extent - Padding ==> shift < 0.0 && far + shift == extent - Padding
    // Otherwise an underflow is corrected exactly, so the near edge lands on the padding.
    ensures far <= extent - Padding && near < Padding ==> shift > 0.0 && near + shift == Padding
    // At most one adjustment, and none when the dock is inside.
    ensures shift != 0.0 <==> far > extent - Padding || near < Padding
    // A dock that fits in the padded viewport ends up entirely inside it.
    ensures near <= far && far - near <= extent - 2.0 * Padding ==>
      Padding <= near + shift && far + shift <= extent - Padding
  {
    shift := 0.0;
    if far > extent - Padding {
      var overflow := far - (extent - Padding);
      shift := -overflow;
    } else if near < Padding {
      var underflow := Padding - near;
      shift := underflow;
    }
  }

  /** Where `toggleStack` puts a stack along the dock's axis: centred on the
      anchor, raised to the padding, then lowered so the far edge stays
      inside the padding. */
  function CentredPosition(start: real, size: real, stackSize: real, extent: real): (pos: real)
    ensures pos + stackSize <= extent - Padding
    ensures stackSize <= extent - 2.0 * Padding ==> pos >= Padding
    // The far-edge clamp wins when the stack is too long for the viewport.
    ensures stackSize > extent - 2.0 * Padding ==> pos == extent - stackSize - Padding
    // A stack that fits where it is centred stays centred.
    ensures var ideal := start + size / 2.0 - stackSize / 2.0;
      Padding <= ideal && ideal + stackSize <= extent - Padding ==> pos == ideal
    // Otherwise it touches one padded edge.
    ensures var ideal := start + size / 2.0 - stackSize / 2.0;
      !(Padding <= ideal && ideal + stackSize <= extent - Padding) ==>
        pos == Padding || pos + stackSize == extent - Padding
  {
    var ideal := start + size / 2.0 - stackSize / 2.0;
    var raised := if ideal < Padding then Padding else ideal;
    if raised + stackSize > extent - Padding then extent - stackSize - Padding else raised
  }

  /** The statements of `toggleStack` that compute `idealTop` (or `idealLeft`). */
  method CentreOnAnchor(start: real, size: real, stackSize: real, extent: real) returns (pos: real)
    ensures pos == CentredPosition(start, size, stackSize, extent)
  {
    var idealTop := start + (size / 2.0) - (stackSize / 2.0);
    if idealTop < Padding {
      idealTop := Padding;
    }
    if idealTop + stackSize > extent - Padding {
      idealTop := extent - stackSize - Padding;
    }
    pos := idealTop;
  }

  /** A stack's top-left corner. */
  datatype Corner = Corner(top: real, left: real)

  /** The stack's top-left corner: along the dock it is centred on the
      anchor; across it, 15 away from the anchor on the side away from the
      dock's edge. */
  function StackCorner(position: Value, anchor: Rect, stackW: real, stackH: real, winW: real, winH: real): (c: Corner)
    // A vertical dock: the stack is centred on the anchor vertically, kept inside the padding.
    ensures position == Str("left") || position == Str("right") ==>
      && c.top == CentredPosition(anchor.top, anchor.height, stackH, winH)
      && c.top + stackH <= winH - Padding && (stackH <= winH - 2.0 * Padding ==> c.top >= Padding)
      && (var ideal := anchor.top + anchor.height / 2.0 - stackH / 2.0;
          Padding <= ideal && ideal + stackH <= winH - Padding ==> c.top == ideal)
    ensures position == Str("left") ==> c.left == Right(anchor) + 15.0
    ensures position == Str("right") ==> c.left + stackW == anchor.left - 15.0
    // A horizontal dock (any other value): centred horizontally, kept inside the padding.
    ensures position != Str("left") && position != Str("right") ==>
      && c.left == CentredPosition(anchor.left, anchor.width, stackW, winW)
      && c.left + stackW <= winW - Padding && (stackW <= winW - 2.0 * Padding ==> c.left >= Padding)
      && (var ideal := anchor.left + anchor.width / 2.0 - stackW / 2.0;
          Padding <= ideal && ideal + stackW <= winW - Padding ==> c.left == ideal)
    ensures position == Str("bottom") ==> c.top + stackH == anchor.top - 15.0
    ensures position != Str("left") && position != Str("right") && position != Str("bottom") ==>
      c.top == Bottom(anchor) + 15.0
  {
    if position == Str("left") || position == Str("right") then
      var top := CentredPosition(anchor.top, anchor.height, stackH, winH);
      Corner(top, if position == Str("left") then Right(anchor) + 15.0 else anchor.left - stackW - 15.0)
    else
      var left := CentredPosition(anchor.left, anchor.width, stackW, winW);
      Corner(if position == Str("bottom") then anchor.top - stackH - 15.0 else Bottom(anchor) + 15.0, left)
  }

  /** The statements of `toggleStack` that place the stack. */
  method PlaceStack(position: Value, anchor: Rect, stackW: real, stackH: real, winW: real, winH: real)
    returns (top: real, left: real)
    ensures Corner(top, left) == StackCorner(position, anchor, stackW, stackH, winW, winH)
  {
    if position == Str("left") || position == Str("right") {
      top := CentreOnAnchor(anchor.top, anchor.height, stackH, winH);
      if position == Str("left") {
        left := Right(anchor) + 15.0;
      } else {
        left := anchor.left - stackW - 15.0;
      }
    } else {
      left := CentreOnAnchor(anchor.left, anchor.width, stackW, winW);
      if position == Str("bottom") {
        top := anchor.top - stackH - 15.0;
      } else {
        top := Bottom(anchor) + 15.0;
      }
    }
  }

  /** The context menu's corner as `showContextMenu` computes it: below
      right of the cursor, flipped above or to the left when it would cross
      the bottom or right edge; only the vertical position is then kept at 5
      or more. */
  method MenuPositionAsWritten(cx: real, cy: real, w: real, h: real, winW: real, winH: real)
    returns (x: real, y: real)
    ensures y >= 5.0
    ensures cy >= 0.0 && cy + 5.0 + h <= winH ==> y == cy + 5.0
    // Flipped above the cursor, then raised to 5 if that is off the top.
    ensures cy + 5.0 + h > winH ==> y == (if cy - h - 5.0 < 5.0 then 5.0 else cy - h - 5.0)
    ensures cx + 5.0 + w <= winW ==> x == cx + 5.0
    ensures cx + 5.0 + w > winW ==> x == cx - w - 5.0
  {
    x := cx + 5.0;
    y := cy + 5.0;
    if y + h > winH {
      y := cy - h - 5.0;
    }
    if x + w > winW {
      x := cx - w - 5.0;
    }
    if y < 5.0 {
      y := 5.0;
    }
  }

  /** In a window 250 wide, a 180-wide menu opened at x = 100 is flipped to
      x = -85: its left part is off screen. */
  method MenuLeavesLeftEdge() returns (x: real)
    ensures x < 0.0
  {
    var y;
    x, y := MenuPositionAsWritten(100.0, 100.0, 180.0, 100.0, 250.0, 800.0);
  }

  /** A context menu's top-left corner. */
  datatype Point = Point(x: real, y: real)

  /** The context menu's corner with the horizontal position kept at 5 or
      more like the vertical one: the menu's top-left corner is always on
      screen, and it matches the written rule whenever that rule does. */
  function MenuCorner(cx: real, cy: real, w: real, h: real, winW: real, winH: real): (p: Point)
    ensures p.x >= 5.0 && p.y >= 5.0
    ensures cy >= 0.0 && cy + 5.0 + h <= winH ==> p.y == cy + 5.0
    ensures cy + 5.0 + h > winH ==> p.y == (if cy - h - 5.0 < 5.0 then 5.0 else cy - h - 5.0)
    ensures cx >= 0.0 && cx + 5.0 + w <= winW ==> p.x == cx + 5.0
    ensures cx + 5.0 + w > winW ==> p.x == (if cx - w - 5.0 < 5.0 then 5.0 else cx - w - 5.0)
    // A menu narrow enough for the window, opened inside it, does not cross the right edge.
    ensures cx <= winW && w + 10.0 <= winW ==> p.x + w <= winW
  {
    var y := if cy + 5.0 + h > winH then cy - h - 5.0 else cy + 5.0;
    var x := if cx + 5.0 + w > winW then cx - w - 5.0 else cx + 5.0;
    Point(if x < 5.0 then 5.0 else x, if y < 5.0 then 5.0 else y)
  }

  /** `showContextMenu`'s statements with the horizontal clamp added. */
  method MenuPosition(cx: real, cy: real, w: real, h: real, winW: real, winH: real)
    returns (x: real, y: real)
    ensures Point(x, y) == MenuCorner(cx, cy, w, h, winW, winH)
  {
    x := cx + 5.0;
    y := cy + 5.0;
    if y + h > winH {
      y := cy - h - 5.0;
    }
    if x + w > winW {
      x := cx - w - 5.0;
    }
    if y < 5.0 {
      y := 5.0;
    }
    if x < 5.0 {
      x := 5.0;
    }
  }

  /** The magnification `mousemove` gives an item at `distance` from the
      cursor along the dock; `sine(v)` stands for `Math.sin(v * Math.PI / 2)`. */
  function FisheyeScale(distance: real, sine: real -> real): (scale: real)
    ensures distance >= 150.0 ==> scale == 1.0
    ensures 0.0 <= sine(1.0 - distance / 150.0) <= 1.0 ==> 1.0 <= scale <= 1.8
  {
    if distance < 150.0 then 1.0 + 0.8 * sine(1.0 - distance / 150.0) else 1.0
  }

  /** The width and height `mousemove` gives an item of a dock whose base
      size is `dockSize`: the base size beyond the range, and at most 1.8
      times it within. */
  function MagnifiedSize(dockSize: int, distance: real, sine: real -> real): (size: real)
    ensures distance >= 150.0 ==> size == dockSize as real
    ensures dockSize >= 0 && 0.0 <= sine(1.0 - distance / 150.0) <= 1.0 ==>
      dockSize as real <= size <= 1.8 * dockSize as real
  {
    dockSize as real * FisheyeScale(distance, sine)
  }

  // ---------------------------------------------------------------------------
  // The context menu

  datatype Command =
    | AddCurrentPage | OpenSettingsPage | OpenInNewWindow | OpenInIncognito
    | EditName | ChangeIcon | RemoveFromDock | ToggleSettingsIcon(caption: string)

  /** The global entry's label follows the page's own copy of `showSettings`. */
  function ToggleLabel(showSettings: bool): string {
    if showSettings then "Hide Settings Icon" else "Show Settings Icon"
  }

  /** The commands `showContextMenu` offers for an entry. */
  function MenuCommands(e: Entry, showSettings: bool): (cmds: seq<Command>)
    ensures |cmds| >= 3 && cmds[0] == AddCurrentPage && cmds[|cmds| - 1] == ToggleSettingsIcon(ToggleLabel(showSettings))
    // The settings item offers only "Open Settings" besides the two global entries.
    ensures e.id == SettingsId ==> cmds == [AddCurrentPage, OpenSettingsPage, ToggleSettingsIcon(ToggleLabel(showSettings))]
    ensures e.id == SettingsId ==> EditName !in cmds && ChangeIcon !in cmds && RemoveFromDock !in cmds
    ensures e.id != SettingsId ==> OpenSettingsPage !in cmds
    // Every other entry: the five entry commands in menu order, each once.
    ensures e.id != SettingsId ==>
      cmds == [AddCurrentPage, OpenInNewWindow, OpenInIncognito, EditName, ChangeIcon, RemoveFromDock,
               ToggleSettingsIcon(ToggleLabel(showSettings))]
    ensures e.id != SettingsId ==>
      forall c :: c in [OpenInNewWindow, OpenInIncognito, EditName, ChangeIcon, RemoveFromDock] ==> c in cmds
  {
    var global := [ToggleSettingsIcon(ToggleLabel(showSettings))];
    if e.id == SettingsId then [AddCurrentPage, OpenSettingsPage] + global
    else [AddCurrentPage, OpenInNewWindow, OpenInIncognito, EditName, ChangeIcon, RemoveFromDock] + global
  }

  /** "Edit Name": sent only for a non-empty answer that differs from the
      current title; a cancelled prompt (`None`) sends nothing. */
  function RenameRequest(e: Entry, answer: Option<string>): (r: Option<Request>)
    ensures r.Some? <==> Present(answer) && answer.value != e.title
    ensures r.Some? ==> r.value == RenameBookmark(e.id, answer.value)
  {
    if answer.Some? && answer.value != "" && answer.value != e.title then Some(RenameBookmark(e.id, answer.value))
    else None
  }

  /** "Change Icon URL": sent for any answer but a cancelled prompt; an
      empty answer is sent too, and clears the custom icon. */
  function IconRequest(e: Entry, answer: Option<string>): (r: Option<Request>)
    ensures r.Some? <==> answer.Some?
    ensures r.Some? ==> r.value == UpdateIcon(e.id, answer)
  {
    if answer.Some? then Some(UpdateIcon(e.id, answer)) else None
  }

  /** "Remove from Dock": sent only once confirmed. */
  function RemoveRequest(e: Entry, confirmed: bool): (r: Option<Request>)
    ensures r.Some? <==> confirmed
    ensures r.Some? ==> r.value == DeleteBookmark(e.id)
  {
    if confirmed then Some(DeleteBookmark(e.id)) else None
  }

  /** An empty icon answer reaches the background as a reset: the icon map
      loses the entry's key, so it is shown with its default icon again. */
  lemma EmptyIconAnswerResets(e: Entry, icons: map<string, string>)
    ensures IconRequest(e, Some("")) == Some(UpdateIcon(e.id, Some("")))
    ensures !HasCustomIcon(SetIcon(icons, e.id, Some("")), e.id)
  {
  }

  /** `child.url || '#'`: the link a stack row points to. */
  function StackHref(e: Entry): (href: string)
    ensures Present(e.url) ==> href == e.url.value
    ensures !Present(e.url) ==> href == "#"
  {
    if Present(e.url) then e.url.value else "#"
  }
}
