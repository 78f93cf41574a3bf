/**
 * The UI service: the theme kept in local storage and detected from it or
 * from the system preference, the keyboard shortcuts (Shift+T and
 * Shift+1..8), the "Event Data" folders of the dat.GUI menu and of the
 * Phoenix menu that are replaced rather than duplicated, the geometry
 * folders, the cut sliders of a collection, and the preset views.
 */
module UiService {
  import opened Wrappers

  // ---------------------------------------------------------------------------
  // Theme
  // ---------------------------------------------------------------------------

  /** `localStorage`: the value stored under each key. */
  type Storage = map<string, string>

  const ThemeKey := "theme"

  function ThemeName(dark: bool): string {
    if dark then "dark" else "light"
  }

  /**
   * detectColorScheme's choice: a non-empty stored theme decides (dark
   * exactly when it is "dark"); otherwise dark exactly when `matchMedia`
   * exists and the system prefers a dark scheme.
   */
  function DetectDark(storage: Storage, matchMediaAvailable: bool, prefersDark: bool): bool {
    if ThemeKey in storage && storage[ThemeKey] != "" then storage[ThemeKey] == "dark"
    else matchMediaAvailable && prefersDark
  }

  /** setDarkTheme's write to local storage. */
  function StoreTheme(storage: Storage, dark: bool): (r: Storage)
    ensures ThemeKey in r && r[ThemeKey] == ThemeName(dark)
    ensures forall k :: k in storage && k != ThemeKey ==> k in r && r[k] == storage[k]
  {
    storage[ThemeKey := ThemeName(dark)]
  }

  /**
   * Detecting right after setting a theme gives that theme back, whatever
   * the system preference or the availability of matchMedia: the stored
   * value overrides them.
   */
  lemma DetectAfterSet(storage: Storage, dark: bool, matchMediaAvailable: bool, prefersDark: bool)
    ensures DetectDark(StoreTheme(storage, dark), matchMediaAvailable, prefersDark) == dark
  {
    var s := StoreTheme(storage, dark);
    assert s[ThemeKey] == ThemeName(dark);
    if !dark {
      assert ThemeName(dark)[0] == 'l';
    }
  }

  /**
   * A stored theme decides the detected one both ways, and without one the
   * system preference does; any stored value but exactly "dark" (say
   * "Dark") means light.
   */
  lemma DetectDecides(storage: Storage, matchMediaAvailable: bool, prefersDark: bool)
    ensures ThemeKey in storage && storage[ThemeKey] != "" ==>
      (DetectDark(storage, matchMediaAvailable, prefersDark) <==> storage[ThemeKey] == "dark")
    ensures !(ThemeKey in storage && storage[ThemeKey] != "") ==>
      (DetectDark(storage, matchMediaAvailable, prefersDark) <==> matchMediaAvailable && prefersDark)
    ensures DetectDark(storage[ThemeKey := "Dark"], matchMediaAvailable, prefersDark) == false
  {
    assert "Dark"[0] != "dark"[0];
  }

  // ---------------------------------------------------------------------------
  // Preset views and the keyboard
  // ---------------------------------------------------------------------------

  datatype Vec3 = Vec3(x: real, y: real, z: real)

  datatype PresetView = PresetView(name: string, cameraPos: Vec3)

  /** The part of the configuration the service reads. */
  datatype Configuration = Configuration(presetViews: seq<PresetView>, enableDatGUIMenu: bool, hasPhoenixMenuRoot: bool)

  const ShiftT := 84

  /**
   * The preset chosen by Shift and a key: for key codes strictly between
   * 48 and 57 the index is |49 - keyCode|, which is never negative there.
   */
  function PresetIndex(keyCode: int): (r: Option<nat>)
    ensures r.Some? ==> r.value < 8
  {
    if 48 < keyCode < 57 then Some(if 49 - keyCode < 0 then keyCode - 49 else 49 - keyCode) else None
  }

  /** The keys '1'..'8' (codes 49..56) select the presets 0..7 in order; '0' and '9' select nothing. */
  lemma PresetIndexExactly(keyCode: int, i: nat)
    ensures PresetIndex(keyCode) == Some(i) <==> 49 <= keyCode <= 56 && i == keyCode - 49
    ensures PresetIndex(48) == None && PresetIndex(57) == None
  {
  }

  /** Each of the first eight presets has its key. */
  lemma PresetKeyFor(i: nat)
    requires i < 8
    ensures PresetIndex(49 + i) == Some(i)
  {
  }

  /** What a keydown does: whether the theme flips and which preset is shown. */
  datatype KeyResponse = KeyResponse(toggleTheme: bool, view: Option<nat>)

  function KeyResponseFor(shiftKey: bool, keyCode: int, presets: Option<seq<PresetView>>): KeyResponse {
    if !shiftKey then KeyResponse(false, None)
    else
      var i := PresetIndex(keyCode);
      KeyResponse(keyCode == ShiftT,
                  if i.Some? && presets.Some? && i.value < |presets.value| then i else None)
  }

  /**
   * Only Shift+T flips the theme; a preset is shown exactly for Shift and
   * one of the keys '1'..'8' whose preset exists. Without Shift nothing
   * happens, and the two never happen together.
   */
  lemma KeyResponseExactly(shiftKey: bool, keyCode: int, presets: Option<seq<PresetView>>, i: nat)
    ensures KeyResponseFor(shiftKey, keyCode, presets).toggleTheme <==> shiftKey && keyCode == 84
    ensures KeyResponseFor(shiftKey, keyCode, presets).view == Some(i) <==>
      shiftKey && 49 <= keyCode <= 56 && i == keyCode - 49 && presets.Some? && i < |presets.value|
    ensures !(KeyResponseFor(shiftKey, keyCode, presets).toggleTheme && KeyResponseFor(shiftKey, keyCode, presets).view.Some?)
  {
    PresetIndexExactly(keyCode, i);
  }

  // ---------------------------------------------------------------------------
  // Menus
  // ---------------------------------------------------------------------------

  /**
   * A cut on a collection: the field it filters and its bounds, which the
   * Phoenix-menu sliders change in place.
   */
  class Cut {
    const field: string
    var minValue: real
    var maxValue: real

    constructor (field: string, minValue: real, maxValue: real)
      ensures this.field == field && this.minValue == minValue && this.maxValue == maxValue
    {
      this.field := field;
      this.minValue := minValue;
      this.maxValue := maxValue;
    }
  }

  /** What a slider does when moved. */
  datatype SliderAction =
    | SetOpacity                                            // one of the opacity sliders
    | SetCutBound(collection: string, cut: Cut, isMin: bool)   // a cut's "Min"/"Max" slider

  /** A control on a menu folder or node, with the state it shows. */
  datatype Control =
    | Toggle(title: string, value: bool)         // a dat.GUI boolean bound to `guiParameters`
    | Checkbox(title: string, checked: bool)     // a Phoenix-menu checkbox
    | Slider(title: string, min: real, max: real, action: SliderAction)
    | ColorPicker(title: string)
    | Caption(title: string)
    | Button(title: string)

  /** A folder or node: its name, the id of its parent (0 for the root) and its controls. */
  datatype MenuNode = MenuNode(name: string, parent: nat, controls: seq<Control>)

  /** A menu as the nodes below its root, by id; the root has id 0 and no entry. */
  type Menu = map<nat, MenuNode>

  const Root: nat := 0
  const EventDataName := "Event Data"
  /** SceneManager.GEOMETRIES_ID, the geometry folder's name. */
  const GeometriesName := "Geometries"

  /** The ids of the children of `parent` called `name`. */
  function Named(m: Menu, parent: nat, name: string): set<nat> {
    set id | id in m && m[id].parent == parent && m[id].name == name
  }

  /** The dat.GUI "Event Data" folder: Show and Depth Test, both on. */
  const EventDataFolder := MenuNode(EventDataName, Root, [Toggle("Show", true), Toggle("Depth Test", true)])
  /** The Phoenix-menu "Event Data" node: Depth Test checked. */
  const EventDataNode := MenuNode(EventDataName, Root, [Checkbox("Depth Test", true)])

  /**
   * Every node hangs below the root or below an older node of the menu:
   * a folder or node is only ever added under one that is already there.
   */
  predicate Ordered(m: Menu) {
    forall id :: id in m ==> m[id].parent == Root || (m[id].parent in m && m[id].parent < id)
  }

  /** Whether `id` is `top` or lies below it, following the parents up from `id`. */
  predicate Below(m: Menu, id: nat, top: nat)
    decreases id
  {
    id == top || (id in m && m[id].parent != Root && m[id].parent < id && Below(m, m[id].parent, top))
  }

  /** The node `top` and everything below it. */
  function Subtree(m: Menu, top: nat): set<nat> {
    set id | id in m && Below(m, id, top)
  }

  /**
   * The previous "Event Data" node, if any, removed together with
   * everything below it (`remove()` and `removeFolder` detach the whole
   * folder), and `node` added under the fresh id `id`.
   */
  function ReplaceFolder(m: Menu, previous: Option<nat>, id: nat, node: MenuNode): Menu {
    (if previous.Some? then m - Subtree(m, previous.value) else m)[id := node]
  }

  /** Not the previous node, nor anything below it. */
  predicate Kept(m: Menu, previous: Option<nat>, k: nat) {
    previous.None? || !Below(m, k, previous.value)
  }

  /**
   * Replacing keeps a single "Event Data" child of the root: when every
   * such child was the previous one, afterwards only the new one is. The
   * previous node and everything below it are gone, and every other node
   * stays as it was.
   */
  lemma ReplaceFolderKeepsOne(m: Menu, previous: Option<nat>, id: nat, node: MenuNode)
    requires id !in m && node.parent == Root && node.name == EventDataName
    requires Named(m, Root, EventDataName) <= (if previous.Some? then {previous.value} else {})
    ensures Named(ReplaceFolder(m, previous, id, node), Root, EventDataName) == {id}
    ensures var r := ReplaceFolder(m, previous, id, node);
      id in r && r[id] == node
      && forall k :: k in m && Kept(m, previous, k) ==> k in r && r[k] == m[k]
    ensures var r := ReplaceFolder(m, previous, id, node);
      forall k :: k in r ==> k == id || (k in m && Kept(m, previous, k))
  {
    var r := ReplaceFolder(m, previous, id, node);
    var p := if previous.Some? then Subtree(m, previous.value) else {};
    assert Named(r, Root, EventDataName) == (Named(m, Root, EventDataName) - p) + {id};
  }

  /**
   * No node outlives its parent: after the replacement every node still
   * hangs below the root or below an older node of the menu.
   */
  lemma ReplaceFolderOrdered(m: Menu, previous: Option<nat>, id: nat, node: MenuNode)
    requires Ordered(m) && node.parent == Root && id !in m
    ensures Ordered(ReplaceFolder(m, previous, id, node))
  {
    var r := ReplaceFolder(m, previous, id, node);
    forall k | k in r && k != id && r[k].parent != Root
      ensures r[k].parent in r && r[k].parent < k
    {
      assert Kept(m, previous, m[k].parent);
    }
  }

  /** A collection node under the old "Event Data" node goes with it. */
  lemma ReplaceFolderTakesChildren()
    ensures var m := map[5 := EventDataNode, 6 := MenuNode("Tracks", 5, [])];
      ReplaceFolder(m, Some(5), 7, EventDataNode) == map[7 := EventDataNode]
  {
    var m := map[5 := EventDataNode, 6 := MenuNode("Tracks", 5, [])];
    assert Below(m, 6, 5);
    assert Subtree(m, 5) == {5, 6};
  }

  /** Every node of `m` has an id between the root's and `next`. */
  predicate Fresh(m: Menu, next: nat) {
    forall id :: id in m ==> Root < id < next
  }

  /** The remembered "Event Data" node, if any, is in the menu, and no other child of the root has that name. */
  predicate Single(m: Menu, folder: Option<nat>) {
    && (folder.Some? ==> folder.value in m && m[folder.value].name == EventDataName && m[folder.value].parent == Root)
    && Named(m, Root, EventDataName) <= (if folder.Some? then {folder.value} else {})
  }

  /** Replacing the "Event Data" node under a fresh id keeps a menu's invariants and its geometry folder. */
  lemma ReplaceFolderValid(m: Menu, previous: Option<nat>, next: nat, node: MenuNode, geom: Option<nat>)
    requires Fresh(m, next) && Root < next && Single(m, previous) && Ordered(m)
    requires node.parent == Root && node.name == EventDataName
    requires geom.Some? ==> geom.value in m && m[geom.value].name == GeometriesName && m[geom.value].parent == Root
    ensures var r := ReplaceFolder(m, previous, next, node);
      && Fresh(r, next + 1) && Single(r, Some(next)) && Ordered(r)
      && (geom.Some? ==> geom.value in r && r[geom.value] == m[geom.value])
  {
    ReplaceFolderKeepsOne(m, previous, next, node);
    ReplaceFolderOrdered(m, previous, next, node);
    if geom.Some? {
      assert m[geom.value].name != EventDataName;
      assert Kept(m, previous, geom.value);
    }
  }

  /** A node under a fresh id, below the root or a node of the menu, keeps the ids fresh and the menu ordered. */
  lemma FreshAdd(m: Menu, next: nat, node: MenuNode)
    requires Fresh(m, next) && Root < next && Ordered(m)
    requires node.parent == Root || node.parent in m
    ensures next !in m && Fresh(m[next := node], next + 1) && Ordered(m[next := node])
  {
  }

  /** A node that is not an "Event Data" child of the root, added or changed, keeps the folder single. */
  lemma SingleUpdate(m: Menu, folder: Option<nat>, id: nat, node: MenuNode)
    requires Single(m, folder) && (node.name != EventDataName || node.parent != Root)
    requires folder.Some? ==> id != folder.value
    ensures Single(m[id := node], folder)
  {
    var p := if folder.Some? then {folder.value} else {};
    assert Named(m[id := node], Root, EventDataName) <= Named(m, Root, EventDataName);
  }

  /** The toggles bound to `guiParameters.geometries`: shown, not wireframed. */
  const GeometryToggles := [Toggle("Show", true), Toggle("Wireframe", false)]
  /** The Phoenix-menu "Detector" node: an opacity slider and an unchecked Wireframe box. */
  const DetectorNode := MenuNode("Detector", Root, [Slider("Opacity", 0.0, 1.0, SetOpacity), Checkbox("Wireframe", false)])

  /** The geometry folder addGeomFolder uses: the remembered one, or a new one under `next`. */
  function GeometryFolderId(folder: Option<nat>, next: nat): nat {
    if folder.Some? then folder.value else next
  }

  /** addGeomFolder on the dat.GUI menu: the folder made if missing, then the toggles appended to it. */
  function GeometryFolderAdded(m: Menu, folder: Option<nat>, next: nat): Menu
    requires folder.Some? ==> folder.value in m
  {
    var base := if folder.Some? then m else m[next := MenuNode(GeometriesName, Root, [])];
    var id := GeometryFolderId(folder, next);
    base[id := base[id].(controls := base[id].controls + GeometryToggles)]
  }

  /**
   * The geometry folder ends up holding its earlier controls followed by a
   * fresh pair of toggles (two pairs after two calls, since nothing is
   * removed); every other folder is unchanged and the menu's invariants
   * hold.
   */
  lemma GeometryFolderValid(m: Menu, folder: Option<nat>, next: nat, eventFolder: Option<nat>)
    requires Fresh(m, next) && Root < next && Single(m, eventFolder) && Ordered(m)
    requires folder.Some? ==> folder.value in m && m[folder.value].name == GeometriesName && m[folder.value].parent == Root
    ensures var r := GeometryFolderAdded(m, folder, next);
      var id := GeometryFolderId(folder, next);
      var n := if folder.Some? then next else next + 1;
      && Fresh(r, n) && Single(r, eventFolder) && Ordered(r)
      && id in r && r[id].name == GeometriesName && r[id].parent == Root
      && r[id].controls == (if folder.Some? then m[id].controls else []) + GeometryToggles
      && forall k :: k in m && k != id ==> k in r && r[k] == m[k]
  {
    var id := GeometryFolderId(folder, next);
    var base := if folder.Some? then m else m[next := MenuNode(GeometriesName, Root, [])];
    if folder.None? {
      FreshAdd(m, next, MenuNode(GeometriesName, Root, []));
      SingleUpdate(m, eventFolder, next, MenuNode(GeometriesName, Root, []));
    }
    var r := base[id := base[id].(controls := base[id].controls + GeometryToggles)];
    assert r == GeometryFolderAdded(m, folder, next);
    SingleUpdate(base, eventFolder, id, base[id].(controls := base[id].controls + GeometryToggles));
    assert r.Keys == base.Keys;
  }

  /** The two cut sliders for each cut, with the bounds the cut has when the sliders are made. */
  function CutSliders(collection: string, cuts: seq<Cut>): (r: seq<Control>)
    reads cuts
    ensures |r| == 2 * |cuts|
    decreases |cuts|
  {
    if cuts == [] then []
    else
      var c := cuts[|cuts| - 1];
      CutSliders(collection, cuts[..|cuts| - 1])
      + [Slider("Min " + c.field, c.minValue, c.maxValue, SetCutBound(collection, c, true)),
         Slider("Max " + c.field, c.minValue, c.maxValue, SetCutBound(collection, c, false))]
  }

  /**
   * Cut k owns sliders 2k ("Min") and 2k+1 ("Max"), each ranging over the
   * cut's bounds at creation and moving only its own bound of that cut.
   */
  lemma {:induction false} CutSlidersAt(collection: string, cuts: seq<Cut>, k: nat)
    requires k < |cuts|
    ensures var r := CutSliders(collection, cuts);
      && r[2 * k] == Slider("Min " + cuts[k].field, cuts[k].minValue, cuts[k].maxValue, SetCutBound(collection, cuts[k], true))
      && r[2 * k + 1] == Slider("Max " + cuts[k].field, cuts[k].minValue, cuts[k].maxValue, SetCutBound(collection, cuts[k], false))
    decreases |cuts|
  {
    var n := |cuts| - 1;
    if k < n {
      CutSlidersAt(collection, cuts[..n], k);
      assert cuts[..n][k] == cuts[k];
    }
  }

  /** The loop of addCollectionPM that adds the sliders of every cut. */
  method AddCutSliders(collection: string, cuts: seq<Cut>) returns (controls: seq<Control>)
    ensures controls == CutSliders(collection, cuts)
  {
    controls := [];
    for i := 0 to |cuts|
      invariant controls == CutSliders(collection, cuts[..i])
    {
      var cut := cuts[i];
      assert cuts[..i + 1][..i] == cuts[..i];
      controls := controls
        + [Slider("Min " + cut.field, cut.minValue, cut.maxValue, SetCutBound(collection, cut, true)),
           Slider("Max " + cut.field, cut.minValue, cut.maxValue, SetCutBound(collection, cut, false))];
    }
    assert cuts[..|cuts|] == cuts;
  }

  /** The controls of a collection node: with cuts, colour, caption, reset button and the sliders. */
  function CollectionControls(collection: string, cuts: Option<seq<Cut>>): seq<Control>
    reads if cuts.Some? then cuts.value else []
  {
    if cuts.Some? then [ColorPicker("Color"), Caption("Cuts"), Button("Reset cuts")] + CutSliders(collection, cuts.value)
    else []
  }

  // ---------------------------------------------------------------------------
  // The service
  // ---------------------------------------------------------------------------

  /** What the service asks of the three.js side. */
  datatype SceneEffect =
    | DarkBackground(dark: bool)
    | AnimateCamera(position: Vec3, target: Vec3, duration: real)
    | CollectionFilter(collection: string, field: string, min: real, max: real)

  class UIService {
    var configuration: Option<Configuration>
    var hasDatGUIMenu: bool
    var hasPhoenixMenu: bool
    /** The dat.GUI menu's folders, and whether its element is in the document. */
    var gui: Menu
    var guiAttached: bool
    /** The Phoenix menu's nodes. */
    var pm: Menu
    var geomFolder: Option<nat>
    var eventFolder: Option<nat>
    var geomFolderPM: Option<nat>
    var eventFolderPM: Option<nat>
    /** The next id a folder or node gets. */
    var nextId: nat
    var storage: Storage
    /** The document's `data-theme` attribute. */
    var dataTheme: Option<string>
    var darkTheme: bool
    var effects: seq<SceneEffect>

    /**
     * Ids are fresh and every node hangs below an older one; the remembered
     * geometry folder is in the dat.GUI menu; in either menu every "Event
     * Data" child of the root is the remembered one.
     */
    predicate Valid()
      reads this
    {
      && Root < nextId && Fresh(gui, nextId) && Fresh(pm, nextId) && Ordered(gui) && Ordered(pm)
      && (geomFolder.Some? ==> geomFolder.value in gui && gui[geomFolder.value].name == GeometriesName
                               && gui[geomFolder.value].parent == Root)
      && Single(gui, eventFolder) && Single(pm, eventFolderPM)
    }

    /** The service before showUI, with what the browser has stored. */
    constructor (storage: Storage)
      ensures Valid()
      ensures configuration == None && !hasDatGUIMenu && !hasPhoenixMenu && gui == map[] && pm == map[]
      ensures this.storage == storage && effects == [] && dataTheme == None
    {
      configuration := None;
      hasDatGUIMenu := false;
      hasPhoenixMenu := false;
      gui := map[];
      guiAttached := false;
      pm := map[];
      geomFolder := None;
      eventFolder := None;
      geomFolderPM := None;
      eventFolderPM := None;
      nextId := 1;
      this.storage := storage;
      dataTheme := None;
      darkTheme := false;
      effects := [];
    }

    /** setDarkTheme: stored, set on the document, remembered and passed to the scene. */
    method SetDarkTheme(dark: bool)
      requires Valid()
      modifies this`storage, this`dataTheme, this`darkTheme, this`effects
      ensures Valid()
      ensures storage == StoreTheme(old(storage), dark) && dataTheme == Some(ThemeName(dark))
      ensures darkTheme == dark && effects == old(effects) + [DarkBackground(dark)]
    {
      if dark {
        storage := storage[ThemeKey := "dark"];
        dataTheme := Some("dark");
      } else {
        storage := storage[ThemeKey := "light"];
        dataTheme := Some("light");
      }
      darkTheme := dark;
      effects := effects + [DarkBackground(dark)];
    }

    /** getDarkTheme. */
    method GetDarkTheme() returns (dark: bool)
      ensures dark == darkTheme
    {
      dark := darkTheme;
    }

    /** detectColorScheme, with the browser's matchMedia support and preference as inputs. */
    method DetectColorScheme(matchMediaAvailable: bool, prefersDark: bool)
      requires Valid()
      modifies this`storage, this`dataTheme, this`darkTheme, this`effects
      ensures Valid()
      ensures darkTheme == DetectDark(old(storage), matchMediaAvailable, prefersDark)
      ensures storage == StoreTheme(old(storage), darkTheme) && dataTheme == Some(ThemeName(darkTheme))
      ensures effects == old(effects) + [DarkBackground(darkTheme)]
    {
      var dark := false;
      if ThemeKey in storage && storage[ThemeKey] != "" {
        if storage[ThemeKey] == "dark" {
          dark := true;
        }
      } else if !matchMediaAvailable {
      } else if prefersDark {
        dark := true;
      }
      darkTheme := dark;
      SetDarkTheme(dark);
    }

    /** showUI: the configuration kept, the menus set up, the theme detected. */
    method ShowUI(config: Configuration, matchMediaAvailable: bool, prefersDark: bool)
      requires Valid()
      modifies this`configuration, this`hasDatGUIMenu, this`hasPhoenixMenu, this`gui, this`guiAttached
      modifies this`geomFolder, this`eventFolder, this`storage, this`dataTheme, this`darkTheme, this`effects
      ensures Valid()
      ensures configuration == Some(config)
      ensures hasDatGUIMenu == (old(hasDatGUIMenu) || config.enableDatGUIMenu)
      ensures hasPhoenixMenu == (old(hasPhoenixMenu) || config.hasPhoenixMenuRoot)
      ensures config.enableDatGUIMenu ==> gui == map[] && guiAttached && geomFolder == None && eventFolder == None
      ensures !config.enableDatGUIMenu ==>
        gui == old(gui) && guiAttached == old(guiAttached) && geomFolder == old(geomFolder) && eventFolder == old(eventFolder)
      ensures darkTheme == DetectDark(old(storage), matchMediaAvailable, prefersDark)
      ensures storage == StoreTheme(old(storage), darkTheme) && dataTheme == Some(ThemeName(darkTheme))
      ensures effects == old(effects) + [DarkBackground(darkTheme)]
    {
      configuration := Some(config);
      if config.enableDatGUIMenu {
        hasDatGUIMenu := true;
        ShowDatGUIMenu();
      }
      DetectColorScheme(matchMediaAvailable, prefersDark);
      if config.hasPhoenixMenuRoot {
        hasPhoenixMenu := true;
      }
    }

    /** showDatGUIMenu: a new, empty dat.GUI menu in the document, no folders remembered. */
    method ShowDatGUIMenu()
      requires Valid()
      modifies this`gui, this`guiAttached, this`geomFolder, this`eventFolder
      ensures Valid()
      ensures gui == map[] && guiAttached && geomFolder == None && eventFolder == None
    {
      gui := map[];
      guiAttached := true;
      geomFolder := None;
      eventFolder := None;
    }

    /** clearUI: the dat.GUI element leaves the document and the geometry folder is forgotten; nothing else changes. */
    method ClearUI()
      requires Valid()
      modifies this`guiAttached, this`geomFolder
      ensures Valid()
      ensures !guiAttached && geomFolder == None
    {
      guiAttached := false;
      geomFolder := None;
    }

    /**
     * addGeomFolder: the "Geometries" folder made if there is none and
     * given Show and Wireframe toggles (again on every call), and a new
     * "Detector" node in the Phoenix menu on every call.
     */
    method AddGeomFolder()
      requires Valid()
      modifies this`gui, this`geomFolder, this`pm, this`geomFolderPM, this`nextId
      ensures Valid() && old(nextId) <= nextId
      ensures hasDatGUIMenu ==>
        geomFolder == Some(GeometryFolderId(old(geomFolder), old(nextId)))
        && gui == GeometryFolderAdded(old(gui), old(geomFolder), old(nextId))
      ensures !hasDatGUIMenu ==> gui == old(gui) && geomFolder == old(geomFolder)
      ensures hasPhoenixMenu ==>
        geomFolderPM.Some? && geomFolderPM.value !in old(pm) && pm == old(pm)[geomFolderPM.value := DetectorNode]
      ensures !hasPhoenixMenu ==> pm == old(pm) && geomFolderPM == old(geomFolderPM)
    {
      if hasDatGUIMenu {
        GeometryFolderValid(gui, geomFolder, nextId, eventFolder);
        AddGeometryToggles();
        assert Fresh(pm, nextId) by {
          assert Fresh(pm, old(nextId));
        }
      }
      if hasPhoenixMenu {
        FreshAdd(pm, nextId, DetectorNode);
        SingleUpdate(pm, eventFolderPM, nextId, DetectorNode);
        ghost var before := nextId;
        AddDetectorNode();
        assert Fresh(gui, nextId) by {
          assert Fresh(gui, before);
        }
      }
    }

    /** The dat.GUI half of addGeomFolder. */
    method AddGeometryToggles()
      requires geomFolder.Some? ==> geomFolder.value in gui
      modifies this`gui, this`geomFolder, this`nextId
      ensures gui == GeometryFolderAdded(old(gui), old(geomFolder), old(nextId))
      ensures geomFolder == Some(GeometryFolderId(old(geomFolder), old(nextId)))
      ensures nextId == if old(geomFolder).Some? then old(nextId) else old(nextId) + 1
    {
      if geomFolder == None {
        gui := gui[nextId := MenuNode(GeometriesName, Root, [])];
        geomFolder := Some(nextId);
        nextId := nextId + 1;
      }
      var folder := gui[geomFolder.value];
      gui := gui[geomFolder.value := folder.(controls := folder.controls + GeometryToggles)];
    }

    /** The Phoenix-menu half of addGeomFolder: a new "Detector" node every time. */
    method AddDetectorNode()
      modifies this`pm, this`geomFolderPM, this`nextId
      ensures pm == old(pm)[old(nextId) := DetectorNode]
      ensures geomFolderPM == Some(old(nextId)) && nextId == old(nextId) + 1
    {
      pm := pm[nextId := DetectorNode];
      geomFolderPM := Some(nextId);
      nextId := nextId + 1;
    }

    /**
     * addEventDataFolder: in each menu present, the previous "Event Data"
     * folder removed and a new one added with its toggles on, so each menu
     * ends with exactly one.
     */
    method AddEventDataFolder()
      requires Valid()
      modifies this`gui, this`eventFolder, this`pm, this`eventFolderPM, this`nextId
      ensures Valid() && old(nextId) <= nextId
      ensures hasDatGUIMenu ==>
        eventFolder.Some? && eventFolder.value !in old(gui)
        && gui == ReplaceFolder(old(gui), old(eventFolder), eventFolder.value, EventDataFolder)
        && Named(gui, Root, EventDataName) == {eventFolder.value}
        && (old(eventFolder).Some? ==> forall k :: k in old(gui) && Below(old(gui), k, old(eventFolder).value) ==> k !in gui)
      ensures !hasDatGUIMenu ==> gui == old(gui) && eventFolder == old(eventFolder)
      ensures hasPhoenixMenu ==>
        eventFolderPM.Some? && eventFolderPM.value !in old(pm)
        && pm == ReplaceFolder(old(pm), old(eventFolderPM), eventFolderPM.value, EventDataNode)
        && Named(pm, Root, EventDataName) == {eventFolderPM.value}
        && (old(eventFolderPM).Some? ==> forall k :: k in old(pm) && Below(old(pm), k, old(eventFolderPM).value) ==> k !in pm)
      ensures !hasPhoenixMenu ==> pm == old(pm) && eventFolderPM == old(eventFolderPM)
    {
      ReplaceFolderValid(gui, eventFolder, nextId, EventDataFolder, geomFolder);
      ReplaceFolderKeepsOne(gui, eventFolder, nextId, EventDataFolder);
      if hasDatGUIMenu {
        ReplaceGuiEventFolder();
      }
      ghost var afterGui := nextId;
      ReplaceFolderValid(pm, eventFolderPM, nextId, EventDataNode, None);
      ReplaceFolderKeepsOne(pm, eventFolderPM, nextId, EventDataNode);
      assert Fresh(gui, nextId);
      if hasPhoenixMenu {
        ReplacePmEventFolder();
        assert Fresh(gui, nextId) by {
          assert Fresh(gui, afterGui);
        }
      }
    }

    /** The dat.GUI half: the previous folder and its subfolders removed from the menu, the new one added. */
    method ReplaceGuiEventFolder()
      modifies this`gui, this`eventFolder, this`nextId
      ensures gui == ReplaceFolder(old(gui), old(eventFolder), old(nextId), EventDataFolder)
      ensures eventFolder == Some(old(nextId)) && nextId == old(nextId) + 1
    {
      if eventFolder.Some? {
        gui := gui - Subtree(gui, eventFolder.value);
      }
      gui := gui[nextId := EventDataFolder];
      eventFolder := Some(nextId);
      nextId := nextId + 1;
    }

    /** The Phoenix-menu half: the previous node and its subtree removed, the new one added under the root. */
    method ReplacePmEventFolder()
      modifies this`pm, this`eventFolderPM, this`nextId
      ensures pm == ReplaceFolder(old(pm), old(eventFolderPM), old(nextId), EventDataNode)
      ensures eventFolderPM == Some(old(nextId)) && nextId == old(nextId) + 1
    {
      if eventFolderPM.Some? {
        pm := pm - Subtree(pm, eventFolderPM.value);
      }
      pm := pm[nextId := EventDataNode];
      eventFolderPM := Some(nextId);
      nextId := nextId + 1;
    }

    /**
     * addCollectionPM: a node for the collection under `typeFolderPM`,
     * with, when there are cuts, a colour picker, a caption, a reset button
     * and two sliders per cut.
     */
    method AddCollectionPM(typeFolderPM: nat, collectionName: string, cuts: Option<seq<Cut>>)
      returns (node: Option<nat>)
      requires Valid()
      requires hasPhoenixMenu ==> typeFolderPM in pm
      modifies this`pm, this`nextId
      ensures Valid() && old(nextId) <= nextId
      ensures hasPhoenixMenu ==>
        node.Some? && node.value !in old(pm)
        && pm == old(pm)[node.value := MenuNode(collectionName, typeFolderPM, CollectionControls(collectionName, cuts))]
      ensures !hasPhoenixMenu ==> node == None && pm == old(pm)
    {
      node := None;
      if hasPhoenixMenu {
        var controls := [];
        if cuts.Some? {
          var sliders := AddCutSliders(collectionName, cuts.value);
          controls := [ColorPicker("Color"), Caption("Cuts"), Button("Reset cuts")] + sliders;
        }
        var added := MenuNode(collectionName, typeFolderPM, controls);
        FreshAdd(pm, nextId, added);
        SingleUpdate(pm, eventFolderPM, nextId, added);
        pm := pm[nextId := added];
        node := Some(nextId);
        nextId := nextId + 1;
      }
    }

    /** One of the sliders moved to `value`: a cut slider sets its one bound and filters the collection. */
    method SliderChanged(action: SliderAction, value: real)
      modifies if action.SetCutBound? then {action.cut} else {}, this`effects
      ensures action.SetCutBound? ==>
        var cut := action.cut;
        && (action.isMin ==> cut.minValue == value && cut.maxValue == old(cut.maxValue))
        && (!action.isMin ==> cut.maxValue == value && cut.minValue == old(cut.minValue))
        && effects == old(effects) + [CollectionFilter(action.collection, cut.field, cut.minValue, cut.maxValue)]
      ensures !action.SetCutBound? ==> effects == old(effects)
    {
      if action.SetCutBound? {
        var cut := action.cut;
        if action.isMin {
          cut.minValue := value;
        } else {
          cut.maxValue := value;
        }
        effects := effects + [CollectionFilter(action.collection, cut.field, cut.minValue, cut.maxValue)];
      }
    }

    /** getPresetViews: the configuration's views, nothing before showUI. */
    method GetPresetViews() returns (views: Option<seq<PresetView>>)
      ensures configuration.None? ==> views == None
      ensures configuration.Some? ==> views == Some(configuration.value.presetViews)
    {
      views := if configuration.Some? then Some(configuration.value.presetViews) else None;
    }

    /** displayView: the camera animated to the view's position, looking at the origin, over 1000 ms. */
    method DisplayView(view: PresetView)
      modifies this`effects
      ensures effects == old(effects) + [AnimateCamera(view.cameraPos, Vec3(0.0, 0.0, 0.0), 1000.0)]
    {
      effects := effects + [AnimateCamera(view.cameraPos, Vec3(0.0, 0.0, 0.0), 1000.0)];
    }

    /** The keydown listener enableKeyboardControls installs. */
    method KeyDown(shiftKey: bool, keyCode: int)
      requires Valid()
      modifies this`storage, this`dataTheme, this`darkTheme, this`effects
      ensures Valid()
      ensures var response := KeyResponseFor(shiftKey, keyCode, if configuration.Some? then Some(configuration.value.presetViews) else None);
        && darkTheme == (if response.toggleTheme then !old(darkTheme) else old(darkTheme))
        && storage == (if response.toggleTheme then StoreTheme(old(storage), darkTheme) else old(storage))
        && dataTheme == (if response.toggleTheme then Some(ThemeName(darkTheme)) else old(dataTheme))
        && effects == old(effects)
           + (if response.toggleTheme then [DarkBackground(darkTheme)] else [])
           + (if response.view.Some? then [AnimateCamera(configuration.value.presetViews[response.view.value].cameraPos, Vec3(0.0, 0.0, 0.0), 1000.0)] else [])
    {
      if shiftKey {
        if keyCode == ShiftT {
          var dark := GetDarkTheme();
          SetDarkTheme(!dark);
        }
        if keyCode > 48 && keyCode < 57 {
          var indexFromKeyCode := if 49 - keyCode < 0 then keyCode - 49 else 49 - keyCode;
          if configuration.Some? && indexFromKeyCode < |configuration.value.presetViews| {
            DisplayView(configuration.value.presetViews[indexFromKeyCode]);
          }
        }
      }
    }
  }
}
